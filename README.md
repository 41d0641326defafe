# Design-pattern demos: decorator, observer and factory, modelled in Dafny

This project models three small TypeScript demos of classic design patterns
and proves what each one promises.

- **Decorator** (`decorator.dfy`, module `Decorator`). A `Desktop` holds an
  item name and a price. Zero or more decorators (`WithKeyboard`, `WithMouse`,
  `WithMonitor`) each wrap one component. `getPrice` adds each layer's price
  to the price of what it wraps. `getDescription` appends `", name($price)"`
  to the description of what it wraps. Every field is set once by a
  constructor, so a component is a datatype value
  `Desktop(itemName, price) | Decorated(itemName, price, baseComponent)`.
  The model gives a chain a second, independent view as a list of layers,
  Desktop first. The total is proved to be the sum over that list, and the
  description is proved to be the list's fragments joined with `", "`.
  The total is proved not to depend on the order of the decorators, while
  the description is.
- **Observer** (`observer.dfy`, module `Observer`). `WeatherData` is a class
  with three readings and a subscriber list held in a `seq` field.
  `addSubscriber` appends to the list. `removeSubscriber` calls
  `splice(indexOf(s), 1)`. `setWeather` stores the readings and then notifies
  every subscriber. The two display classes are classes too.
  `CurrentWeatherDisplay` copies the latest readings.
  `AverageWeatherDisplay` appends them to three history `seq`s. A subscriber
  is `Current(display) | Average(display)`, a tagged union of references, so
  equality is object identity, as with `indexOf`. `indexOf` and `splice` are
  modelled by the ECMAScript rules. A negative splice start counts from the
  end, so removing a subscriber that is not in the list deletes the last one.
- **Factory** (`factory.dfy`, module `Factory`). Each store's `createPizza`
  is a switch from an order string to one of five pizza classes. Any string it
  does not recognise gives a `BasicPizza`. A pizza is a value
  `Pizza(kind, name, dough, toppings)`. `kind` records the concrete class, and
  the fields start from the abstract class's initialisers before the concrete
  constructor overwrites them.

Prices and readings are whole numbers (`int`), as in every use in the demos.

`WithMonitor` defaults to 35 (decorator-pattern/index.ts:68), so
`desktopMonitor` totals 135 and the keyboard-mouse-monitor chain totals 165.

## Model

| member | source | states |
|---|---|---|
| Decorator.NatToString | decorator-pattern/index.ts:34-36 | the text of a price's digits is non-empty, made only of decimal digits, and has no leading zero |
| Decorator.ParseNumberToString | decorator-pattern/index.ts:34-36 | the `${price}` text reads back as the price itself, so a fragment never loses or alters its price |
| Decorator.Layers | decorator-pattern/index.ts:20-27 | a chain with n decorators has n + 1 layers, and the first is its Desktop |
| Decorator.BuildLayers | decorator-pattern/index.ts:20-27 | rebuilding a chain bottom-up from its layers gives back the same chain |
| Decorator.LayersBuild | decorator-pattern/index.ts:20-27 | the layers of a chain built from a list are that list |
| Decorator.WrapLayers | decorator-pattern/index.ts:20-27 | wrapping a component in decorators appends them, in order, after its own layers |
| Decorator.PriceIsSumOfLayers | decorator-pattern/index.ts:29-31 | the total of any chain is the sum of the prices of all its layers |
| Decorator.ChainTotal | decorator-pattern/index.ts:75-77 | the total is the Desktop's price plus all decorator prices; a bare Desktop's total is its own price |
| Decorator.WrapPrice | decorator-pattern/index.ts:29-31 | wrapping in decorators adds exactly their prices to the total |
| Decorator.SumPermutation | decorator-pattern/index.ts:29-31 | the sum of prices is the same for any reordering of the layers |
| Decorator.PriceIgnoresOrder | decorator-pattern/index.ts:29-31 | the total does not depend on the order in which decorators are applied |
| Decorator.DescriptionIsJoin | decorator-pattern/index.ts:33-37 | the description is the n + 1 layer fragments, Desktop first, joined with ", " |
| Decorator.DescriptionEnds | decorator-pattern/index.ts:79-81 | the description starts with the Desktop's `name($price)` fragment and, for a decorator, ends with ", " and the outermost fragment |
| Decorator.WrapDescription | decorator-pattern/index.ts:33-37 | wrapping appends one ", name($price)" per decorator, in application order |
| Decorator.DescriptionDependsOnOrder | decorator-pattern/index.ts:29-37 | swapping two decorators whose names start differently keeps the total but changes the description |
| Decorator.CommaCount | decorator-pattern/index.ts:33-37 | when no name contains a comma, the description has exactly one comma per decorator |
| Decorator.WithKeyboard | decorator-pattern/index.ts:44-52 | wraps the given component unchanged as its innermost layers and adds its price, 20 by default |
| Decorator.WithMouse | decorator-pattern/index.ts:54-62 | wraps the given component unchanged and adds its price, 10 by default |
| Decorator.WithMonitor | decorator-pattern/index.ts:64-72 | wraps the given component unchanged and adds its price, 35 by default |
| Decorator.DefaultPrices | decorator-pattern/index.ts:44-72 | the default keyboard, mouse and monitor add 20, 10 and 35 to any component |
| Decorator.SampleTotals | decorator-pattern/index.ts:88-92 | the five sample chains total 100, 120, 130, 135 and 165 |
| Decorator.SharedDesktopUnchanged | decorator-pattern/index.ts:88-91 | the Desktop shared by two chains is still "Intel Pentium" at 100, with its own description |
| Decorator.SampleFragments | decorator-pattern/index.ts:34-36 | the sample layers render as "Intel Pentium($100)", "Keyboard($20)", "Mouse($10)" and "LCD Monitor($35)" |
| Decorator.SampleDescriptions | decorator-pattern/index.ts:88-92 | the keyboard-mouse chain reads "Intel Pentium($100), Keyboard($20), Mouse($10)", and the monitor adds ", LCD Monitor($35)" |
| Observer.IndexOf | observer-pattern/index.ts:72 | indexOf gives -1 exactly when the subscriber is absent, and otherwise the position of its first occurrence |
| Observer.SpliceStart | observer-pattern/index.ts:73 | splice starts at the given index when it is in range, and counts a negative start from the end |
| Observer.RemovePresent | observer-pattern/index.ts:71-74 | removing a present subscriber deletes its first occurrence only and keeps the others in order |
| Observer.RemoveAbsent | observer-pattern/index.ts:72-73 | removing an absent subscriber deletes the last subscriber; on an empty list nothing changes |
| Observer.CountIsMultiplicity | observer-pattern/index.ts:55-59 | the number of times a subscriber is listed is its multiplicity in the list |
| Observer.RecordTimesAppends | observer-pattern/index.ts:127-132 | after n notifications the histories keep their old entries, gain n copies of the reading, and each has one entry per notification |
| Observer.WeatherData.constructor | observer-pattern/index.ts:26-31 | a new publisher reads 0, 0, 0 and holds the given subscriber list, empty by default |
| Observer.WeatherData.GetTemp | observer-pattern/index.ts:80-82 | returns the current temperature |
| Observer.WeatherData.GetHumidity | observer-pattern/index.ts:77-79 | returns the current humidity |
| Observer.WeatherData.GetPressure | observer-pattern/index.ts:84-86 | returns the current pressure |
| Observer.WeatherData.GetWeather | observer-pattern/index.ts:87-93 | returns a record of exactly the three current readings |
| Observer.WeatherData.AddSubscriber | observer-pattern/index.ts:67-69 | appends the subscriber at the end; the earlier entries and the readings are unchanged |
| Observer.WeatherData.RemoveSubscriber | observer-pattern/index.ts:71-74 | the list becomes splice(indexOf(s), 1): the first occurrence goes if present, otherwise the last subscriber goes |
| Observer.WeatherData.NotifyListeners | observer-pattern/index.ts:55-59 | every listed current display shows its publisher's readings; every listed averaging display gains one reading per listing; the publisher is unchanged |
| Observer.NotifyEach | observer-pattern/index.ts:56-58 | after the loop over the whole list, every subscriber has been notified once per listing, in list order |
| Observer.NotifyAt | observer-pattern/index.ts:57 | notifying one subscriber updates that display only and keeps what the earlier notifications established for the others |
| Observer.WeatherData.StateChanged | observer-pattern/index.ts:62-64 | has the same effect as notifyListeners |
| Observer.WeatherData.SetWeather | observer-pattern/index.ts:47-52 | leaves exactly the three given readings and the same list, then every subscriber has been notified of them |
| Observer.UpdateState | observer-pattern/index.ts:56-58 | each subscriber's own updateState runs: a current display shows the readings, an averaging display records them once |
| Observer.CurrentWeatherDisplay.constructor | observer-pattern/index.ts:96-99 | a new current display is bound to its publisher and shows nothing (undefined) yet |
| Observer.CurrentWeatherDisplay.UpdateState | observer-pattern/index.ts:101-108 | sets the three current fields to the publisher's current readings |
| Observer.AverageWeatherDisplay.constructor | observer-pattern/index.ts:122-125 | a new averaging display is bound to its publisher with three empty histories and no notifications, so each history has one entry per notification |
| Observer.AverageWeatherDisplay.UpdateState | observer-pattern/index.ts:127-132 | appends the publisher's current readings to the three histories and counts one more notification, keeping one history entry per notification |
| Factory.NewPizza | factory-pattern/index.ts:30-73 | each constructor builds an instance of its own class, with the name, dough and toppings that class's constructor sets |
| Factory.PizzaStore.CreatePizza | factory-pattern/index.ts:92-114 | every order string gives a pizza, always of a class this store makes |
| Factory.PizzaStore.OrderPizza | factory-pattern/index.ts:78-86 | returns exactly the pizza createPizza built, named after the order if recognised and "Basic Pizza" otherwise |
| Factory.NYDispatch | factory-pattern/index.ts:92-101 | the NY store gives NYStylePeperoni exactly for "NY Style Peperoni Pizza", NYStyleVeggie exactly for "NY Veggie", and BasicPizza exactly for every other string |
| Factory.ChicagoDispatch | factory-pattern/index.ts:105-114 | the Chicago store gives ChicagoStyleVeggie exactly for "Chicago Style Veggie", ChicagoStylePeperoni exactly for "Chicago Style Peperoni", and BasicPizza exactly for every other string |
| Factory.NameFollowsOrder | factory-pattern/index.ts:92-114 | a recognised order comes back as the pizza's name and any other gives "Basic Pizza"; the name equals the order exactly when it is on the menu or is "Basic Pizza" |
| Factory.ReorderByName | factory-pattern/index.ts:92-114 | ordering again by the returned pizza's name gives the same pizza |
| Factory.NoForeignVariant | factory-pattern/index.ts:93-113 | neither store ever produces the other store's regional variants; e.g. NY given "Chicago Style Veggie" gives BasicPizza |
| Factory.NamesIdentifyKinds | factory-pattern/index.ts:30-73 | two constructors give the same name only when they are the same class |
| Factory.DefaultsAlwaysOverwritten | factory-pattern/index.ts:1-4 | every concrete constructor overwrites the initialisers "Pizza", "Thick" and [] |
| Factory.NYPeperoniToppings | factory-pattern/index.ts:39-46 | NYStylePeperoni has the single topping "Tomato, Peperoni" |
| Factory.FactoryScenario | factory-pattern/index.ts:117-123 | the demo's two orders give an NYStylePeperoni on thin crust and a ChicagoStyleVeggie with peppers and cheese |

## Left out

- Console output is not modelled. This covers `printProduct`, both
  `updateDisplay` methods, and `prepare`, `bake`, `cut` and `box`, which only
  print. The demos' top-level calls appear only as scenarios:
  `SampleTotals`, `SampleDescriptions`, `ObserverScenario`,
  `ObserverScenarioRest` and `FactoryScenario`.
- `AverageWeatherDisplay.getAverage` is not modelled. It is floating-point
  division followed by `toFixed(2)` rounding, and it throws on an empty
  history.
- The strategy demo is not part of this model. `travel` and `performTravel`
  only print, so there is no state or result to state.
- `number` is modelled as `int`. Fractional prices and readings, and
  floating-point rounding, are not modelled.
- Decorator.NumberToString: renders the digits of an integer. It does not
  model the exponential form JavaScript uses for magnitudes of 10^21 and
  above.
- Observer.WeatherData.constructor: the subscriber list is held by value. A
  caller that passes its own array and later mutates it would, in
  TypeScript, share that array with the publisher. That aliasing is not
  modelled.
- Observer.WeatherData.NotifyListeners: states the state after all calls, not
  the order of the calls. Each display reads the same unchanged readings, so
  the order shows only in console output.
- Observer.CurrentWeatherDisplay.UpdateState: the `weatherData !== undefined`
  guard is always true here, because every display is constructed with a
  publisher. The branch that skips the update is not modelled.
- The abstract classes and their virtual calls are not modelled as classes.
  `BaseDesktopComponent` and `IComponentDecorator` become the `Component`
  datatype. `IWeatherDisplay` becomes the `Subscriber` union with
  `Observer.UpdateState` as its dispatch. `IPizzaStore` becomes the
  `PizzaStore` datatype.
- The pizza stores' `storeName` field is not modelled. No store reads or
  sets it, so it keeps its initialiser "Basic Store".
