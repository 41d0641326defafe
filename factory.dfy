/** The factory demo: two pizza stores, each turning an order string into a
    pizza through its own createPizza switch. A pizza's fields are fixed by
    its constructor, so a pizza is modelled as a value. */
module Factory {

  /** The five concrete pizza classes. */
  datatype PizzaKind =
    | BasicPizza
    | NYStylePeperoni
    | NYStyleVeggie
    | ChicagoStylePeperoni
    | ChicagoStyleVeggie

  datatype Pizza = Pizza(kind: PizzaKind, name: string, dough: string, toppings: seq<string>)
  {
    /** getName: the pizza's name. */
    function GetName(): string {
      name
    }
  }

  /** The field initialisers of the abstract pizza class, before a concrete
      constructor overwrites them. */
  function PizzaDefaults(kind: PizzaKind): Pizza {
    Pizza(kind, "Pizza", "Thick", [])
  }

  /** The constructor of each concrete pizza class: start from the defaults,
      then set name, dough and toppings. */
  function NewPizza(kind: PizzaKind): (p: Pizza)
    ensures p.kind == kind
  {
    var p := PizzaDefaults(kind);
    match kind
    case BasicPizza =>
      p.(name := "Basic Pizza", dough := "Thin or Thick Crust", toppings := ["Cheese"])
    case NYStylePeperoni =>
      p.(name := "NY Style Peperoni Pizza", dough := "Thin Crust", toppings := ["Tomato, Peperoni"])
    case NYStyleVeggie =>
      p.(name := "NY Veggie", dough := "Thin Crust", toppings := ["Carrot", "Cucumber"])
    case ChicagoStylePeperoni =>
      p.(name := "Chicago Style Peperoni", dough := "Deep Dish Style", toppings := ["Peperoni", "Cheese"])
    case ChicagoStyleVeggie =>
      p.(name := "Chicago Style Veggie", dough := "Deep Dish Style", toppings := ["Peppers", "Cheese"])
  }

  datatype PizzaStore = NYPizzaStore | ChicagoPizzaStore
  {
    /** The order strings this store recognises. */
    function Menu(): set<string> {
      match this
      case NYPizzaStore => {"NY Style Peperoni Pizza", "NY Veggie"}
      case ChicagoPizzaStore => {"Chicago Style Veggie", "Chicago Style Peperoni"}
    }

    /** The pizza classes this store can produce. */
    function Kinds(): set<PizzaKind> {
      match this
      case NYPizzaStore => {BasicPizza, NYStylePeperoni, NYStyleVeggie}
      case ChicagoPizzaStore => {BasicPizza, ChicagoStylePeperoni, ChicagoStyleVeggie}
    }

    /** createPizza: the store's switch on the order string; any string it
        does not recognise gives a BasicPizza. Every string gives a pizza. */
    function CreatePizza(pizzaType: string): (p: Pizza)
      ensures p.kind in Kinds()
    {
      match this
      case NYPizzaStore =>
        if pizzaType == "NY Style Peperoni Pizza" then NewPizza(NYStylePeperoni)
        else if pizzaType == "NY Veggie" then NewPizza(NYStyleVeggie)
        else NewPizza(BasicPizza)
      case ChicagoPizzaStore =>
        if pizzaType == "Chicago Style Veggie" then NewPizza(ChicagoStyleVeggie)
        else if pizzaType == "Chicago Style Peperoni" then NewPizza(ChicagoStylePeperoni)
        else NewPizza(BasicPizza)
    }

    /** orderPizza: returns the very pizza createPizza built; preparing,
        baking, cutting and boxing only print. */
    function OrderPizza(pizzaType: string): (p: Pizza)
      ensures p == CreatePizza(pizzaType)
      ensures p.GetName() == (if pizzaType in Menu() then pizzaType else "Basic Pizza")
    {
      NameFollowsOrder(this, pizzaType);
      var pizza := CreatePizza(pizzaType);
      pizza
    }
  }

  /** The NY store maps each of its two keys to its own variant, and every
      other string to a BasicPizza. */
  lemma NYDispatch(pizzaType: string)
    ensures var p := NYPizzaStore.CreatePizza(pizzaType);
      (p.kind == NYStylePeperoni <==> pizzaType == "NY Style Peperoni Pizza") &&
      (p.kind == NYStyleVeggie <==> pizzaType == "NY Veggie") &&
      (p.kind == BasicPizza <==> pizzaType !in NYPizzaStore.Menu())
  {
  }

  /** The Chicago store maps each of its two keys to its own variant, and
      every other string to a BasicPizza. */
  lemma ChicagoDispatch(pizzaType: string)
    ensures var p := ChicagoPizzaStore.CreatePizza(pizzaType);
      (p.kind == ChicagoStyleVeggie <==> pizzaType == "Chicago Style Veggie") &&
      (p.kind == ChicagoStylePeperoni <==> pizzaType == "Chicago Style Peperoni") &&
      (p.kind == BasicPizza <==> pizzaType !in ChicagoPizzaStore.Menu())
  {
  }

  /** Each variant's name is distinct, so the name identifies the class. */
  lemma NamesIdentifyKinds(k: PizzaKind, k': PizzaKind)
    ensures NewPizza(k).name == NewPizza(k').name <==> k == k'
  {
  }

  /** A recognised order string comes back as the pizza's name; any other
      string gives "Basic Pizza". The name equals the order exactly when the
      order is on the menu or is "Basic Pizza" itself. */
  lemma NameFollowsOrder(store: PizzaStore, pizzaType: string)
    ensures store.CreatePizza(pizzaType).GetName() == (if pizzaType in store.Menu() then pizzaType else "Basic Pizza")
    ensures store.CreatePizza(pizzaType).GetName() == pizzaType <==> pizzaType in store.Menu() || pizzaType == "Basic Pizza"
  {
  }

  /** Ordering a pizza by the name of the pizza a store returned gives the
      same pizza back. */
  lemma ReorderByName(store: PizzaStore, pizzaType: string)
    ensures var p := store.CreatePizza(pizzaType);
      store.CreatePizza(p.GetName()) == p
  {
    NameFollowsOrder(store, pizzaType);
    var p := store.CreatePizza(pizzaType);
    if pizzaType !in store.Menu() {
      assert p.GetName() !in store.Menu();
    }
  }

  /** A store never produces the other store's regional variants: the only
      pizza both can make is the BasicPizza. */
  lemma NoForeignVariant(pizzaType: string)
    ensures NYPizzaStore.CreatePizza(pizzaType).kind !in {ChicagoStylePeperoni, ChicagoStyleVeggie}
    ensures ChicagoPizzaStore.CreatePizza(pizzaType).kind !in {NYStylePeperoni, NYStyleVeggie}
    ensures NYPizzaStore.CreatePizza("Chicago Style Veggie") == NewPizza(BasicPizza)
    ensures ChicagoPizzaStore.CreatePizza("NY Veggie") == NewPizza(BasicPizza)
  {
  }

  /** Every concrete constructor overwrites all three defaults, so the
      abstract class's "Pizza", "Thick" and [] never reach a customer. */
  lemma DefaultsAlwaysOverwritten(kind: PizzaKind)
    ensures var p := NewPizza(kind);
      p.name != "Pizza" && p.dough != "Thick" && p.toppings != []
  {
  }

  /** NYStylePeperoni has a single topping "Tomato, Peperoni", not two. */
  lemma NYPeperoniToppings()
    ensures NewPizza(NYStylePeperoni).toppings == ["Tomato, Peperoni"]
    ensures |NewPizza(NYStylePeperoni).toppings| == 1
  {
  }

  /** The demo's two orders. */
  lemma FactoryScenario()
    ensures NYPizzaStore.OrderPizza("NY Style Peperoni Pizza") == NewPizza(NYStylePeperoni)
    ensures ChicagoPizzaStore.OrderPizza("Chicago Style Veggie") == NewPizza(ChicagoStyleVeggie)
    ensures NYPizzaStore.OrderPizza("NY Style Peperoni Pizza").dough == "Thin Crust"
    ensures ChicagoPizzaStore.OrderPizza("Chicago Style Veggie").toppings == ["Peppers", "Cheese"]
  {
  }
}
