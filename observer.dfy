/** The observer demo: a WeatherData publisher keeps three readings and a
    list of subscribed displays, which it notifies in list order whenever the
    readings are set. Readings are whole numbers. */
module Observer {

  datatype Option<T> = None | Some(value: T)

  /** The plain record that getWeather returns. */
  datatype WeatherObject = WeatherObject(temp: int, humidity: int, pressure: int)

  /** What an averaging display has recorded: one history per reading and
      the number of notifications that filled them. */
  datatype History = History(temps: seq<int>, humidities: seq<int>, pressures: seq<int>, notifications: nat)
  {
    /** Each history has one entry per notification received. */
    predicate Valid() {
      |temps| == notifications && |humidities| == notifications && |pressures| == notifications
    }

    /** One notification: each reading appended to its history. */
    function Record(r: WeatherObject): History {
      History(temps + [r.temp], humidities + [r.humidity], pressures + [r.pressure], notifications + 1)
    }

    /** `n` notifications carrying the same readings. */
    function RecordTimes(r: WeatherObject, n: nat): History {
      if n == 0 then this else RecordTimes(r, n - 1).Record(r)
    }
  }

  /** After `n` notifications with readings `r`, the histories are still in
      step with the notification count, the earlier entries are kept, and
      every new entry is the notified reading. */
  lemma {:induction false} RecordTimesAppends(h: History, r: WeatherObject, n: nat)
    requires h.Valid()
    ensures var h' := h.RecordTimes(r, n);
      h'.Valid() && h'.notifications == h.notifications + n &&
      h'.temps[..|h.temps|] == h.temps && h'.humidities[..|h.humidities|] == h.humidities &&
      h'.pressures[..|h.pressures|] == h.pressures &&
      (forall k :: |h.temps| <= k < |h'.temps| ==> h'.temps[k] == r.temp) &&
      (forall k :: |h.humidities| <= k < |h'.humidities| ==> h'.humidities[k] == r.humidity) &&
      (forall k :: |h.pressures| <= k < |h'.pressures| ==> h'.pressures[k] == r.pressure)
  {
    if n > 0 {
      RecordTimesAppends(h, r, n - 1);
      var g := h.RecordTimes(r, n - 1);
      assert (g.temps + [r.temp])[..|h.temps|] == g.temps[..|h.temps|];
      assert (g.humidities + [r.humidity])[..|h.humidities|] == g.humidities[..|h.humidities|];
      assert (g.pressures + [r.pressure])[..|h.pressures|] == g.pressures[..|h.pressures|];
    }
  }

  /** A subscribed display: one of the two display classes. Two subscribers
      are equal exactly when they refer to the same display object, as with
      the strict equality that indexOf uses. */
  datatype Subscriber =
    | Current(current: CurrentWeatherDisplay)
    | Average(average: AverageWeatherDisplay)
  {
    function Display(): object {
      match this
      case Current(d) => d
      case Average(d) => d
    }
  }

  // ---------------------------------------------------------------------
  // The array operations removeSubscriber relies on

  /** Array.prototype.indexOf: the first position of `x`, or -1. */
  function IndexOf<T(==)>(a: seq<T>, x: T): (i: int)
    ensures -1 <= i < |a|
    ensures i == -1 <==> x !in a
    ensures 0 <= i ==> a[i] == x && x !in a[..i]
  {
    if a == [] then -1
    else if a[0] == x then 0
    else
      var j := IndexOf(a[1..], x);
      if j == -1 then -1 else j + 1
  }

  /** Where Array.prototype.splice starts: a negative start counts from the
      end, and the result is clamped to [0, len]. */
  function SpliceStart(len: nat, start: int): (k: nat)
    ensures k <= len
    ensures 0 <= start <= len ==> k == start
    ensures start < 0 && -start <= len ==> k == len + start
  {
    if start < 0 then (if len + start < 0 then 0 else len + start)
    else if start > len then len
    else start
  }

  /** The array left by Array.prototype.splice(start, deleteCount): at most
      `deleteCount` elements are removed from the clamped start. */
  function Splice<T>(a: seq<T>, start: int, deleteCount: int): (r: seq<T>)
  {
    var k := SpliceStart(|a|, start);
    var n := if deleteCount < 0 then 0 else if deleteCount > |a| - k then |a| - k else deleteCount;
    a[..k] + a[k + n..]
  }

  /** What removeSubscriber leaves: splice at the index indexOf reports. */
  function Removed<T(==)>(a: seq<T>, x: T): seq<T> {
    Splice(a, IndexOf(a, x), 1)
  }

  /** Removing a present subscriber deletes its first occurrence and keeps
      every other subscriber in order. */
  lemma RemovePresent<T>(a: seq<T>, x: T)
    requires x in a
    ensures var i := IndexOf(a, x);
      0 <= i < |a| && a[i] == x && x !in a[..i] &&
      Removed(a, x) == a[..i] + a[i + 1..]
    ensures |Removed(a, x)| == |a| - 1
    ensures multiset(Removed(a, x)) == multiset(a) - multiset{x}
  {
    var i := IndexOf(a, x);
    assert a == a[..i] + [a[i]] + a[i + 1..];
    assert multiset(a) == multiset(a[..i]) + multiset{x} + multiset(a[i + 1..]);
  }

  /** Removing an absent subscriber deletes the LAST subscriber, since
      indexOf gives -1 and splice(-1, 1) counts from the end; on an empty
      list nothing changes. */
  lemma RemoveAbsent<T>(a: seq<T>, x: T)
    requires x !in a
    ensures a == [] ==> Removed(a, x) == []
    ensures a != [] ==> Removed(a, x) == a[..|a| - 1]
  {
  }

  // ---------------------------------------------------------------------
  // Helpers for stating what a round of notifications does

  /** Number of occurrences of `x` in `a`. */
  function Count<T(==)>(a: seq<T>, x: T): nat {
    if a == [] then 0 else Count(a[..|a| - 1], x) + (if a[|a| - 1] == x then 1 else 0)
  }

  /** Count agrees with the multiplicity of `x` in the multiset of `a`. */
  lemma {:induction false} CountIsMultiplicity<T>(a: seq<T>, x: T)
    ensures Count(a, x) == multiset(a)[x]
  {
    if a != [] {
      var init := a[..|a| - 1];
      CountIsMultiplicity(init, x);
      assert a == init + [a[|a| - 1]];
    }
  }

  lemma CountSnoc<T>(a: seq<T>, i: nat, x: T)
    requires i < |a|
    ensures Count(a[..i + 1], x) == Count(a[..i], x) + (if a[i] == x then 1 else 0)
  {
    assert a[..i + 1][..i] == a[..i];
  }

  // ---------------------------------------------------------------------
  // The publisher

  class WeatherData {
    var temp: int
    var humidity: int
    var pressure: int
    var subscriberList: seq<Subscriber>

    /** A fresh publisher reads 0, 0, 0 and keeps the list it is given,
        an empty one by default. */
    constructor (subscriberList: seq<Subscriber> := [])
      ensures temp == 0 && humidity == 0 && pressure == 0
      ensures this.subscriberList == subscriberList
    {
      temp := 0;
      humidity := 0;
      pressure := 0;
      this.subscriberList := subscriberList;
    }

    /** The display objects currently subscribed. */
    ghost function Displays(): set<object>
      reads this
    {
      set i | 0 <= i < |subscriberList| :: subscriberList[i].Display()
    }

    /** The three current readings. */
    function Reading(): WeatherObject
      reads this
    {
      WeatherObject(temp, humidity, pressure)
    }

    method GetTemp() returns (t: int)
      ensures t == temp
    {
      t := temp;
    }

    method GetHumidity() returns (h: int)
      ensures h == humidity
    {
      h := humidity;
    }

    method GetPressure() returns (p: int)
      ensures p == pressure
    {
      p := pressure;
    }

    method GetWeather() returns (w: WeatherObject)
      ensures w.temp == temp && w.humidity == humidity && w.pressure == pressure
    {
      w := WeatherObject(temp, humidity, pressure);
    }

    /** addSubscriber: appends at the end; earlier entries stay as they were. */
    method AddSubscriber(subscriber: Subscriber)
      modifies this
      ensures subscriberList == old(subscriberList) + [subscriber]
      ensures temp == old(temp) && humidity == old(humidity) && pressure == old(pressure)
    {
      subscriberList := subscriberList + [subscriber];
    }

    /** removeSubscriber: splice(indexOf(subscriber), 1). A present subscriber
        loses its first occurrence; an absent one costs the last subscriber. */
    method RemoveSubscriber(subscriber: Subscriber)
      modifies this
      ensures subscriberList == Removed(old(subscriberList), subscriber)
      ensures subscriber in old(subscriberList) ==>
        var i := IndexOf(old(subscriberList), subscriber);
        subscriberList == old(subscriberList)[..i] + old(subscriberList)[i + 1..]
      ensures subscriber !in old(subscriberList) && old(subscriberList) != [] ==>
        subscriberList == old(subscriberList)[..|old(subscriberList)| - 1]
      ensures old(subscriberList) == [] ==> subscriberList == []
      ensures temp == old(temp) && humidity == old(humidity) && pressure == old(pressure)
    {
      var elIndex := IndexOf(subscriberList, subscriber);
      subscriberList := Splice(subscriberList, elIndex, 1);
      if subscriber in old(subscriberList) {
        RemovePresent(old(subscriberList), subscriber);
      } else {
        RemoveAbsent(old(subscriberList), subscriber);
      }
    }

    /** notifyListeners: calls updateState once on each subscriber in list
        order. Afterwards every subscribed current display shows its
        publisher's readings, and every subscribed averaging display has one
        more entry per occurrence in the list. Nothing else changes: not the
        list, not the readings, not any display outside the list. */
    method NotifyListeners()
      modifies Displays()
      ensures unchanged(this)
      ensures forall i :: 0 <= i < |subscriberList| && subscriberList[i].Current? ==>
        subscriberList[i].current.Shows(subscriberList[i].current.weatherData)
      ensures forall i :: 0 <= i < |subscriberList| && subscriberList[i].Average? ==>
        subscriberList[i].average.Snapshot() ==
          old(subscriberList[i].average.Snapshot()).RecordTimes(
            subscriberList[i].average.weatherData.Reading(), Count(subscriberList, subscriberList[i]))
    {
      var list := subscriberList;
      ghost var start := map a | a in Averages(list) :: a.Snapshot();
      forall j | 0 <= j < |list| && list[j].Average?
        ensures list[j].average in start && start[list[j].average] == old(list[j].average.Snapshot())
      {
        assert list[j].average in Averages(list);
      }
      assert list[..0] == [];
      NotifyEach(list, start);
      assert list[..|list|] == list;
      assert Notified(list, |list|, start);
    }

    /** stateChanged: runs notifyListeners. */
    method StateChanged()
      modifies Displays()
      ensures unchanged(this)
      ensures forall i :: 0 <= i < |subscriberList| && subscriberList[i].Current? ==>
        subscriberList[i].current.Shows(subscriberList[i].current.weatherData)
      ensures forall i :: 0 <= i < |subscriberList| && subscriberList[i].Average? ==>
        subscriberList[i].average.Snapshot() ==
          old(subscriberList[i].average.Snapshot()).RecordTimes(
            subscriberList[i].average.weatherData.Reading(), Count(subscriberList, subscriberList[i]))
    {
      NotifyListeners();
    }

    /** setWeather: stores the three readings, then notifies every subscriber. */
    method SetWeather(temp: int, humidity: int, pressure: int)
      modifies this, Displays()
      ensures this.temp == temp && this.humidity == humidity && this.pressure == pressure
      ensures subscriberList == old(subscriberList)
      ensures forall i :: 0 <= i < |subscriberList| && subscriberList[i].Current? ==>
        subscriberList[i].current.Shows(subscriberList[i].current.weatherData)
      ensures forall i :: 0 <= i < |subscriberList| && subscriberList[i].Average? ==>
        subscriberList[i].average.Snapshot() ==
          old(subscriberList[i].average.Snapshot()).RecordTimes(
            subscriberList[i].average.weatherData.Reading(), Count(subscriberList, subscriberList[i]))
    {
      this.temp := temp;
      this.humidity := humidity;
      this.pressure := pressure;
      StateChanged();
    }
  }

  // ---------------------------------------------------------------------
  // The displays

  /** Shows the latest readings of its publisher; undefined until notified. */
  class CurrentWeatherDisplay {
    const weatherData: WeatherData
    var currentTemp: Option<int>
    var currentHumidity: Option<int>
    var currentPressure: Option<int>

    constructor (weatherData: WeatherData)
      ensures this.weatherData == weatherData
      ensures currentTemp == None && currentHumidity == None && currentPressure == None
    {
      this.weatherData := weatherData;
      currentTemp := None;
      currentHumidity := None;
      currentPressure := None;
    }

    /** The display holds exactly the readings of `w`. */
    ghost predicate Shows(w: WeatherData)
      reads this, w
    {
      currentTemp == Some(w.temp) && currentHumidity == Some(w.humidity) && currentPressure == Some(w.pressure)
    }

    /** updateState: copies the publisher's three readings. */
    method UpdateState()
      modifies this
      ensures Shows(weatherData)
    {
      var t := weatherData.GetTemp();
      var h := weatherData.GetHumidity();
      var p := weatherData.GetPressure();
      currentTemp := Some(t);
      currentHumidity := Some(h);
      currentPressure := Some(p);
    }
  }

  /** Records every reading its publisher has notified it of. */
  class AverageWeatherDisplay {
    const weatherData: WeatherData
    var tempHistory: seq<int>
    var humidityHistory: seq<int>
    var pressureHistory: seq<int>
    /** How many times updateState has run. */
    ghost var notifications: nat

    /** The histories and the notification count, as one value. */
    ghost function Snapshot(): History
      reads this
    {
      History(tempHistory, humidityHistory, pressureHistory, notifications)
    }

    constructor (weatherData: WeatherData)
      ensures this.weatherData == weatherData
      ensures Snapshot() == History([], [], [], 0)
      ensures Snapshot().Valid()
    {
      this.weatherData := weatherData;
      tempHistory := [];
      humidityHistory := [];
      pressureHistory := [];
      notifications := 0;
    }

    /** updateState: appends the publisher's current readings to the three
        histories. */
    method UpdateState()
      modifies this
      ensures tempHistory == old(tempHistory) + [weatherData.temp]
      ensures humidityHistory == old(humidityHistory) + [weatherData.humidity]
      ensures pressureHistory == old(pressureHistory) + [weatherData.pressure]
      ensures Snapshot() == old(Snapshot()).Record(weatherData.Reading())
      ensures old(Snapshot()).Valid() ==> Snapshot().Valid()
    {
      var t := weatherData.GetTemp();
      tempHistory := tempHistory + [t];
      var h := weatherData.GetHumidity();
      humidityHistory := humidityHistory + [h];
      var p := weatherData.GetPressure();
      pressureHistory := pressureHistory + [p];
      notifications := notifications + 1;
    }
  }

  /** display.updateState(), dispatched on the kind of display. */
  method UpdateState(s: Subscriber)
    modifies s.Display()
    ensures s.Current? ==> s.current.Shows(s.current.weatherData)
    ensures s.Average? ==> s.average.Snapshot() == old(s.average.Snapshot()).Record(s.average.weatherData.Reading())
  {
    match s
    case Current(d) =>
      d.UpdateState();
    case Average(d) =>
      d.UpdateState();
  }

  /** The averaging displays in a subscriber list. */
  ghost function Averages(list: seq<Subscriber>): set<AverageWeatherDisplay> {
    set j | 0 <= j < |list| && list[j].Average? :: list[j].average
  }

  /** The state after notifying `list[..i]`: each current display among them
      shows its publisher's readings, and each listed averaging display has
      recorded its publisher's reading once per occurrence in `list[..i]`
      since it held `start`. */
  ghost predicate Notified(list: seq<Subscriber>, i: nat, start: map<AverageWeatherDisplay, History>)
    requires i <= |list|
    reads set j | 0 <= j < |list| :: list[j].Display()
    reads set j | 0 <= j < |list| && list[j].Current? :: list[j].current.weatherData
    reads set j | 0 <= j < |list| && list[j].Average? :: list[j].average.weatherData
  {
    (forall j :: 0 <= j < i && list[j].Current? ==> list[j].current.Shows(list[j].current.weatherData)) &&
    (forall j :: 0 <= j < |list| && list[j].Average? ==>
      list[j].average in start &&
      list[j].average.Snapshot() == start[list[j].average].RecordTimes(list[j].average.weatherData.Reading(), Count(list[..i], list[j])))
  }

  /** One step of notifyListeners: `list[i]` is notified. */
  method NotifyAt(list: seq<Subscriber>, i: nat, ghost start: map<AverageWeatherDisplay, History>)
    requires i < |list|
    requires Notified(list, i, start)
    modifies list[i].Display()
    ensures Notified(list, i + 1, start)
  {
    UpdateState(list[i]);
    forall j | 0 <= j < i + 1 && list[j].Current?
      ensures list[j].current.Shows(list[j].current.weatherData)
    {
      if list[j] != list[i] {
        assert list[j].current != list[i].Display();
      }
    }
    forall j | 0 <= j < |list| && list[j].Average?
      ensures list[j].average.Snapshot() ==
        start[list[j].average].RecordTimes(list[j].average.weatherData.Reading(), Count(list[..i + 1], list[j]))
    {
      CountSnoc(list, i, list[j]);
      var a := list[j].average;
      if list[j] != list[i] {
        assert a != list[i].Display();
        assert a.Snapshot() == old(a.Snapshot());
      } else {
        assert a.Snapshot() == old(a.Snapshot()).Record(a.weatherData.Reading());
      }
    }
  }

  /** The loop of notifyListeners: each subscriber in turn, in list order. */
  method NotifyEach(list: seq<Subscriber>, ghost start: map<AverageWeatherDisplay, History>)
    requires Notified(list, 0, start)
    modifies set j | 0 <= j < |list| :: list[j].Display()
    ensures Notified(list, |list|, start)
  {
    for i := 0 to |list|
      invariant Notified(list, i, start)
    {
      NotifyAt(list, i, start);
    }
  }

  /** The demo's own sequence of calls, with what each step leaves. */
  method ObserverScenario()
  {
    var weatherData := new WeatherData();
    var currentDisplay := new CurrentWeatherDisplay(weatherData);
    var averageDisplay := new AverageWeatherDisplay(weatherData);
    var current, average := Current(currentDisplay), Average(averageDisplay);

    weatherData.AddSubscriber(current);
    weatherData.AddSubscriber(average);
    assert weatherData.subscriberList == [current, average];
    assert Count([current, average], average) == 1 by {
      assert [current, average][..1] == [current];
      assert [current][..0] == [];
      assert Count([current], average) == 0;
    }

    weatherData.SetWeather(30, 90, 1090);
    assert averageDisplay.Snapshot() == History([30], [90], [1090], 1) by {
      assert weatherData.subscriberList[1] == average;
    }
    weatherData.SetWeather(24, 70, 700);
    assert currentDisplay.currentTemp == Some(24) by {
      assert weatherData.subscriberList[0] == current;
    }
    assert averageDisplay.Snapshot() == History([30, 24], [90, 70], [1090, 700], 2) by {
      assert weatherData.subscriberList[1] == average;
    }
    ObserverScenarioRest(weatherData, currentDisplay, averageDisplay);
  }

  /** The second half of the demo: the current display unsubscribes for one
      update and then subscribes again. */
  method ObserverScenarioRest(weatherData: WeatherData, currentDisplay: CurrentWeatherDisplay,
                              averageDisplay: AverageWeatherDisplay)
    requires currentDisplay.weatherData == weatherData && averageDisplay.weatherData == weatherData
    requires weatherData.subscriberList == [Current(currentDisplay), Average(averageDisplay)]
    requires currentDisplay.currentTemp == Some(24)
    requires averageDisplay.Snapshot() == History([30, 24], [90, 70], [1090, 700], 2)
    modifies weatherData, currentDisplay, averageDisplay
  {
    var current, average := Current(currentDisplay), Average(averageDisplay);
    assert IndexOf([current, average], current) == 0;
    weatherData.RemoveSubscriber(current);
    assert weatherData.subscriberList == [current, average][1..] == [average];
    assert currentDisplay !in weatherData.Displays();
    assert Count([average], average) == 1 by {
      assert [average][..0] == [];
    }
    weatherData.SetWeather(16, 42, 900);
    assert currentDisplay.currentTemp == Some(24);
    assert averageDisplay.Snapshot() == History([30, 24, 16], [90, 70, 42], [1090, 700, 900], 3) by {
      assert weatherData.subscriberList[0] == average;
    }

    weatherData.AddSubscriber(current);
    assert weatherData.subscriberList == [average, current];
    assert Count([average, current], average) == 1 by {
      assert [average, current][..1] == [average];
      assert [average][..0] == [];
      assert Count([average], average) == 1;
    }
    weatherData.SetWeather(10, 67, 1230);
    assert currentDisplay.currentTemp == Some(10) && currentDisplay.currentPressure == Some(1230) by {
      assert weatherData.subscriberList[1] == current;
    }
    assert averageDisplay.tempHistory == [30, 24, 16, 10] by {
      assert weatherData.subscriberList[0] == average;
    }
  }
}
