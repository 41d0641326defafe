/** The decorator demo: a Desktop leaf wrapped by zero or more decorator
    layers, each adding its own price and a description fragment. Every field
    is set once by a constructor, so a component is modelled as an immutable
    value; prices are whole numbers. */
module Decorator {

  /** A desktop product: a bare Desktop, or a decorator layer around another
      component (its `baseComponent`). */
  datatype Component =
    | Desktop(itemName: string, price: int)
    | Decorated(itemName: string, price: int, baseComponent: Component)

  /** One layer of a chain, leaf or decorator, without what it wraps. */
  datatype Layer = Layer(itemName: string, price: int)

  // ---------------------------------------------------------------------
  // Formatting a price inside a template literal

  function DigitChar(d: nat): char
    requires d < 10
  {
    (d + '0' as int) as char
  }

  predicate IsDigit(c: char) {
    '0' <= c <= '9'
  }

  /** Decimal text of a natural number, most significant digit first. */
  function NatToString(n: nat): (s: string)
    ensures |s| >= 1
    ensures forall i :: 0 <= i < |s| ==> IsDigit(s[i])
    ensures |s| > 1 ==> s[0] != '0'
    decreases n
  {
    if n < 10 then [DigitChar(n)] else NatToString(n / 10) + [DigitChar(n % 10)]
  }

  /** How `${price}` renders a whole number: its decimal digits, after a
      minus sign when it is negative. */
  function NumberToString(x: int): string {
    (if x < 0 then "-" else "") + NatToString(if x < 0 then -x else x)
  }

  /** Reads back a string of decimal digits. */
  function ParseNat(s: string): int {
    if s == [] then 0 else ParseNat(s[..|s| - 1]) * 10 + (s[|s| - 1] as int - '0' as int)
  }

  /** Reads back an optionally signed string of decimal digits. */
  function ParseNumber(s: string): int {
    if |s| > 0 && s[0] == '-' then -ParseNat(s[1..]) else ParseNat(s)
  }

  lemma {:induction false} ParseNatToString(n: nat)
    ensures ParseNat(NatToString(n)) == n
    decreases n
  {
    if n >= 10 {
      ParseNatToString(n / 10);
      var s := NatToString(n);
      assert s[..|s| - 1] == NatToString(n / 10);
    }
  }

  /** The rendered price reads back as the price itself, so a fragment never
      loses or alters its price. */
  lemma ParseNumberToString(x: int)
    ensures ParseNumber(NumberToString(x)) == x
  {
    if x < 0 {
      ParseNatToString(-x);
      assert NumberToString(x) == "-" + NatToString(-x);
      assert NumberToString(x)[1..] == NatToString(-x);
    } else {
      ParseNatToString(x);
      assert NumberToString(x) == NatToString(x);
      assert NatToString(x)[0] != '-';
    }
  }

  // ---------------------------------------------------------------------
  // The component operations

  /** One `name($price)` fragment. */
  function Fragment(itemName: string, price: int): string {
    itemName + "($" + NumberToString(price) + ")"
  }

  /** getPrice: a Desktop returns its own price; a decorator adds its own
      price to the price of what it wraps. */
  function GetPrice(c: Component): int {
    match c
    case Desktop(_, price) => price
    case Decorated(_, price, baseComponent) => GetPrice(baseComponent) + price
  }

  /** getDescription: a Desktop gives its own fragment; a decorator appends
      ", " and its own fragment to the description of what it wraps. */
  function GetDescription(c: Component): string {
    match c
    case Desktop(itemName, price) => Fragment(itemName, price)
    case Decorated(itemName, price, baseComponent) =>
      GetDescription(baseComponent) + ", " + Fragment(itemName, price)
  }

  /** The number of decorator layers around the Desktop. */
  function DecoratorCount(c: Component): nat {
    match c
    case Desktop(_, _) => 0
    case Decorated(_, _, baseComponent) => DecoratorCount(baseComponent) + 1
  }

  /** The Desktop at the bottom of a chain. */
  function Leaf(c: Component): (l: Layer) {
    match c
    case Desktop(itemName, price) => Layer(itemName, price)
    case Decorated(_, _, baseComponent) => Leaf(baseComponent)
  }

  // ---------------------------------------------------------------------
  // A chain seen as its list of layers

  /** The layers of a chain, the Desktop first and the outermost decorator last. */
  function Layers(c: Component): (ls: seq<Layer>)
    ensures |ls| == DecoratorCount(c) + 1
    ensures ls[0] == Leaf(c)
  {
    match c
    case Desktop(itemName, price) => [Layer(itemName, price)]
    case Decorated(itemName, price, baseComponent) => Layers(baseComponent) + [Layer(itemName, price)]
  }

  /** Builds a chain bottom-up from its layers: the first is the Desktop, each
      later one wraps the chain built so far. */
  function Build(ls: seq<Layer>): Component
    requires |ls| >= 1
  {
    if |ls| == 1 then Desktop(ls[0].itemName, ls[0].price)
    else
      var top := ls[|ls| - 1];
      Decorated(top.itemName, top.price, Build(ls[..|ls| - 1]))
  }

  lemma {:induction false} BuildLayers(c: Component)
    ensures Build(Layers(c)) == c
  {
    match c
    case Desktop(_, _) =>
    case Decorated(itemName, price, baseComponent) =>
      BuildLayers(baseComponent);
      assert Layers(c)[..|Layers(c)| - 1] == Layers(baseComponent);
  }

  lemma {:induction false} LayersBuild(ls: seq<Layer>)
    requires |ls| >= 1
    ensures Layers(Build(ls)) == ls
  {
    if |ls| > 1 {
      LayersBuild(ls[..|ls| - 1]);
    }
  }

  /** Applies decorators in order: the first element of `decorators` wraps
      `c`, the next wraps that, and so on. */
  function Wrap(c: Component, decorators: seq<Layer>): Component
    decreases |decorators|
  {
    if decorators == [] then c
    else Wrap(Decorated(decorators[0].itemName, decorators[0].price, c), decorators[1..])
  }

  lemma {:induction false} WrapLayers(c: Component, decorators: seq<Layer>)
    ensures Layers(Wrap(c, decorators)) == Layers(c) + decorators
    decreases |decorators|
  {
    if decorators != [] {
      var d := decorators[0];
      WrapLayers(Decorated(d.itemName, d.price, c), decorators[1..]);
      assert [d] + decorators[1..] == decorators;
    }
  }

  // ---------------------------------------------------------------------
  // Price

  /** Sum of the prices of a list of layers. */
  function Sum(ls: seq<Layer>): int {
    if ls == [] then 0 else ls[0].price + Sum(ls[1..])
  }

  lemma {:induction false} SumConcat(a: seq<Layer>, b: seq<Layer>)
    ensures Sum(a + b) == Sum(a) + Sum(b)
    decreases |a|
  {
    if a == [] {
      assert a + b == b;
    } else {
      SumConcat(a[1..], b);
      assert (a + b)[1..] == a[1..] + b;
    }
  }

  /** The total of any chain is the sum of the prices of all its layers. */
  lemma {:induction false} PriceIsSumOfLayers(c: Component)
    ensures GetPrice(c) == Sum(Layers(c))
  {
    match c
    case Desktop(_, _) =>
    case Decorated(itemName, price, baseComponent) =>
      PriceIsSumOfLayers(baseComponent);
      SumConcat(Layers(baseComponent), [Layer(itemName, price)]);
  }

  /** The total is the Desktop's price plus the prices of all decorators;
      with no decorator it is the Desktop's own price. */
  lemma ChainTotal(c: Component)
    ensures GetPrice(c) == Leaf(c).price + Sum(Layers(c)[1..])
    ensures DecoratorCount(c) == 0 ==> GetPrice(c) == c.price
  {
    PriceIsSumOfLayers(c);
  }

  /** Wrapping `c` in `decorators` adds exactly their prices to its total. */
  lemma {:induction false} WrapPrice(c: Component, decorators: seq<Layer>)
    ensures GetPrice(Wrap(c, decorators)) == GetPrice(c) + Sum(decorators)
    decreases |decorators|
  {
    if decorators != [] {
      var d := decorators[0];
      WrapPrice(Decorated(d.itemName, d.price, c), decorators[1..]);
    }
  }

  /** Taking one layer out of a list takes its price out of the sum. */
  lemma SumRemoveAt(b: seq<Layer>, i: nat)
    requires i < |b|
    ensures Sum(b) == b[i].price + Sum(b[..i] + b[i + 1..])
  {
    assert b == b[..i] + ([b[i]] + b[i + 1..]);
    SumConcat(b[..i], [b[i]] + b[i + 1..]);
    SumConcat(b[..i], b[i + 1..]);
    assert ([b[i]] + b[i + 1..])[1..] == b[i + 1..];
  }

  /** Taking the same layer out of two permutations of each other leaves two
      permutations of each other. */
  lemma RemoveMatching(a: seq<Layer>, b: seq<Layer>, i: nat)
    requires multiset(a) == multiset(b)
    requires a != [] && i < |b| && b[i] == a[0]
    ensures multiset(a[1..]) == multiset(b[..i] + b[i + 1..])
  {
    var rest := b[..i] + b[i + 1..];
    assert a == [a[0]] + a[1..];
    assert b == b[..i] + [b[i]] + b[i + 1..];
    assert multiset(a) == multiset{a[0]} + multiset(a[1..]);
    assert multiset(b) == multiset(b[..i]) + multiset{b[i]} + multiset(b[i + 1..]);
    assert multiset(rest) == multiset(b[..i]) + multiset(b[i + 1..]);
    forall x ensures multiset(a[1..])[x] == multiset(rest)[x] {
      assert multiset(a)[x] == multiset(b)[x];
    }
  }

  /** Reordering layers does not change the sum of their prices. */
  lemma {:induction false} SumPermutation(a: seq<Layer>, b: seq<Layer>)
    requires multiset(a) == multiset(b)
    ensures Sum(a) == Sum(b)
    decreases |a|
  {
    if a == [] {
      assert |b| == |multiset(b)| == 0;
    } else {
      assert a[0] in multiset(b);
      var i :| 0 <= i < |b| && b[i] == a[0];
      SumRemoveAt(b, i);
      RemoveMatching(a, b, i);
      SumPermutation(a[1..], b[..i] + b[i + 1..]);
    }
  }

  /** The total does not depend on the order in which decorators are applied. */
  lemma PriceIgnoresOrder(c: Component, decorators: seq<Layer>, reordered: seq<Layer>)
    requires multiset(decorators) == multiset(reordered)
    ensures GetPrice(Wrap(c, decorators)) == GetPrice(Wrap(c, reordered))
  {
    WrapPrice(c, decorators);
    WrapPrice(c, reordered);
    SumPermutation(decorators, reordered);
  }

  // ---------------------------------------------------------------------
  // Description

  /** Joins fragments with ", " between neighbours. */
  function Join(fragments: seq<string>): string
    requires |fragments| >= 1
  {
    if |fragments| == 1 then fragments[0] else fragments[0] + ", " + Join(fragments[1..])
  }

  /** The fragments of a list of layers, in the same order. */
  function Fragments(ls: seq<Layer>): (fs: seq<string>)
    ensures |fs| == |ls|
  {
    seq(|ls|, i requires 0 <= i < |ls| => Fragment(ls[i].itemName, ls[i].price))
  }

  lemma {:induction false} JoinAppend(fragments: seq<string>, last: string)
    requires |fragments| >= 1
    ensures Join(fragments + [last]) == Join(fragments) + ", " + last
    decreases |fragments|
  {
    if |fragments| > 1 {
      JoinAppend(fragments[1..], last);
      assert (fragments + [last])[1..] == fragments[1..] + [last];
    }
  }

  /** The description is the fragments of all layers, Desktop first, joined
      with ", ": a chain with n decorators has n + 1 fragments. */
  lemma {:induction false} DescriptionIsJoin(c: Component)
    ensures GetDescription(c) == Join(Fragments(Layers(c)))
    ensures |Fragments(Layers(c))| == DecoratorCount(c) + 1
  {
    match c
    case Desktop(_, _) =>
    case Decorated(itemName, price, baseComponent) =>
      DescriptionIsJoin(baseComponent);
      var inner := Fragments(Layers(baseComponent));
      JoinAppend(inner, Fragment(itemName, price));
      assert Fragments(Layers(c)) == inner + [Fragment(itemName, price)];
  }

  /** The description begins with the Desktop's fragment and, for a
      decorator, ends with ", " and the outermost decorator's fragment. */
  lemma {:induction false} DescriptionEnds(c: Component)
    ensures Fragment(Leaf(c).itemName, Leaf(c).price) <= GetDescription(c)
    ensures c.Decorated? ==>
      var last := ", " + Fragment(c.itemName, c.price);
      |last| <= |GetDescription(c)| &&
      GetDescription(c)[|GetDescription(c)| - |last|..] == last
  {
    match c
    case Desktop(_, _) =>
    case Decorated(itemName, price, baseComponent) =>
      DescriptionEnds(baseComponent);
      var d := GetDescription(c);
      var last := ", " + Fragment(itemName, price);
      assert d == GetDescription(baseComponent) + last;
      assert d[|d| - |last|..] == last;
  }

  /** The text that wrapping in `decorators` appends. */
  function Suffix(decorators: seq<Layer>): string {
    if decorators == [] then ""
    else ", " + Fragment(decorators[0].itemName, decorators[0].price) + Suffix(decorators[1..])
  }

  /** Wrapping `c` appends one ", name($price)" per decorator, in order. */
  lemma {:induction false} WrapDescription(c: Component, decorators: seq<Layer>)
    ensures GetDescription(Wrap(c, decorators)) == GetDescription(c) + Suffix(decorators)
    decreases |decorators|
  {
    if decorators == [] {
      assert GetDescription(c) + "" == GetDescription(c);
    } else {
      var d := decorators[0];
      var inner := Decorated(d.itemName, d.price, c);
      WrapDescription(inner, decorators[1..]);
      var desc, frag, rest := GetDescription(c), Fragment(d.itemName, d.price), Suffix(decorators[1..]);
      calc {
        GetDescription(Wrap(c, decorators));
        GetDescription(Wrap(inner, decorators[1..]));
        GetDescription(inner) + rest;
        desc + ", " + frag + rest;
        { assert desc + ", " + frag + rest == desc + (", " + frag + rest); }
        desc + (", " + frag + rest);
        desc + Suffix(decorators);
      }
    }
  }

  /** The description does depend on the order: two decorators whose names
      start differently give different descriptions when swapped, although
      the total is the same. */
  lemma DescriptionDependsOnOrder(c: Component, x: Layer, y: Layer)
    requires |x.itemName| > 0 && |y.itemName| > 0 && x.itemName[0] != y.itemName[0]
    ensures GetPrice(Wrap(c, [x, y])) == GetPrice(Wrap(c, [y, x]))
    ensures GetDescription(Wrap(c, [x, y])) != GetDescription(Wrap(c, [y, x]))
  {
    PriceIgnoresOrder(c, [x, y], [y, x]);
    WrapDescription(c, [x, y]);
    WrapDescription(c, [y, x]);
    var base := GetDescription(c);
    var k := |base| + 2;
    assert GetDescription(Wrap(c, [x, y]))[k] == x.itemName[0];
    assert GetDescription(Wrap(c, [y, x]))[k] == y.itemName[0];
  }

  /** Number of occurrences of `ch` in `s`. */
  function CountChar(s: string, ch: char): nat {
    if s == [] then 0 else (if s[0] == ch then 1 else 0) + CountChar(s[1..], ch)
  }

  lemma {:induction false} CountCharConcat(a: string, b: string, ch: char)
    ensures CountChar(a + b, ch) == CountChar(a, ch) + CountChar(b, ch)
    decreases |a|
  {
    if a == [] {
      assert a + b == b;
    } else {
      CountCharConcat(a[1..], b, ch);
      assert (a + b)[1..] == a[1..] + b;
    }
  }

  lemma {:induction false} CountCharAbsent(s: string, ch: char)
    requires forall i :: 0 <= i < |s| ==> s[i] != ch
    ensures CountChar(s, ch) == 0
    decreases |s|
  {
    if s != [] {
      CountCharAbsent(s[1..], ch);
    }
  }

  /** No layer name contains a comma. */
  predicate CommaFreeNames(c: Component) {
    (forall i :: 0 <= i < |c.itemName| ==> c.itemName[i] != ',') &&
    (c.Decorated? ==> CommaFreeNames(c.baseComponent))
  }

  lemma FragmentCommaFree(itemName: string, price: int)
    requires forall i :: 0 <= i < |itemName| ==> itemName[i] != ','
    ensures CountChar(Fragment(itemName, price), ',') == 0
  {
    var s := Fragment(itemName, price);
    forall i | 0 <= i < |s| ensures s[i] != ',' {
      if |itemName| + 2 <= i < |s| - 1 {
        var digits := NumberToString(price);
        assert s[i] == digits[i - |itemName| - 2];
        if price < 0 && i == |itemName| + 2 {
          assert s[i] == '-';
        } else if price < 0 {
          assert s[i] == NatToString(-price)[i - |itemName| - 3];
        } else {
          assert s[i] == NatToString(price)[i - |itemName| - 2];
        }
      }
    }
    CountCharAbsent(s, ',');
  }

  /** When no name contains a comma, the description holds exactly one comma
      per decorator: its n + 1 fragments are told apart by the ", " between them. */
  lemma {:induction false} CommaCount(c: Component)
    requires CommaFreeNames(c)
    ensures CountChar(GetDescription(c), ',') == DecoratorCount(c)
  {
    match c
    case Desktop(itemName, price) =>
      FragmentCommaFree(itemName, price);
    case Decorated(itemName, price, baseComponent) =>
      CommaCount(baseComponent);
      FragmentCommaFree(itemName, price);
      var inner, frag := GetDescription(baseComponent), Fragment(itemName, price);
      CountCharConcat(inner + ", ", frag, ',');
      CountCharConcat(inner, ", ", ',');
      assert CountChar(", ", ',') == 1 by {
        assert ", "[1..] == " ";
        assert " "[1..] == "";
      }
  }

  // ---------------------------------------------------------------------
  // The concrete decorators and the sample chains

  /** WithKeyboard: wraps `baseComponent`, by default as "Keyboard" at 20. */
  function WithKeyboard(baseComponent: Component, itemName: string := "Keyboard", price: int := 20): (c: Component)
    ensures Layers(c) == Layers(baseComponent) + [Layer(itemName, price)]
    ensures GetPrice(c) == GetPrice(baseComponent) + price
  {
    Decorated(itemName, price, baseComponent)
  }

  /** WithMouse: wraps `baseComponent`, by default as "Mouse" at 10. */
  function WithMouse(baseComponent: Component, itemName: string := "Mouse", price: int := 10): (c: Component)
    ensures Layers(c) == Layers(baseComponent) + [Layer(itemName, price)]
    ensures GetPrice(c) == GetPrice(baseComponent) + price
  {
    Decorated(itemName, price, baseComponent)
  }

  /** WithMonitor: wraps `baseComponent`, by default as "LCD Monitor" at 35. */
  function WithMonitor(baseComponent: Component, itemName: string := "LCD Monitor", price: int := 35): (c: Component)
    ensures Layers(c) == Layers(baseComponent) + [Layer(itemName, price)]
    ensures GetPrice(c) == GetPrice(baseComponent) + price
  {
    Decorated(itemName, price, baseComponent)
  }

  const SimpleDesktop: Component := Desktop("Intel Pentium", 100)
  const DesktopKeyboard: Component := WithKeyboard(SimpleDesktop)
  const DesktopKeyboardMouse: Component := WithMouse(DesktopKeyboard)
  const DesktopMonitor: Component := WithMonitor(SimpleDesktop)
  const DesktopKeyboardMouseMonitor: Component := WithMonitor(DesktopKeyboardMouse)

  /** The default decorator prices add 20, 10 and 35 to whatever they wrap. */
  lemma DefaultPrices(c: Component)
    ensures GetPrice(WithKeyboard(c)) == GetPrice(c) + 20
    ensures GetPrice(WithMouse(c)) == GetPrice(c) + 10
    ensures GetPrice(WithMonitor(c)) == GetPrice(c) + 35
  {
  }

  /** The five sample chains total 100, 120, 130, 135 and 165. */
  lemma SampleTotals()
    ensures GetPrice(SimpleDesktop) == 100
    ensures GetPrice(DesktopKeyboard) == 120
    ensures GetPrice(DesktopKeyboardMouse) == 130
    ensures GetPrice(DesktopMonitor) == 135
    ensures GetPrice(DesktopKeyboardMouseMonitor) == 165
  {
  }

  /** The shared Desktop is left as it was by both chains built on it. */
  lemma SharedDesktopUnchanged()
    ensures DesktopKeyboard.baseComponent == SimpleDesktop
    ensures DesktopMonitor.baseComponent == SimpleDesktop
    ensures GetPrice(SimpleDesktop) == 100
    ensures GetDescription(SimpleDesktop) == "Intel Pentium($100)"
  {
  }

  /** The sample layers render as "Intel Pentium($100)", "Keyboard($20)",
      "Mouse($10)" and "LCD Monitor($35)". */
  lemma SampleFragments()
    ensures Fragment("Intel Pentium", 100) == "Intel Pentium($100)"
    ensures Fragment("Keyboard", 20) == "Keyboard($20)"
    ensures Fragment("Mouse", 10) == "Mouse($10)"
    ensures Fragment("LCD Monitor", 35) == "LCD Monitor($35)"
  {
    assert NatToString(10) == "10";
    assert NatToString(100) == "100";
  }

  /** The demo's printed descriptions of the keyboard-mouse chain, and of the
      same chain with a monitor on top. */
  lemma SampleDescriptions()
    ensures GetDescription(DesktopKeyboardMouse) == "Intel Pentium($100), Keyboard($20), Mouse($10)"
    ensures GetDescription(DesktopKeyboardMouseMonitor) == "Intel Pentium($100), Keyboard($20), Mouse($10), LCD Monitor($35)"
  {
    SampleFragments();
    assert GetDescription(DesktopKeyboard) == "Intel Pentium($100), Keyboard($20)";
    assert GetDescription(DesktopKeyboardMouse) == "Intel Pentium($100), Keyboard($20), Mouse($10)";
  }
}
