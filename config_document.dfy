/**
 * The configuration documents the config helpers read and write. A YAML
 * map node is its entries in document order; a value is a scalar or a
 * sequence of scalars. Scalars carry the type they were written with,
 * and a conversion (`as<double>`, `as<unsigned>`, `as<bool>`,
 * `as<std::string>`) that does not fit the scalar is fatal, as the YAML
 * library's conversion exception is.
 */
module ConfigDocument {
  import opened Wrappers
  import opened CutTypes

  const NotANumber: string := "scalar is not a number"
  const NotACount: string := "scalar is not an unsigned number"
  const NotAFlag: string := "scalar is not a boolean"
  const NotAString: string := "scalar is not a string"
  const NodeIsSequence: string := "node is a sequence"
  const CutNotPositive: string := "cut must be greater than zero"

  datatype Scalar = Real(r: real) | Count(n: nat) | Flag(b: bool) | Text(s: string)

  datatype Node = Value(v: Scalar) | List(items: seq<Scalar>)

  datatype Entry = Entry(key: string, node: Node)

  /** A map node: its entries in document order. */
  type Section = seq<Entry>

  /** `as<double>`: a real, or a whole number read as a real. */
  function AsReal(s: Scalar): (r: Result<real>)
    ensures r.Ok? <==> s.Real? || s.Count?
    ensures s.Real? ==> r == Ok(s.r)
    ensures s.Count? ==> r == Ok(s.n as real)
  {
    match s
    case Real(x) => Ok(x)
    case Count(n) => Ok(n as real)
    case _ => Fatal(NotANumber)
  }

  /** `as<unsigned>`: only a whole number. */
  function AsCount(s: Scalar): (r: Result<nat>)
    ensures r.Ok? <==> s.Count?
    ensures s.Count? ==> r == Ok(s.n)
  {
    if s.Count? then Ok(s.n) else Fatal(NotACount)
  }

  /** `as<bool>`: only a boolean. */
  function AsFlag(s: Scalar): (r: Result<bool>)
    ensures r.Ok? <==> s.Flag?
    ensures s.Flag? ==> r == Ok(s.b)
  {
    if s.Flag? then Ok(s.b) else Fatal(NotAFlag)
  }

  /** `as<std::string>`: only a text scalar (the text of a number is not modelled). */
  function AsText(s: Scalar): (r: Result<string>)
    ensures r.Ok? <==> s.Text?
    ensures s.Text? ==> r == Ok(s.s)
  {
    if s.Text? then Ok(s.s) else Fatal(NotAString)
  }

  /** A node converted as a scalar; a sequence node does not convert. */
  function NodeScalar(n: Node): (r: Result<Scalar>)
    ensures r.Ok? <==> n.Value?
    ensures n.Value? ==> r == Ok(n.v)
  {
    if n.Value? then Ok(n.v) else Fatal(NodeIsSequence)
  }

  /** `node.as<double>()` on a whole node. */
  function NodeReal(n: Node): (r: Result<real>)
    ensures r.Ok? <==> n.Value? && (n.v.Real? || n.v.Count?)
    ensures r.Ok? ==> r == AsReal(n.v)
  {
    if n.Value? then AsReal(n.v) else Fatal(NodeIsSequence)
  }

  /** `node.as<unsigned>()` on a whole node. */
  function NodeCount(n: Node): (r: Result<nat>)
    ensures r.Ok? <==> n.Value? && n.v.Count?
    ensures r.Ok? ==> r == Ok(n.v.n)
  {
    if n.Value? then AsCount(n.v) else Fatal(NodeIsSequence)
  }

  /** `node.as<bool>()` on a whole node. */
  function NodeFlag(n: Node): (r: Result<bool>)
    ensures r.Ok? <==> n.Value? && n.v.Flag?
    ensures r.Ok? ==> r == Ok(n.v.b)
  {
    if n.Value? then AsFlag(n.v) else Fatal(NodeIsSequence)
  }

  /** A single positive number, for the setters that demand a bound above zero. */
  function PositiveOf(n: Node): (r: Result<real>)
    ensures r.Ok? <==> NodeReal(n).Ok? && NodeReal(n).value > 0.0
    ensures r.Ok? ==> r == NodeReal(n)
  {
    var x := NodeReal(n);
    if x.Fatal? then x
    else if !(x.value > 0.0) then Fatal(CutNotPositive)
    else x
  }

  /** `size()`: the length of a sequence node, zero for a scalar. */
  function Size(n: Node): (k: nat)
    ensures n.List? ==> k == |n.items|
    ensures n.Value? ==> k == 0
  {
    if n.List? then |n.items| else 0
  }

  /** What iterating over a node visits: the items of a sequence, nothing for a scalar. */
  function Items(n: Node): (items: seq<Scalar>)
    ensures |items| == Size(n)
    ensures n.List? ==> items == n.items
  {
    if n.List? then n.items else []
  }

  /** `node[key]` on a map node: the first entry with that key, if any. */
  function Lookup(sec: Section, key: string): (r: Option<Node>)
    ensures r.None? <==> forall i :: 0 <= i < |sec| ==> sec[i].key != key
    ensures r.Some? ==> exists i :: 0 <= i < |sec| && sec[i].key == key && sec[i].node == r.value
  {
    if sec == [] then None
    else if sec[0].key == key then Some(sec[0].node)
    else
      var r := Lookup(sec[1..], key);
      assert forall i :: 0 < i < |sec| ==> sec[i] == sec[1..][i - 1];
      r
  }

  /** Looking a key up in two sections written one after the other: the first one wins. */
  lemma {:induction false} LookupAppend(a: Section, b: Section, key: string)
    ensures Lookup(a + b, key) == if Lookup(a, key).Some? then Lookup(a, key) else Lookup(b, key)
    decreases |a|
  {
    if a != [] {
      assert (a + b)[1..] == a[1..] + b;
      LookupAppend(a[1..], b, key);
    } else {
      assert a + b == b;
    }
  }

  /** The keys of a section, in order. */
  function Keys(sec: Section): (ks: seq<string>)
    ensures |ks| == |sec|
    ensures forall i :: 0 <= i < |sec| ==> ks[i] == sec[i].key
  {
    if sec == [] then [] else Keys(sec[..|sec| - 1]) + [sec[|sec| - 1].key]
  }

  /** A list that names every element of a set once: how a std::set is written out. */
  predicate Enumerates<T>(list: seq<T>, s: set<T>)
  {
    (forall i, j :: 0 <= i < j < |list| ==> list[i] != list[j]) &&
    (forall i :: 0 <= i < |list| ==> list[i] in s) && (forall x :: x in s ==> x in list)
  }

  /** Scalars for whole numbers. */
  function Counts(ns: seq<nat>): (items: seq<Scalar>)
    ensures |items| == |ns|
    ensures forall i :: 0 <= i < |ns| ==> items[i] == Count(ns[i])
  {
    if ns == [] then [] else Counts(ns[..|ns| - 1]) + [Count(ns[|ns| - 1])]
  }

  /** Scalars for texts. */
  function Texts(ss: seq<string>): (items: seq<Scalar>)
    ensures |items| == |ss|
    ensures forall i :: 0 <= i < |ss| ==> items[i] == Text(ss[i])
  {
    if ss == [] then [] else Texts(ss[..|ss| - 1]) + [Text(ss[|ss| - 1])]
  }

  // What a writer puts out for one cut: nothing while it is off, one entry once it is on.

  /** A window as a two-item sequence `[min, max]`. */
  function WindowPart(key: string, w: Window): (sec: Section)
    ensures |sec| == (if w.active then 1 else 0)
  {
    if w.active then [Entry(key, List([Real(w.min), Real(w.max)]))] else []
  }

  /** An upper bound as one number. */
  function LimitPart(key: string, l: Limit): (sec: Section)
    ensures |sec| == (if l.active then 1 else 0)
  {
    if l.active then [Entry(key, Value(Real(l.max)))] else []
  }

  /** A flag, written whatever its value. */
  function FlagPart(key: string, b: bool): (sec: Section)
    ensures |sec| == 1
  {
    [Entry(key, Value(Flag(b)))]
  }

  /** A lower bound as one number. */
  function FloorPart(key: string, f: Floor): (sec: Section)
    ensures |sec| == (if f.active then 1 else 0)
  {
    if f.active then [Entry(key, Value(Real(f.min)))] else []
  }

  /** A sequence node, written only when `present`. */
  function ListPart(key: string, present: bool, items: seq<Scalar>): (sec: Section)
    ensures |sec| == (if present then 1 else 0)
  {
    if present then [Entry(key, List(items))] else []
  }

  /**
   * Applies `step` to each element in order, stopping at the first fatal
   * result: what a loop that calls a throwing operation per element does.
   */
  function Fold<T, U>(x: T, items: seq<U>, step: (T, U) -> Result<T>): Result<T>
  {
    if items == [] then Ok(x)
    else
      var before := Fold(x, items[..|items| - 1], step);
      if before.Fatal? then before else step(before.value, items[|items| - 1])
  }

  /** One more element: the step applied to the result so far. */
  lemma FoldStep<T, U>(x: T, items: seq<U>, i: nat, step: (T, U) -> Result<T>)
    requires i < |items|
    ensures Fold(x, items[..i + 1], step) ==
      (var before := Fold(x, items[..i], step);
       if before.Fatal? then before else step(before.value, items[i]))
  {
    assert items[..i + 1][..i] == items[..i];
  }

  /** A fold over two lists is the fold over the second started from the fold over the first. */
  lemma {:induction false} FoldAppend<T, U>(x: T, a: seq<U>, b: seq<U>, step: (T, U) -> Result<T>)
    ensures Fold(x, a + b, step) ==
      (var mid := Fold(x, a, step); if mid.Fatal? then mid else Fold(mid.value, b, step))
    decreases |b|
  {
    if b == [] {
      assert a + b == a;
    } else {
      var b' := b[..|b| - 1];
      assert (a + b)[..|a + b| - 1] == a + b';
      FoldAppend(x, a, b', step);
    }
  }

  /** Once a fold has failed on a prefix, the whole list fails the same way. */
  lemma FoldFatalStays<T, U>(x: T, items: seq<U>, i: nat, step: (T, U) -> Result<T>)
    requires i <= |items| && Fold(x, items[..i], step).Fatal?
    ensures Fold(x, items, step) == Fold(x, items[..i], step)
  {
    assert items == items[..i] + items[i..];
    FoldAppend(x, items[..i], items[i..], step);
  }

  /** A fold whose every step succeeds, taking `states[k]` to `states[k + 1]`, ends in the last state. */
  lemma {:induction false} FoldThrough<T, U>(items: seq<U>, step: (T, U) -> Result<T>, states: seq<T>)
    requires |states| == |items| + 1
    requires forall k :: 0 <= k < |items| ==> step(states[k], items[k]) == Ok(states[k + 1])
    ensures Fold(states[0], items, step) == Ok(states[|items|])
    decreases |items|
  {
    if items != [] {
      var n := |items| - 1;
      FoldThrough(items[..n], step, states[..n + 1]);
    }
  }

  /** A fold over one element is one step. */
  lemma FoldSingle<T, U>(x: T, u: U, step: (T, U) -> Result<T>)
    ensures Fold(x, [u], step) == step(x, u)
  {
    assert [u][..0] == [];
  }

  /** A property every successful step keeps holds of a successful fold. */
  lemma {:induction false} FoldKeeps<T, U>(x: T, items: seq<U>, step: (T, U) -> Result<T>, inv: T -> bool)
    requires inv(x)
    requires forall y, u :: inv(y) && step(y, u).Ok? ==> inv(step(y, u).value)
    ensures Fold(x, items, step).Ok? ==> inv(Fold(x, items, step).value)
    decreases |items|
  {
    if items != [] {
      FoldKeeps(x, items[..|items| - 1], step, inv);
    }
  }

  /**
   * Writes a set out as a list, one element at a time: what iterating a
   * std::set and pushing each element onto a sequence node does. The
   * ascending order of the iteration is not modelled.
   */
  method ListSet<T>(s: set<T>) returns (list: seq<T>)
    ensures Enumerates(list, s)
  {
    list := [];
    var rest := s;
    while rest != {}
      invariant rest <= s
      invariant Enumerates(list, s - rest)
      decreases rest
    {
      var x :| x in rest;
      list := list + [x];
      rest := rest - {x};
    }
  }

  /** The elements of a list, as a set; what inserting them one by one into a std::set adds. */
  function Elements<T>(list: seq<T>): set<T>
  {
    if list == [] then {} else Elements(list[..|list| - 1]) + {list[|list| - 1]}
  }

  lemma {:induction false} ElementsMembers<T>(list: seq<T>)
    ensures forall x :: x in Elements(list) <==> x in list
    decreases |list|
  {
    if list != [] {
      var init := list[..|list| - 1];
      ElementsMembers(init);
      assert list == init + [list[|list| - 1]];
    }
  }

  /** An enumeration names exactly the elements of its set. */
  lemma EnumeratedSet<T>(list: seq<T>, s: set<T>)
    requires Enumerates(list, s)
    ensures Elements(list) == s
  {
    ElementsAreListed(list);
    ListedAreEnumerated(list, s);
  }

  lemma ElementsAreListed<T>(list: seq<T>)
    ensures Elements(list) == set x | x in list
  {
    ElementsMembers(list);
  }

  lemma ListedAreEnumerated<T>(list: seq<T>, s: set<T>)
    requires Enumerates(list, s)
    ensures (set x | x in list) == s
  {
  }

  /** One more element of a prefix. */
  lemma ElementsStep<T>(list: seq<T>, k: nat)
    requires k < |list|
    ensures Elements(list[..k + 1]) == Elements(list[..k]) + {list[k]}
  {
    assert list[..k + 1][..k] == list[..k];
  }
}
