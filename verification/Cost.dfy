/** How often the passes visit the nodes of a value. Sizes are never stored, so every
    pass computes them again. */
module Cost {
  import opened Passes

  datatype Kind = HeadSizing | Heading | TailSizing | Tailing

  /** Nodes visited by one pass over `v`, with the passes it starts. */
  function Visits(kind: Kind, v: Value): nat
    decreases v, 0
  {
    1 + (if v.Seq? || v.Tuple? then VisitsAll(kind, v.elems) else 0)
  }

  function VisitsAll(kind: Kind, vs: seq<Value>): nat
    decreases vs, 2
  {
    if vs == [] then 0 else ElementVisits(kind, vs[0]) + VisitsAll(kind, vs[1..])
  }

  /** One element: its size, and what the pass needs beyond that. */
  function ElementVisits(kind: Kind, e: Value): nat
    decreases e, 1
  {
    match kind
    case HeadSizing => Visits(HeadSizing, e)
    case Heading => Visits(HeadSizing, e) + (if IsDyn(e) then Visits(TailSizing, e) else Visits(Heading, e))
    case TailSizing => Visits(HeadSizing, e) + Visits(TailSizing, e)
    case Tailing => Visits(HeadSizing, e) + (if IsDyn(e) then Visits(Heading, e) + Visits(Tailing, e) else 0)
  }

  /** All passes of `to_writer`. */
  function StreamVisits(v: Value): nat {
    Visits(HeadSizing, v) + Visits(Heading, v) + (if IsDyn(v) then Visits(Tailing, v) else 0)
  }

  function Nodes(v: Value): (n: nat)
    ensures n >= 1
  {
    1 + (if v.Seq? || v.Tuple? then NodesAll(v.elems) else 0)
  }

  function NodesAll(vs: seq<Value>): nat {
    if vs == [] then 0 else Nodes(vs[0]) + NodesAll(vs[1..])
  }

  /** A leaf has depth 1. */
  function Depth(v: Value): (d: nat)
    ensures d >= 1
  {
    1 + (if v.Seq? || v.Tuple? then DepthAll(v.elems) else 0)
  }

  function DepthAll(vs: seq<Value>): nat {
    if vs == [] then 0 else
    var d, rest := Depth(vs[0]), DepthAll(vs[1..]);
    if d < rest then rest else d
  }

  /** The bound of one pass over `n` nodes of depth `d`. */
  function Bound(kind: Kind, n: nat, d: nat): nat {
    match kind
    case HeadSizing => n
    case Heading => n * d
    case TailSizing => n * d
    case Tailing => n * d * d
  }

  lemma {:induction false} VisitsBound(kind: Kind, v: Value)
    ensures Visits(kind, v) <= Bound(kind, Nodes(v), Depth(v))
    decreases v, 0
  {
    if v.Seq? || v.Tuple? {
      VisitsAllBound(kind, v.elems, DepthAll(v.elems));
      Closes(kind, NodesAll(v.elems), DepthAll(v.elems));
    }
  }

  /** What the passes over one element add up to, in a container of depth `d + 1`. */
  function ElementBound(kind: Kind, n: nat, d: nat): nat {
    match kind
    case HeadSizing => n
    case Heading => n * (1 + d)
    case TailSizing => n * (1 + d)
    case Tailing => n * (1 + d + d * d)
  }

  lemma {:induction false} Closes(kind: Kind, n: nat, d: nat)
    ensures 1 + ElementBound(kind, n, d) <= Bound(kind, 1 + n, 1 + d)
  {
    if kind.Tailing? {
      var c := 1 + d;
      assert (1 + n) * c * c == c * c + n * (c * c);
      assert c * c == 1 + d + d * d + d;
      assert n * (c * c) == n * (1 + d + d * d) + n * d;
    }
  }

  lemma {:induction false} VisitsAllBound(kind: Kind, vs: seq<Value>, d: nat)
    requires DepthAll(vs) <= d
    ensures VisitsAll(kind, vs) <= ElementBound(kind, NodesAll(vs), d)
    decreases vs, 2
  {
    if vs != [] {
      ElementVisitsBound(kind, vs[0], d);
      VisitsAllBound(kind, vs[1..], d);
      Adds(kind, Nodes(vs[0]), NodesAll(vs[1..]), d);
    }
  }

  lemma {:induction false} Adds(kind: Kind, a: nat, b: nat, d: nat)
    ensures ElementBound(kind, a, d) + ElementBound(kind, b, d) == ElementBound(kind, a + b, d)
  {
  }

  lemma {:induction false} ElementVisitsBound(kind: Kind, e: Value, d: nat)
    requires Depth(e) <= d
    ensures ElementVisits(kind, e) <= ElementBound(kind, Nodes(e), d)
    decreases e, 1
  {
    VisitsBound(HeadSizing, e);
    VisitsBound(TailSizing, e);
    VisitsBound(Heading, e);
    VisitsBound(Tailing, e);
    Deeper(kind, Nodes(e), Depth(e), d);
  }

  lemma {:induction false} Deeper(kind: Kind, n: nat, d: nat, d': nat)
    requires d <= d'
    ensures n <= ElementBound(kind, n, d')
    ensures !kind.HeadSizing? ==> n + n * d <= ElementBound(kind, n, d')
    ensures kind.Tailing? ==> n + n * d + n * d * d <= ElementBound(kind, n, d')
  {
    Monotone(n, d, d');
    Monotone(n * d, d, d');
    Monotone(d', n * d, n * d');
    Distribute(n, d');
  }

  lemma {:induction false} Monotone(a: nat, b: nat, c: nat)
    requires b <= c
    ensures a * b <= a * c
  {
  }

  lemma {:induction false} Distribute(n: nat, d: nat)
    ensures n * (1 + d + d * d) == n + n * d + n * d * d && n * (1 + d) == n + n * d
  {
  }

  /** Encoding a value of `n` nodes and depth `d` visits at most n(1 + d + d^2) nodes. */
  lemma {:induction false} StreamVisitsBound(v: Value)
    ensures StreamVisits(v) <= Nodes(v) * (1 + Depth(v) + Depth(v) * Depth(v))
  {
    var n, d := Nodes(v), Depth(v);
    VisitsBound(HeadSizing, v);
    VisitsBound(Heading, v);
    VisitsBound(Tailing, v);
    Distribute(n, d);
  }
}
