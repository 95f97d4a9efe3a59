/** The streaming passes against the buffered definition, for every serde tree: the
    output is the standard's tuple layout of its components, with dynamic components
    recognised by value. */
module Refinement {
  import opened Bytes
  import opened SolidityAbi
  import opened Passes

  // ----- Any serde tree -----

  /** Buffered encoding of a serde tree, laid out as the standard demands but
      with dynamic components recognised by value. */
  function Buffered(v: Value): bytes {
    match v
    case UInt(w, n) => AlignRight(ToBe(n, w), 0)
    case SInt(w, i) => SignedSlot(w, i)
    case Blob(b) => PadRight(b)
    case Str(b) => Be32(|b|) + PadRight(b)
    case Seq(es) => Be32(|es|) + Layout(ValueParts(es))
    case Tuple(es) => Layout(ValueParts(es))
    case _ => []
  }

  function ValueParts(vs: seq<Value>): (ps: seq<Part>)
    ensures |ps| == |vs|
    ensures forall k :: 0 <= k < |vs| ==> ps[k] == Part(IsDyn(vs[k]), Buffered(vs[k]))
  {
    if vs == [] then [] else [Part(IsDyn(vs[0]), Buffered(vs[0]))] + ValueParts(vs[1..])
  }

  /** The head of a tree that is not dynamic is the same for every offset: the
      sentinel handed to static elements is never looked at. */
  lemma {:induction false} SentinelUnobserved(v: Value, a: int, b: int)
    requires !IsDyn(v)
    ensures HeadOut(v, a) == HeadOut(v, b) && TailOut(v) == [] && TailSize(v) == 0
  {
    if v.Tuple? {
      SentinelUnobservedAll(v.elems, a, b);
    }
  }

  lemma {:induction false} SentinelUnobservedAll(vs: seq<Value>, a: int, b: int)
    requires !AnyDyn(vs)
    ensures HeadsOut(vs, a, 0) == HeadsOut(vs, b, 0) && TailsOut(vs) == [] && TailSizes(vs) == 0
  {
    if vs != [] {
      SentinelUnobserved(vs[0], a, b);
      SentinelUnobservedAll(vs[1..], a, b);
    }
  }

  /** The two size passes predict what the two writing passes emit. */
  lemma {:induction false} SizesExact(v: Value, offset: int)
    requires InRange(v)
    ensures |HeadOut(v, offset)| == HeadSize(v)
    ensures |TailOut(v)| == TailSize(v)
    decreases v, 1
  {
    match v
    case Seq(es) => SizesExactAll(v, es, offset, SLOT_SIZE);
    case Tuple(es) => SizesExactAll(v, es, offset, 0);
    case _ =>
  }

  lemma {:induction false} SizesExactAll(v: Value, vs: seq<Value>, offset: int, reduction: nat)
    requires forall k :: 0 <= k < |vs| ==> vs[k] < v && InRange(vs[k])
    ensures |HeadsOut(vs, offset, reduction)| == HeadSizes(vs)
    ensures |TailsOut(vs)| == TailSizes(vs)
    decreases v, 0, vs
  {
    if vs != [] {
      SizesExact(vs[0], USIZE_MAX);
      SizesExact(vs[0], HeadSize(vs[0]));
      if !IsDyn(vs[0]) {
        SentinelUnobserved(vs[0], 0, 0);
      }
      SizesExactAll(v, vs[1..], if IsDyn(vs[0]) then offset + HeadSize(vs[0]) + TailSize(vs[0]) else offset, reduction);
    }
  }

  /** A tuple component as the standard sees it and as the passes treat it. */
  ghost predicate Matches(e: Value, p: Part) {
    && p.dynamic == IsDyn(e)
    && |p.enc| == HeadSize(e) + TailSize(e)
    && (if IsDyn(e) then p.enc == HeadOut(e, HeadSize(e)) + TailOut(e)
        else p.enc == HeadOut(e, USIZE_MAX) && TailSize(e) == 0)
  }

  ghost predicate MatchesAll(vs: seq<Value>, ps: seq<Part>) {
    |vs| == |ps| && forall k :: 0 <= k < |vs| ==> Matches(vs[k], ps[k])
  }

  lemma {:induction false} ListSizes(vs: seq<Value>, ps: seq<Part>)
    requires MatchesAll(vs, ps)
    ensures HeadSizes(vs) == HeadsLen(ps) && TailSizes(vs) == TailsLen(ps) && TailsOut(vs) == Tails(ps)
  {
    if vs != [] {
      ListSizes(vs[1..], ps[1..]);
      assert Matches(vs[0], ps[0]);
    }
  }

  /** The head pass seen from the standard's side: a running offset over parts. */
  function RunningHeads(ps: seq<Part>, offset: int): bytes {
    if ps == [] then []
    else if ps[0].dynamic then Be32(offset) + RunningHeads(ps[1..], offset + |ps[0].enc|)
    else ps[0].enc + RunningHeads(ps[1..], offset)
  }

  lemma {:induction false} HeadPassRuns(vs: seq<Value>, ps: seq<Part>, offset: int, reduction: nat)
    requires MatchesAll(vs, ps)
    ensures HeadsOut(vs, offset, reduction) == RunningHeads(ps, offset - reduction)
  {
    if vs != [] {
      assert Matches(vs[0], ps[0]);
      HeadPassRuns(vs[1..], ps[1..], if IsDyn(vs[0]) then offset + HeadSize(vs[0]) + TailSize(vs[0]) else offset, reduction);
    }
  }

  /** The running offset is the standard's offset. */
  lemma {:induction false} RunningOffset(ps: seq<Part>, k: nat, offset: int)
    requires k <= |ps| && offset == HeadsLen(ps) + TailsLen(ps[..k])
    ensures RunningHeads(ps[k..], offset) == HeadsFrom(ps, k)
    decreases |ps| - k
  {
    if k < |ps| {
      TailsLenStep(ps, k);
      RunningOffset(ps, k + 1, offset + TailLen(ps[k]));
      RunningStep(ps, k, offset);
    }
  }

  lemma {:induction false} RunningStep(ps: seq<Part>, k: nat, offset: int)
    requires k < |ps|
    ensures RunningHeads(ps[k..], offset)
         == (if ps[k].dynamic then Be32(offset) else ps[k].enc) + RunningHeads(ps[k + 1..], offset + TailLen(ps[k]))
  {
    assert ps[k..][0] == ps[k] && ps[k..][1..] == ps[k + 1..];
  }

  lemma {:induction false} TailsLenStep(ps: seq<Part>, k: nat)
    requires k < |ps|
    ensures TailsLen(ps[..k + 1]) == TailsLen(ps[..k]) + TailLen(ps[k])
  {
    assert ps[..k + 1] == ps[..k] + [ps[k]];
    LensAppend(ps[..k], [ps[k]]);
    assert TailsLen([ps[k]]) == TailLen(ps[k]) + TailsLen([]);
  }

  /** Head and tail pass together lay out a tuple as the standard does. */
  lemma {:induction false} TuplePasses(vs: seq<Value>, ps: seq<Part>, reduction: nat)
    requires MatchesAll(vs, ps)
    ensures HeadsOut(vs, reduction + HeadSizes(vs), reduction) + TailsOut(vs) == Layout(ps)
  {
    TupleHeads(vs, ps, HeadSizes(vs), reduction);
    ListSizes(vs, ps);
  }

  lemma {:induction false} TupleHeads(vs: seq<Value>, ps: seq<Part>, size: nat, reduction: nat)
    requires MatchesAll(vs, ps) && size == HeadSizes(vs)
    ensures HeadsOut(vs, reduction + size, reduction) == HeadsFrom(ps, 0)
  {
    ListSizes(vs, ps);
    HeadPassRuns(vs, ps, reduction + size, reduction);
    RunningFromStart(ps, size);
  }

  lemma {:induction false} RunningFromStart(ps: seq<Part>, size: nat)
    requires size == HeadsLen(ps)
    ensures RunningHeads(ps, size) == HeadsFrom(ps, 0)
  {
    assert ps[0..] == ps && TailsLen(ps[..0]) == 0;
    RunningOffset(ps, 0, size);
  }

  /** One value: head, started with the value's own head size, followed by tail. */
  lemma {:induction false} PassesMatchBuffered(v: Value)
    requires InRange(v)
    ensures HeadOut(v, HeadSize(v)) + TailOut(v) == Buffered(v)
    decreases v, 2
  {
    match v
    case Seq(es) => SeqMatches(v, es);
    case Tuple(es) => TupleMatches(v, es);
    case _ =>
  }

  lemma {:induction false} SeqMatches(v: Value, es: seq<Value>)
    requires v == Seq(es) && InRange(v)
    ensures HeadOut(v, HeadSize(v)) + TailOut(v) == Buffered(v)
    decreases v, 1
  {
    LaidOut(v, es, SLOT_SIZE);
    SeqPasses(es);
  }

  lemma {:induction false} TupleMatches(v: Value, es: seq<Value>)
    requires v == Tuple(es) && InRange(v)
    ensures HeadOut(v, HeadSize(v)) + TailOut(v) == Buffered(v)
    decreases v, 1
  {
    LaidOut(v, es, 0);
    TupleJoined(es);
  }

  lemma {:induction false} TupleJoined(es: seq<Value>)
    requires HeadsOut(es, 0 + HeadSizes(es), 0) + TailsOut(es) == Layout(ValueParts(es))
    ensures HeadOut(Tuple(es), HeadSize(Tuple(es))) + TailOut(Tuple(es)) == Buffered(Tuple(es))
  {
    TupleUnfolds(es);
  }

  lemma {:induction false} TupleUnfolds(es: seq<Value>)
    ensures HeadOut(Tuple(es), HeadSize(Tuple(es))) == HeadsOut(es, 0 + HeadSizes(es), 0)
    ensures TailOut(Tuple(es)) == TailsOut(es) && Buffered(Tuple(es)) == Layout(ValueParts(es))
  {
  }

  lemma {:induction false} LaidOut(v: Value, es: seq<Value>, reduction: nat)
    requires forall k :: 0 <= k < |es| ==> es[k] < v && InRange(es[k])
    ensures HeadsOut(es, reduction + HeadSizes(es), reduction) + TailsOut(es) == Layout(ValueParts(es))
    decreases v, 0, 1
  {
    ElementsMatch(v, es);
    TuplePasses(es, ValueParts(es), reduction);
  }

  lemma {:induction false} ElementsMatch(v: Value, es: seq<Value>)
    requires forall k :: 0 <= k < |es| ==> es[k] < v && InRange(es[k])
    ensures MatchesAll(es, ValueParts(es))
    decreases v, 0, 0
  {
    forall k | 0 <= k < |es|
      ensures Matches(es[k], ValueParts(es)[k])
    {
      PassesMatchBuffered(es[k]);
      BufferedMatches(es[k]);
    }
  }

  /** The length slot of a sequence comes first in both forms. */
  lemma {:induction false} SeqPasses(es: seq<Value>)
    requires HeadsOut(es, SLOT_SIZE + HeadSizes(es), SLOT_SIZE) + TailsOut(es) == Layout(ValueParts(es))
    ensures HeadOut(Seq(es), HeadSize(Seq(es))) + TailOut(Seq(es)) == Buffered(Seq(es))
  {
    SeqHead(es);
    SeqRest(es);
    LengthFirst(Be32(|es|), HeadsOut(es, SLOT_SIZE + HeadSizes(es), SLOT_SIZE), TailsOut(es), Layout(ValueParts(es)),
                HeadOut(Seq(es), HeadSize(Seq(es))), TailOut(Seq(es)), Buffered(Seq(es)));
  }

  lemma {:induction false} SeqHead(es: seq<Value>)
    ensures HeadOut(Seq(es), HeadSize(Seq(es))) == Be32(|es|) + HeadsOut(es, SLOT_SIZE + HeadSizes(es), SLOT_SIZE)
  {
  }

  lemma {:induction false} SeqRest(es: seq<Value>)
    ensures TailOut(Seq(es)) == TailsOut(es) && Buffered(Seq(es)) == Be32(|es|) + Layout(ValueParts(es))
  {
  }

  lemma {:induction false} LengthFirst(length: bytes, heads: bytes, tails: bytes, region: bytes, headOut: bytes, tailOut: bytes, whole: bytes)
    requires heads + tails == region && headOut == length + heads && tailOut == tails && whole == length + region
    ensures headOut + tailOut == whole
  {
  }

  lemma {:induction false} BufferedMatches(e: Value)
    requires InRange(e) && HeadOut(e, HeadSize(e)) + TailOut(e) == Buffered(e)
    ensures Matches(e, Part(IsDyn(e), Buffered(e)))
  {
    SizesExact(e, HeadSize(e));
    if !IsDyn(e) {
      SentinelUnobserved(e, HeadSize(e), USIZE_MAX);
    }
  }

  /** In `region`, the slot at `slot` holds the position `target` at which `element` starts. */
  predicate PointsAt(region: bytes, slot: nat, target: nat, element: bytes) {
    && slot + SLOT_SIZE <= |region| && region[slot..][..SLOT_SIZE] == Be32(target)
    && target + |element| <= |region| && region[target..][..|element|] == element
  }

  lemma {:induction false} DynamicPosition(ps: seq<Part>, k: nat, region: bytes, slot: nat, target: nat, element: bytes)
    requires k < |ps| && ps[k].dynamic && region == Layout(ps) && element == ps[k].enc
    requires slot == HeadsLen(ps[..k]) && target == HeadsLen(ps) + TailsLen(ps[..k])
    ensures PointsAt(region, slot, target, element)
  {
    LayoutPosition(ps, k);
  }

  /** Every offset slot, at any depth, points at the place where the tail pass
      starts that element, counted from the start of the enclosing tuple; inside
      a sequence (`reduction` 32) from just after the length slot. */
  lemma {:induction false} OffsetsPointAtTails(vs: seq<Value>, k: nat, reduction: nat)
    requires k < |vs| && IsDyn(vs[k]) && InRange(Tuple(vs))
    ensures PointsAt(HeadsOut(vs, reduction + HeadSizes(vs), reduction) + TailsOut(vs),
                     HeadSizes(vs[..k]), HeadSizes(vs) + TailSizes(vs[..k]),
                     HeadOut(vs[k], HeadSize(vs[k])) + TailOut(vs[k]))
  {
    var ps := PlacedParts(vs, k, reduction);
    DynamicPosition(ps, k, HeadsOut(vs, reduction + HeadSizes(vs), reduction) + TailsOut(vs),
                    HeadSizes(vs[..k]), HeadSizes(vs) + TailSizes(vs[..k]), HeadOut(vs[k], HeadSize(vs[k])) + TailOut(vs[k]));
  }

  /** The same region and positions, in terms of the standard's parts. */
  lemma {:induction false} PlacedParts(vs: seq<Value>, k: nat, reduction: nat) returns (ps: seq<Part>)
    requires k < |vs| && IsDyn(vs[k]) && InRange(Tuple(vs))
    ensures |ps| == |vs| && HeadsOut(vs, reduction + HeadSizes(vs), reduction) + TailsOut(vs) == Layout(ps)
    ensures HeadSizes(vs[..k]) == HeadsLen(ps[..k])
    ensures HeadSizes(vs) + TailSizes(vs[..k]) == HeadsLen(ps) + TailsLen(ps[..k])
    ensures ps[k] == Part(true, HeadOut(vs[k], HeadSize(vs[k])) + TailOut(vs[k]))
  {
    ps := ValueParts(vs);
    assert forall j :: 0 <= j < |vs| ==> InRange(Tuple(vs).elems[j]);
    LaidOut(Tuple(vs), vs, reduction);
    PrefixSizes(vs, k);
    PassesMatchBuffered(vs[k]);
  }

  lemma {:induction false} PrefixSizes(vs: seq<Value>, k: nat)
    requires k <= |vs| && forall j :: 0 <= j < |vs| ==> InRange(vs[j])
    ensures var ps := ValueParts(vs);
            && HeadSizes(vs) == HeadsLen(ps)
            && HeadSizes(vs[..k]) == HeadsLen(ps[..k]) && TailSizes(vs[..k]) == TailsLen(ps[..k])
  {
    ElementsMatch(Tuple(vs), vs);
    ListSizes(vs, ValueParts(vs));
    ListSizes(vs[..k], ValueParts(vs)[..k]);
  }

  /** What `to_writer` emits, for every supported tree. */
  lemma {:induction false} StreamIsBuffered(v: Value)
    requires InRange(v)
    ensures Stream(v, false) == Buffered(v)
    ensures Stream(v, true) == Layout([Part(IsDyn(v), Buffered(v))])
    ensures |Buffered(v)| == HeadSize(v) + TailSize(v)
  {
    PassesMatchBuffered(v);
    BufferedMatches(v);
    var head, tail := HeadOut(v, HeadSize(v)), TailOut(v);
    assert !IsDyn(v) ==> tail == [] by {
      if !IsDyn(v) {
        SentinelUnobserved(v, 0, 0);
      }
    }
    StreamSplit(v, head, tail);
    SingleLayout(Part(IsDyn(v), Buffered(v)));
  }

  lemma {:induction false} StreamSplit(v: Value, head: bytes, tail: bytes)
    requires head == HeadOut(v, HeadSize(v)) && tail == TailOut(v)
    requires !IsDyn(v) ==> tail == []
    ensures Stream(v, false) == head + tail
    ensures Stream(v, true) == (if IsDyn(v) then Be32(SLOT_SIZE) else []) + (head + tail)
  {
  }

  lemma {:induction false} SingleLayout(p: Part)
    ensures Layout([p]) == (if p.dynamic then Be32(SLOT_SIZE) else []) + p.enc
  {
    var ps := [p];
    assert HeadsFrom(ps, 0) == Head(ps, 0) + HeadsFrom(ps, 1);
    assert ps[..0] == [] && ps[1..] == [];
    assert HeadsLen(ps) == HeadLen(p) + HeadsLen([]);
    assert Tails(ps) == (if p.dynamic then p.enc else []) + Tails([]);
  }
}
