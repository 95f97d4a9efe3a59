/** When the streamed bytes are Solidity's `abi.encode`: always, except for two
    families of values, and for those never. */
module Conformance {
  import opened Bytes
  import opened SolidityAbi
  import opened Passes
  import opened Serializer
  import opened Refinement

  /** Lengths a Rust slice can have. */
  predicate LengthsFit(s: Sol) {
    match s
    case DynBytes(b) => |b| <= USIZE_MAX
    case DynArray(es) => |es| <= USIZE_MAX && forall k :: 0 <= k < |es| ==> LengthsFit(es[k])
    case FixedArray(_, es) => forall k :: 0 <= k < |es| ==> LengthsFit(es[k])
    case Struct(fs) => forall k :: 0 <= k < |fs| ==> LengthsFit(fs[k])
    case _ => true
  }

  /** A fixed array `T[0]` of a dynamic `T`, anywhere in the value. The standard
      calls it dynamic; the serializer sees no dynamic element. */
  predicate HasEmptyDynamicArray(s: Sol) {
    match s
    case DynArray(es) => exists k :: 0 <= k < |es| && HasEmptyDynamicArray(es[k])
    case FixedArray(t, es) => (es == [] && TypeIsDynamic(t)) || exists k :: 0 <= k < |es| && HasEmptyDynamicArray(es[k])
    case Struct(fs) => exists k :: 0 <= k < |fs| && HasEmptyDynamicArray(fs[k])
    case _ => false
  }

  /** A negative `int128`, anywhere in the value. */
  predicate HasNegativeInt128(s: Sol) {
    match s
    case Int(w, i) => w == 16 && i < 0
    case DynArray(es) => exists k :: 0 <= k < |es| && HasNegativeInt128(es[k])
    case FixedArray(_, es) => exists k :: 0 <= k < |es| && HasNegativeInt128(es[k])
    case Struct(fs) => exists k :: 0 <= k < |fs| && HasNegativeInt128(fs[k])
    case _ => false
  }

  /** A Solidity value that the Rust library can hold. */
  predicate Holds(s: Sol, t: AbiType) {
    HasType(s, t) && LengthsFit(s)
  }

  function Children(s: Sol): seq<Sol> {
    match s
    case DynArray(es) => es
    case FixedArray(_, es) => es
    case Struct(fs) => fs
    case _ => []
  }

  function ChildType(t: AbiType, k: nat): AbiType {
    match t
    case TDynArray(e) => e
    case TFixedArray(e, _) => e
    case TTuple(ts) => if k < |ts| then ts[k] else t
    case _ => t
  }

  lemma {:induction false} ChildHolds(s: Sol, t: AbiType, k: nat)
    requires Holds(s, t) && k < |Children(s)|
    ensures Holds(Children(s)[k], ChildType(t, k))
  {
  }

  lemma {:induction false} RepresentInRange(s: Sol, t: AbiType)
    requires Holds(s, t)
    ensures InRange(Represent(s))
  {
    forall k | 0 <= k < |Children(s)|
      ensures InRange(Represent(Children(s)[k]))
    {
      ChildHolds(s, t, k);
      RepresentInRange(Children(s)[k], ChildType(t, k));
    }
    var vs := RepresentAll(Children(s));
    assert forall k :: 0 <= k < |vs| ==> vs[k] == Represent(Children(s)[k]) && InRange(vs[k]);
    if s.DynBytes? {
      Pow256Grows(USIZE_BYTES, 8);
      var v := Represent(s);
      assert InRange(v.elems[0]) && InRange(v.elems[1]) && InRange(v.elems[2]);
    }
  }

  // ----- Leaves -----

  /** The serializer's part and the standard's part for the same value. */
  function StreamPart(s: Sol): Part {
    Part(IsDyn(Represent(s)), Buffered(Represent(s)))
  }

  function StandardPart(s: Sol): Part {
    Part(IsDynamic(s), Enc(s))
  }

  /** The marker tuple of `bytes`, as the serializer gets it. */
  function MarkerTuple(b: bytes): seq<Value> {
    [Marker, UInt(8, |b|), Blob(b)]
  }

  lemma {:induction false} MarkerParts(b: bytes)
    requires |b| <= USIZE_MAX
    ensures ValueParts(MarkerTuple(b)) == [Part(false, []), Part(false, Be32(|b|)), Part(false, PadRight(b))]
  {
    Pow256Grows(USIZE_BYTES, 8);
    SignExtend(|b|, 8);
  }

  lemma {:induction false} BytesAgree(b: bytes)
    requires |b| <= USIZE_MAX
    ensures StreamPart(DynBytes(b)) == StandardPart(DynBytes(b))
  {
    MarkerParts(b);
    StaticLayout([], Be32(|b|), PadRight(b));
    assert AnyDyn(MarkerTuple(b));
    assert Represent(DynBytes(b)) == Tuple(MarkerTuple(b));
    assert [] + Be32(|b|) + PadRight(b) == Be32(|b|) + PadRight(b);
  }

  lemma {:induction false} StaticLayout(a: bytes, b: bytes, c: bytes)
    ensures Layout([Part(false, a), Part(false, b), Part(false, c)]) == a + b + c
  {
    var ps := [Part(false, a), Part(false, b), Part(false, c)];
    assert HeadsFrom(ps, 3) == [];
    assert HeadsFrom(ps, 2) == Head(ps, 2) + HeadsFrom(ps, 3) == c;
    assert HeadsFrom(ps, 1) == Head(ps, 1) + HeadsFrom(ps, 2) == b + c;
    assert HeadsFrom(ps, 0) == Head(ps, 0) + HeadsFrom(ps, 1) == a + (b + c);
    NoTailsAtAll(ps);
  }

  lemma {:induction false} NoTailsAtAll(ps: seq<Part>)
    requires forall k :: 0 <= k < |ps| ==> !ps[k].dynamic
    ensures Tails(ps) == []
  {
    if ps != [] {
      NoTailsAtAll(ps[1..]);
    }
  }

  /** 128-bit integers are zero-filled: right exactly when not negative. */
  lemma {:induction false} SignedAgree(w: nat, i: int)
    requires NativeWidth(w) && -Pow256(w) <= 2 * i < Pow256(w)
    ensures SignedSlot(w, i) == Be32(i) <==> !(w == 16 && i < 0)
  {
    SignExtend(i, w);
    if w == 16 && i < 0 {
      assert Be32(i)[0] == 0xff && SignedSlot(w, i)[0] == 0;
    }
  }

  /** What is promised about one leaf. */
  ghost predicate LeafAgrees(s: Sol) {
    && IsDyn(Represent(s)) == IsDynamic(s) && |Buffered(Represent(s))| == |Enc(s)|
    && (Buffered(Represent(s)) == Enc(s) <==> !HasNegativeInt128(s))
  }

  lemma {:induction false} NumbersAgree(s: Sol, t: AbiType)
    requires Holds(s, t) && (s.Uint? || s.Int?)
    ensures LeafAgrees(s)
  {
    match s
    case Uint(w, n) => SignExtend(n, w);
    case Int(w, i) => SignedAgree(w, i);
  }

  lemma {:induction false} AddressAgrees(a: bytes)
    requires |a| == 20
    ensures LeafAgrees(Address(a))
  {
    BytesInSlot(a);
  }

  lemma {:induction false} LeavesAgree(s: Sol, t: AbiType)
    requires Holds(s, t) && !s.DynArray? && !s.FixedArray? && !s.Struct?
    ensures LeafAgrees(s)
  {
    match s
    case Uint(_, _) => NumbersAgree(s, t);
    case Int(_, _) => NumbersAgree(s, t);
    case Address(a) => AddressAgrees(a);
    case DynBytes(b) => BytesAgree(b);
    case _ =>
  }

  // ----- Composites -----

  function StreamParts(ss: seq<Sol>): (ps: seq<Part>)
    ensures |ps| == |ss| && forall k :: 0 <= k < |ss| ==> ps[k] == StreamPart(ss[k])
  {
    ValueParts(RepresentAll(ss))
  }

  /** Bytes that a component adds to its tuple. */
  function Weight(p: Part): nat {
    HeadLen(p) + TailLen(p)
  }

  lemma {:induction false} LighterLayout(ps: seq<Part>, qs: seq<Part>)
    requires |ps| == |qs| && forall k :: 0 <= k < |ps| ==> Weight(ps[k]) <= Weight(qs[k])
    ensures |Layout(ps)| <= |Layout(qs)|
    ensures (exists k :: 0 <= k < |ps| && Weight(ps[k]) < Weight(qs[k])) ==> |Layout(ps)| < |Layout(qs)|
  {
    LayoutLength(ps);
    LayoutLength(qs);
    if ps != [] {
      LayoutLength(ps[1..]);
      LayoutLength(qs[1..]);
      LighterLayout(ps[1..], qs[1..]);
      forall k | 0 < k < |ps|
        ensures ps[k] == ps[1..][k - 1] && qs[k] == qs[1..][k - 1]
      {
      }
    }
  }

  lemma {:induction false} AnyDynMeans(vs: seq<Value>)
    ensures AnyDyn(vs) <==> exists k :: 0 <= k < |vs| && (IsDyn(vs[k]) || IsFake(vs[k]))
  {
    if vs != [] {
      AnyDynMeans(vs[1..]);
      if exists k :: 0 <= k < |vs| && (IsDyn(vs[k]) || IsFake(vs[k])) {
        var k :| 0 <= k < |vs| && (IsDyn(vs[k]) || IsFake(vs[k]));
        assert k > 0 ==> vs[k] == vs[1..][k - 1];
      }
    }
  }

  /** The dynamic flags of one value. */
  ghost predicate FlagsCompared(s: Sol) {
    && (IsDyn(Represent(s)) ==> IsDynamic(s))
    && (!HasEmptyDynamicArray(s) ==> IsDyn(Represent(s)) == IsDynamic(s))
  }

  /** The two encodings of one value. */
  ghost predicate BytesCompared(s: Sol, a: bytes, b: bytes) {
    && |a| <= |b|
    && (!HasEmptyDynamicArray(s) ==> |a| == |b| && (a == b <==> !HasNegativeInt128(s)))
  }

  /** What the induction needs about one value. */
  ghost predicate Compared(s: Sol) {
    && FlagsCompared(s)
    && BytesCompared(s, Buffered(Represent(s)), Enc(s))
    && (HasEmptyDynamicArray(s) ==> Weight(StreamPart(s)) < Weight(StandardPart(s)))
  }

  /** The tuples of the children, already compared one by one. */
  lemma {:induction false} ComparedLayouts(es: seq<Sol>)
    requires forall k :: 0 <= k < |es| ==> Compared(es[k])
    ensures |Layout(StreamParts(es))| <= |Layout(Parts(es))|
    ensures if exists k :: 0 <= k < |es| && HasEmptyDynamicArray(es[k])
            then |Layout(StreamParts(es))| < |Layout(Parts(es))|
            else |Layout(StreamParts(es))| == |Layout(Parts(es))|
                 && (Layout(StreamParts(es)) == Layout(Parts(es)) <==>
                     forall k :: 0 <= k < |es| ==> !HasNegativeInt128(es[k]))
  {
    var ps, qs := StreamParts(es), Parts(es);
    forall k | 0 <= k < |es|
      ensures ps[k] == StreamPart(es[k]) && qs[k] == StandardPart(es[k]) && Weight(ps[k]) <= Weight(qs[k])
    {
      assert Compared(es[k]);
    }
    LighterLayout(ps, qs);
    if exists k :: 0 <= k < |es| && HasEmptyDynamicArray(es[k]) {
      var k :| 0 <= k < |es| && HasEmptyDynamicArray(es[k]);
      assert Weight(ps[k]) < Weight(qs[k]);
    } else {
      EqualShapes(es);
    }
  }

  lemma {:induction false} EqualShapes(es: seq<Sol>)
    requires forall k :: 0 <= k < |es| ==> Compared(es[k]) && !HasEmptyDynamicArray(es[k])
    ensures |Layout(StreamParts(es))| == |Layout(Parts(es))|
    ensures Layout(StreamParts(es)) == Layout(Parts(es)) <==> forall k :: 0 <= k < |es| ==> !HasNegativeInt128(es[k])
  {
    var ps, qs := StreamParts(es), Parts(es);
    forall k | 0 <= k < |es|
      ensures ps[k].dynamic == qs[k].dynamic && |ps[k].enc| == |qs[k].enc|
      ensures ps[k].enc == qs[k].enc <==> !HasNegativeInt128(es[k])
    {
      assert Compared(es[k]) && ps[k] == StreamPart(es[k]) && qs[k] == StandardPart(es[k]);
    }
    assert SameShape(ps, qs);
    LighterLayout(ps, qs);
    LighterLayout(qs, ps);
    if forall k :: 0 <= k < |es| ==> !HasNegativeInt128(es[k]) {
      assert ps == qs;
    } else {
      var k :| 0 <= k < |es| && HasNegativeInt128(es[k]);
      assert ps[k].enc != qs[k].enc;
      if Layout(ps) == Layout(qs) {
        LayoutInjective(ps, qs);
      }
    }
  }

  lemma {:induction false} Compare(s: Sol, t: AbiType)
    requires Holds(s, t)
    ensures Compared(s)
  {
    if s.DynArray? || s.FixedArray? || s.Struct? {
      var es := Children(s);
      forall k | 0 <= k < |es|
        ensures Compared(es[k])
      {
        ChildHolds(s, t, k);
        Compare(es[k], ChildType(t, k));
      }
      CompareFlags(s, t);
      CompareBytes(s);
      if HasEmptyDynamicArray(s) {
        CompareWeights(s);
      }
    } else {
      LeavesAgree(s, t);
    }
  }

  lemma {:induction false} CompareFlags(s: Sol, t: AbiType)
    requires Holds(s, t) && (s.DynArray? || s.FixedArray? || s.Struct?)
    requires forall k :: 0 <= k < |Children(s)| ==> FlagsCompared(Children(s)[k])
    ensures FlagsCompared(s)
  {
    var es := Children(s);
    var vs := RepresentAll(es);
    AnyDynMeans(vs);
    forall k | 0 <= k < |es|
      ensures vs[k] == Represent(es[k]) && !IsFake(vs[k]) && FlagsCompared(es[k])
    {
    }
    if s.FixedArray? {
      forall k | 0 <= k < |es|
        ensures IsDynamic(es[k]) == TypeIsDynamic(s.elem)
      {
        DynamicFollowsType(es[k], s.elem);
      }
      assert es != [] ==> vs[0] == Represent(es[0]);
    }
  }

  lemma {:induction false} CompareBytes(s: Sol)
    requires s.DynArray? || s.FixedArray? || s.Struct?
    requires forall k :: 0 <= k < |Children(s)| ==> Compared(Children(s)[k])
    ensures BytesCompared(s, Buffered(Represent(s)), Enc(s))
  {
    var es := Children(s);
    ComparedLayouts(es);
    CompositeBytes(s);
    PrefixCompared(s, if s.DynArray? then Be32(|es|) else [], Layout(StreamParts(es)), Layout(Parts(es)));
  }

  /** An offending component makes the streamed tuple strictly shorter. */
  lemma {:induction false} CompareWeights(s: Sol)
    requires s.DynArray? || s.FixedArray? || s.Struct?
    requires FlagsCompared(s) && HasEmptyDynamicArray(s)
    requires forall k :: 0 <= k < |Children(s)| ==> Compared(Children(s)[k])
    ensures Weight(StreamPart(s)) < Weight(StandardPart(s))
  {
    var es := Children(s);
    CompositeBytes(s);
    if s.FixedArray? && es == [] {
      assert RepresentAll(es) == [] && !IsDyn(Represent(s)) && IsDynamic(s);
      assert StreamParts(es) == Parts(es) == [];
    } else {
      ComparedLayouts(es);
    }
  }

  lemma {:induction false} CompositeBytes(s: Sol)
    requires s.DynArray? || s.FixedArray? || s.Struct?
    ensures var prefix := if s.DynArray? then Be32(|Children(s)|) else [];
            && Buffered(Represent(s)) == prefix + Layout(StreamParts(Children(s)))
            && Enc(s) == prefix + Layout(Parts(Children(s)))
  {
    var vs := RepresentAll(Children(s));
    if s.DynArray? {
      assert Represent(s) == Seq(vs);
    } else {
      assert Represent(s) == Tuple(vs);
    }
  }

  lemma {:induction false} PrefixCompared(s: Sol, prefix: bytes, a: bytes, b: bytes)
    requires |a| <= |b|
    requires !HasEmptyDynamicArray(s) ==> |a| == |b| && (a == b <==> !HasNegativeInt128(s))
    ensures BytesCompared(s, prefix + a, prefix + b)
  {
    assert (prefix + a)[|prefix|..] == a && (prefix + b)[|prefix|..] == b;
  }

  /** The main theorem. For every value the library can hold, the streamed bytes
      are Solidity's encoding if and only if the value has no negative int128
      and no empty fixed array of a dynamic type. */
  lemma {:induction false} StreamIsAbiEncode(s: Sol, t: AbiType)
    requires Holds(s, t)
    ensures Stream(Represent(s), true) == AbiEncode(s) <==> !HasEmptyDynamicArray(s) && !HasNegativeInt128(s)
  {
    var p, q := StreamPart(s), StandardPart(s);
    assert Stream(Represent(s), true) == Layout([p]) by {
      RepresentInRange(s, t);
      StreamIsBuffered(Represent(s));
    }
    Compare(s, t);
    SingleLayoutCompared(s, p, q);
  }

  lemma {:induction false} SingleLayoutCompared(s: Sol, p: Part, q: Part)
    requires Compared(s) && p == StreamPart(s) && q == StandardPart(s)
    ensures Layout([p]) == Layout([q]) <==> !HasEmptyDynamicArray(s) && !HasNegativeInt128(s)
  {
    assert Weight([p][0]) <= Weight([q][0]);
    LighterLayout([p], [q]);
    if HasEmptyDynamicArray(s) {
      assert Weight([p][0]) < Weight([q][0]);
    } else if Layout([p]) == Layout([q]) {
      LayoutInjective([p], [q]);
      assert [p][0] == [q][0];
    }
  }

  /** The two families on their own: `int128` below zero, and `T[0]` for a dynamic `T`. */
  lemma {:induction false} NegativeInt128Deviates(i: int)
    requires -Pow256(16) <= 2 * i < 0
    ensures Stream(Represent(Int(16, i)), true) != AbiEncode(Int(16, i))
  {
    StreamIsAbiEncode(Int(16, i), TInt(16));
  }

  lemma {:induction false} EmptyDynamicArrayDeviates(t: AbiType)
    requires TypeIsDynamic(t)
    ensures Stream(Represent(FixedArray(t, [])), true) != AbiEncode(FixedArray(t, []))
  {
    StreamIsAbiEncode(FixedArray(t, []), TFixedArray(t, 0));
  }

  lemma {:induction false} RepresentSupported(s: Sol)
    ensures Check(Represent(s)) == Pass
    decreases s, 1
  {
    if s.DynArray? || s.FixedArray? || s.Struct? {
      SupportedAll(s, Children(s));
    } else if s.DynBytes? {
      SupportedThree(Marker, UInt(8, |s.data|), Blob(s.data));
    }
  }

  lemma {:induction false} SupportedThree(a: Value, b: Value, c: Value)
    requires Check(a) == Check(b) == Check(c) == Pass
    ensures CheckAll([a, b, c]) == Pass
  {
    var vs := [a, b, c];
    assert vs[1..] == [b, c] && [b, c][1..] == [c] && [c][1..] == [];
    assert CheckAll([c]) == Pass && CheckAll([b, c]) == Pass;
  }

  lemma {:induction false} SupportedAll(s: Sol, es: seq<Sol>)
    requires forall k :: 0 <= k < |es| ==> es[k] < s
    ensures CheckAll(RepresentAll(es)) == Pass
    decreases s, 0, |es|
  {
    if es != [] {
      RepresentSupported(es[0]);
      SupportedAll(s, es[1..]);
    }
  }

  /** From a Solidity value to its encoding through the real passes. */
  method AbiEncodeTo(s: Sol, ghost t: AbiType, writer: Writer) returns (r: Outcome)
    requires Holds(s, t) && !HasEmptyDynamicArray(s) && !HasNegativeInt128(s)
    requires |AbiEncode(s)| <= USIZE_MAX
    modifies writer
    ensures r.Pass? && writer.out == old(writer.out) + AbiEncode(s)
  {
    ghost var v := Represent(s);
    RepresentInRange(s, t);
    RepresentSupported(s);
    StreamIsAbiEncode(s, t);
    StreamIsBuffered(v);
    LayoutLength([Part(IsDyn(v), Buffered(v))]);
    ghost var visits;
    r, visits := ToWriter(Represent(s), writer, true);
  }
}
