/** What the serializer writes for every value, the two deviating families included:
    the standard's encoding of another value, from which the original one can be
    recovered. So the streamed bytes can always be decoded. */
module Canonical {
  import opened Bytes
  import opened Wrappers
  import opened SolidityAbi
  import opened Passes
  import opened Refinement
  import opened Conformance
  import Decoder

  /** The two's complement of `i`, for an `i` in range. */
  function Residue(i: int, modulus: int): nat {
    if i >= 0 then i else if i + modulus >= 0 then i + modulus else 0
  }

  /** An `int128` becomes the `uint128` with the same bytes, an empty fixed array the
      empty tuple. */
  function Canon(s: Sol): Sol {
    match s
    case Int(w, i) => if w == 16 then Uint(16, Residue(i, Pow256(16))) else s
    case DynArray(es) => DynArray(CanonAll(es))
    case FixedArray(e, es) => if es == [] then Struct([]) else FixedArray(CanonType(e), CanonAll(es))
    case Struct(fs) => Struct(CanonAll(fs))
    case _ => s
  }

  function CanonAll(ss: seq<Sol>): (cs: seq<Sol>)
    ensures |cs| == |ss| && forall k :: 0 <= k < |ss| ==> cs[k] == Canon(ss[k])
  {
    if ss == [] then [] else [Canon(ss[0])] + CanonAll(ss[1..])
  }

  function CanonType(t: AbiType): AbiType {
    match t
    case TInt(w) => if w == 16 then TUint(16) else t
    case TDynArray(e) => TDynArray(CanonType(e))
    case TFixedArray(e, n) => if n == 0 then TTuple([]) else TFixedArray(CanonType(e), n)
    case TTuple(ts) => TTuple(CanonTypes(ts))
    case _ => t
  }

  function CanonTypes(ts: seq<AbiType>): (cs: seq<AbiType>)
    ensures |cs| == |ts| && forall k :: 0 <= k < |ts| ==> cs[k] == CanonType(ts[k])
  {
    if ts == [] then [] else [CanonType(ts[0])] + CanonTypes(ts[1..])
  }

  /** Back again, with the help of the original type. */
  function Restore(t: AbiType, c: Sol): Sol {
    match t
    case TInt(w) => if w == 16 && c.Uint? then Int(16, Decoder.FromTwosComplement(c.n, Pow256(16))) else c
    case TDynArray(e) => if c.DynArray? then DynArray(seq(|c.elems|, k requires 0 <= k < |c.elems| => Restore(e, c.elems[k]))) else c
    case TFixedArray(e, n) =>
      if c.FixedArray? then FixedArray(e, seq(|c.elems|, k requires 0 <= k < |c.elems| => Restore(e, c.elems[k])))
      else FixedArray(e, [])
    case TTuple(ts) =>
      if c.Struct? && |c.fields| == |ts| then Struct(seq(|ts|, k requires 0 <= k < |ts| => Restore(ts[k], c.fields[k]))) else c
    case _ => c
  }

  lemma {:induction false} RestoreDynArray(e: AbiType, es: seq<Sol>)
    requires forall k :: 0 <= k < |es| ==> Restore(e, Canon(es[k])) == es[k]
    ensures Restore(TDynArray(e), DynArray(CanonAll(es))) == DynArray(es)
  {
    assert Restore(TDynArray(e), DynArray(CanonAll(es))).elems == es;
  }

  lemma {:induction false} RestoreFixedArray(e: AbiType, es: seq<Sol>)
    requires forall k :: 0 <= k < |es| ==> Restore(e, Canon(es[k])) == es[k]
    ensures Restore(TFixedArray(e, |es|), Canon(FixedArray(e, es))) == FixedArray(e, es)
  {
    if es != [] {
      assert Restore(TFixedArray(e, |es|), FixedArray(CanonType(e), CanonAll(es))).elems == es;
    }
  }

  lemma {:induction false} RestoreFields(ts: seq<AbiType>, fs: seq<Sol>)
    requires |ts| == |fs| && forall k :: 0 <= k < |fs| ==> Restore(ts[k], Canon(fs[k])) == fs[k]
    ensures Restore(TTuple(ts), Struct(CanonAll(fs))) == Struct(fs)
  {
    assert Restore(TTuple(ts), Struct(CanonAll(fs))).fields == fs;
  }

  lemma {:induction false} RestoreInt(w: nat, i: int)
    requires -Pow256(w) <= 2 * i < Pow256(w)
    ensures Restore(TInt(w), Canon(Int(w, i))) == Int(w, i)
  {
    if w == 16 {
      ResidueBytes(i, Pow256(16), 16);
    }
  }

  lemma {:induction false} RestoreCanon(s: Sol, t: AbiType)
    requires HasType(s, t)
    ensures Restore(t, Canon(s)) == s
  {
    match s
    case Int(w, i) => RestoreInt(w, i);
    case DynArray(es) =>
      forall k | 0 <= k < |es| ensures Restore(t.elem, Canon(es[k])) == es[k] {
        RestoreCanon(es[k], t.elem);
      }
      RestoreDynArray(t.elem, es);
    case FixedArray(e, es) =>
      forall k | 0 <= k < |es| ensures Restore(e, Canon(es[k])) == es[k] {
        RestoreCanon(es[k], e);
      }
      RestoreFixedArray(e, es);
    case Struct(fs) =>
      forall k | 0 <= k < |fs| ensures Restore(t.fields[k], Canon(fs[k])) == fs[k] {
        RestoreCanon(fs[k], t.fields[k]);
      }
      RestoreFields(t.fields, fs);
    case _ =>
  }

  // ----- The canonical value is one of the well-behaved ones -----

  ghost predicate CanonOk(s: Sol, t: AbiType) {
    && Holds(Canon(s), CanonType(t))
    && !HasEmptyDynamicArray(Canon(s)) && !HasNegativeInt128(Canon(s))
  }

  lemma {:induction false} CleanDynArray(e: AbiType, es: seq<Sol>)
    requires Holds(DynArray(es), TDynArray(e)) && forall k :: 0 <= k < |es| ==> CanonOk(es[k], e)
    ensures CanonOk(DynArray(es), TDynArray(e))
  {
    var cs := CanonAll(es);
    assert forall k :: 0 <= k < |cs| ==> cs[k] == Canon(es[k]) && CanonOk(es[k], e);
  }

  lemma {:induction false} CleanFixedArray(e: AbiType, es: seq<Sol>)
    requires forall k :: 0 <= k < |es| ==> CanonOk(es[k], e)
    ensures CanonOk(FixedArray(e, es), TFixedArray(e, |es|))
  {
    var cs := CanonAll(es);
    assert forall k :: 0 <= k < |cs| ==> cs[k] == Canon(es[k]) && CanonOk(es[k], e);
  }

  lemma {:induction false} CleanInt(w: nat, i: int)
    requires Holds(Int(w, i), TInt(w))
    ensures CanonOk(Int(w, i), TInt(w))
  {
    if w == 16 {
      ResidueBytes(i, Pow256(16), 16);
    }
  }

  lemma {:induction false} CleanTuple(ts: seq<AbiType>, fs: seq<Sol>)
    requires |ts| == |fs| && forall k :: 0 <= k < |fs| ==> CanonOk(fs[k], ts[k])
    ensures CanonOk(Struct(fs), TTuple(ts))
  {
    var cs := CanonAll(fs);
    assert forall k :: 0 <= k < |cs| ==> cs[k] == Canon(fs[k]) && CanonOk(fs[k], ts[k]);
  }

  lemma {:induction false} CanonIsClean(s: Sol, t: AbiType)
    requires Holds(s, t)
    ensures CanonOk(s, t)
  {
    match s
    case DynArray(es) =>
      forall k | 0 <= k < |es| ensures CanonOk(es[k], t.elem) {
        CanonIsClean(es[k], t.elem);
      }
      CleanDynArray(t.elem, es);
    case FixedArray(e, es) =>
      forall k | 0 <= k < |es| ensures CanonOk(es[k], e) {
        CanonIsClean(es[k], e);
      }
      CleanFixedArray(e, es);
    case Struct(fs) =>
      forall k | 0 <= k < |fs| ensures CanonOk(fs[k], t.fields[k]) {
        CanonIsClean(fs[k], t.fields[k]);
      }
      CleanTuple(t.fields, fs);
    case Int(w, i) => CleanInt(w, i);
    case _ =>
  }

  // ----- Both are streamed alike -----

  ghost predicate SameStream(s: Sol) {
    Part(IsDyn(Represent(s)), Buffered(Represent(s))) == Part(IsDyn(Represent(Canon(s))), Buffered(Represent(Canon(s))))
  }

  /** A number has the bytes of its residue. */
  lemma {:induction false} ResidueBytes(i: int, modulus: int, width: nat)
    requires modulus == Pow256(width) && -modulus <= 2 * i < modulus
    ensures ToBe(Residue(i, modulus), width) == ToBe(i, width) && Residue(i, modulus) < modulus
    ensures Decoder.FromTwosComplement(Residue(i, modulus), modulus) == i
  {
    Decoder.ToBePeriod(i, width);
  }

  ghost predicate Alike(v: Value, w: Value) {
    IsDyn(v) == IsDyn(w) && Buffered(v) == Buffered(w) && !IsFake(v) && !IsFake(w)
  }

  lemma {:induction false} AlikeLists(vs: seq<Value>, ws: seq<Value>)
    requires |vs| == |ws| && forall k :: 0 <= k < |vs| ==> Alike(vs[k], ws[k])
    ensures ValueParts(vs) == ValueParts(ws) && AnyDyn(vs) == AnyDyn(ws)
  {
    AnyDynMeans(vs);
    AnyDynMeans(ws);
    assert ValueParts(vs) == ValueParts(ws);
  }

  lemma {:induction false} SameStreamAlike(s: Sol)
    requires SameStream(s)
    ensures Alike(Represent(s), Represent(Canon(s)))
  {
  }

  /** The components of both, one by one. */
  lemma {:induction false} ComponentsStream(es: seq<Sol>)
    requires forall k :: 0 <= k < |es| ==> SameStream(es[k])
    ensures var vs, ws := RepresentAll(es), RepresentAll(CanonAll(es));
            ValueParts(vs) == ValueParts(ws) && AnyDyn(vs) == AnyDyn(ws)
  {
    var vs, ws := RepresentAll(es), RepresentAll(CanonAll(es));
    forall k | 0 <= k < |es|
      ensures Alike(vs[k], ws[k])
    {
      assert SameStream(es[k]);
      SameStreamAlike(es[k]);
    }
    AlikeLists(vs, ws);
  }

  lemma {:induction false} CompositeStreams(s: Sol)
    requires s.DynArray? || s.FixedArray? || s.Struct?
    requires forall k :: 0 <= k < |Children(s)| ==> SameStream(Children(s)[k])
    ensures SameStream(s)
  {
    var es := Children(s);
    var vs, ws := RepresentAll(es), RepresentAll(CanonAll(es));
    ComponentsStream(es);
    if s.DynArray? {
      assert Represent(s) == Seq(vs) && Represent(Canon(s)) == Seq(ws);
    } else {
      assert Represent(s) == Tuple(vs) && Represent(Canon(s)) == Tuple(ws);
    }
  }

  lemma {:induction false} CanonStreams(s: Sol, t: AbiType)
    requires HasType(s, t)
    ensures SameStream(s)
  {
    if s.DynArray? || s.FixedArray? || s.Struct? {
      forall k | 0 <= k < |Children(s)|
        ensures SameStream(Children(s)[k])
      {
        CanonStreams(Children(s)[k], ChildType(t, k));
      }
      CompositeStreams(s);
    } else if s.Int? && s.width == 16 {
      ResidueBytes(s.i, Pow256(16), 16);
    }
  }

  // ----- Whole streams -----

  /** For every value the library can hold, without exception: the stream is the
      standard's encoding of the canonical value. */
  lemma {:induction false} StreamIsCanonical(s: Sol, t: AbiType)
    requires Holds(s, t)
    ensures Stream(Represent(s), true) == AbiEncode(Canon(s))
  {
    CanonIsClean(s, t);
    CanonStreams(s, t);
    RepresentInRange(s, t);
    RepresentInRange(Canon(s), CanonType(t));
    StreamIsBuffered(Represent(s));
    StreamIsBuffered(Represent(Canon(s)));
    StreamIsAbiEncode(Canon(s), CanonType(t));
  }

  /** Reads a streamed value back: the standard's decoder, then `Restore`. */
  function DecodeStream(t: AbiType, buf: bytes): Option<Sol> {
    match Decoder.Decode(TTuple([CanonType(t)]), buf)
    case Some(Struct(fs)) => if |fs| == 1 then Some(Restore(t, fs[0])) else None
    case _ => None
  }

  /** Every streamed value can be read back. */
  lemma {:induction false} StreamRoundTrip(s: Sol, t: AbiType)
    requires Holds(s, t) && |Stream(Represent(s), true)| < U256_LIMIT
    ensures DecodeStream(t, Stream(Represent(s), true)) == Some(s)
  {
    StreamIsCanonical(s, t);
    CanonIsClean(s, t);
    var c, ct := Canon(s), CanonType(t);
    Decoder.AbiEncodeIsTuple(c);
    assert HasType(Struct([c]), TTuple([ct]));
    Decoder.RoundTrip(Struct([c]), TTuple([ct]), []);
    assert AbiEncode(c) + [] == AbiEncode(c);
    RestoreCanon(s, t);
  }

  /** So no two values of a type stream the same bytes. */
  lemma {:induction false} StreamInjective(s: Sol, s': Sol, t: AbiType)
    requires Holds(s, t) && Holds(s', t) && |Stream(Represent(s), true)| < U256_LIMIT
    requires Stream(Represent(s), true) == Stream(Represent(s'), true)
    ensures s == s'
  {
    StreamRoundTrip(s, t);
    StreamRoundTrip(s', t);
  }
}
