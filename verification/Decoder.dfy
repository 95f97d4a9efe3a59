/** A type-directed decoder that follows the written offsets. It recovers every
    value from the standard's encoding, so the encoding is injective per type. */
module Decoder {
  import opened Bytes
  import opened SolidityAbi
  import opened Wrappers

  function Depth(t: AbiType): nat {
    match t
    case TDynArray(e) => 1 + Depth(e)
    case TFixedArray(e, _) => 1 + Depth(e)
    case TTuple(ts) => 1 + MaxDepth(ts)
    case _ => 0
  }

  function MaxDepth(ts: seq<AbiType>): (d: nat)
    ensures forall k :: 0 <= k < |ts| ==> Depth(ts[k]) <= d
  {
    if ts == [] then 0 else
    var d := MaxDepth(ts[1..]);
    assert forall k :: 0 < k < |ts| ==> ts[k] == ts[1..][k - 1];
    if Depth(ts[0]) > d then Depth(ts[0]) else d
  }

  /** Length of the head of a component: fixed by the type. */
  function HeadLenOf(t: AbiType): nat {
    match t
    case TUint(_) => SLOT_SIZE
    case TInt(_) => SLOT_SIZE
    case TAddress => SLOT_SIZE
    case TFixedBytes(n) => PaddedLen(n)
    case TFixedArray(e, n) => if TypeIsDynamic(t) then SLOT_SIZE else n * HeadLenOf(e)
    case TTuple(ts) => if TypeIsDynamic(t) then SLOT_SIZE else HeadLensOf(ts)
    case _ => SLOT_SIZE
  }

  function HeadLensOf(ts: seq<AbiType>): nat {
    if ts == [] then 0 else HeadLenOf(ts[0]) + HeadLensOf(ts[1..])
  }

  function Repeat(t: AbiType, n: nat): (ts: seq<AbiType>)
    ensures |ts| == n && forall k :: 0 <= k < n ==> ts[k] == t
  {
    seq(n, _ => t)
  }

  function FromTwosComplement(n: nat, modulus: int): int {
    if 2 * n < modulus then n else n - modulus
  }

  /** The number in the first slot of `buf`. */
  function ReadNat(buf: bytes): Option<nat> {
    if |buf| < SLOT_SIZE then None else Some(FromBe(buf[..SLOT_SIZE]))
  }

  function ReadBytes(buf: bytes): Option<bytes> {
    match ReadNat(buf)
    case None => None
    case Some(n) => if SLOT_SIZE + n <= |buf| then Some(buf[SLOT_SIZE..][..n]) else None
  }

  /** Reads one value of type `t` from the start of `buf`. */
  function Decode(t: AbiType, buf: bytes): Option<Sol>
    decreases Depth(t)
  {
    match t
    case TUint(w) =>
      (match ReadNat(buf)
       case None => None
       case Some(n) => if n < Pow256(w) then Some(Uint(w, n)) else None)
    case TInt(w) =>
      (match ReadNat(buf)
       case None => None
       case Some(n) =>
         var i := FromTwosComplement(n, U256_LIMIT);
         if -Pow256(w) <= 2 * i < Pow256(w) then Some(Int(w, i)) else None)
    case TAddress => if |buf| < SLOT_SIZE then None else Some(Address(buf[12..SLOT_SIZE]))
    case TFixedBytes(n) => if |buf| < n then None else Some(FixedBytes(buf[..n]))
    case TBytes => (match ReadBytes(buf) case None => None case Some(b) => Some(DynBytes(b)))
    case TString => (match ReadBytes(buf) case None => None case Some(b) => Some(Text(b)))
    case TDynArray(e) =>
      (match ReadNat(buf)
       case None => None
       case Some(n) =>
         match DecodeAll(Depth(t), Repeat(e, n), buf[SLOT_SIZE..], 0)
         case None => None
         case Some(es) => Some(DynArray(es)))
    case TFixedArray(e, n) =>
      (match DecodeAll(Depth(t), Repeat(e, n), buf, 0)
       case None => None
       case Some(es) => Some(FixedArray(e, es)))
    case TTuple(ts) =>
      (match DecodeAll(Depth(t), ts, buf, 0)
       case None => None
       case Some(fs) => Some(Struct(fs)))
  }

  /** Reads the components of a tuple that starts at the start of `buf`, from
      head position `pos` on. */
  function DecodeAll(depth: nat, ts: seq<AbiType>, buf: bytes, pos: nat): Option<seq<Sol>>
    requires forall k :: 0 <= k < |ts| ==> Depth(ts[k]) < depth
    decreases depth, |ts|
  {
    if ts == [] then Some([]) else
    match DecodeAt(depth, ts[0], buf, pos)
    case None => None
    case Some(s) =>
      match DecodeAll(depth, ts[1..], buf, pos + HeadLenOf(ts[0]))
      case None => None
      case Some(rest) => Some([s] + rest)
  }

  function DecodeAt(depth: nat, t: AbiType, buf: bytes, pos: nat): Option<Sol>
    requires Depth(t) < depth
    decreases depth, 0
  {
    if pos > |buf| then None else
    if !TypeIsDynamic(t) then Decode(t, buf[pos..]) else
    match ReadNat(buf[pos..])
    case None => None
    case Some(offset) => if offset <= |buf| then Decode(t, buf[offset..]) else None
  }

  // ----- Leaves -----

  lemma {:induction false} ReadBack(n: nat, rest: bytes)
    requires n < U256_LIMIT
    ensures ReadNat(Be32(n) + rest) == Some(n) && (Be32(n) + rest)[SLOT_SIZE..] == rest
  {
    Limits();
    FromToBe(n, SLOT_SIZE);
    assert (Be32(n) + rest)[..SLOT_SIZE] == Be32(n);
  }

  lemma {:induction false} ReadBytesBack(b: bytes, rest: bytes)
    requires |b| < U256_LIMIT
    ensures ReadBytes(Be32(|b|) + PadRight(b) + rest) == Some(b)
  {
    var buf := Be32(|b|) + PadRight(b) + rest;
    assert buf == Be32(|b|) + (PadRight(b) + rest);
    ReadBack(|b|, PadRight(b) + rest);
    assert (PadRight(b) + rest)[..|b|] == PadRight(b)[..|b|] == b;
  }

  lemma {:induction false} ToBePeriod(n: int, width: nat)
    ensures ToBe(n, width) == ToBe(n + Pow256(width), width)
    decreases width
  {
    if width > 0 {
      assert (n + Pow256(width)) / 256 == n / 256 + Pow256(width - 1);
      assert (n + Pow256(width)) % 256 == n % 256;
      ToBePeriod(n / 256, width - 1);
    }
  }

  lemma {:induction false} ReadIntBack(w: nat, i: int, rest: bytes)
    requires NativeWidth(w) && -Pow256(w) <= 2 * i < Pow256(w)
    ensures Decode(TInt(w), Be32(i) + rest) == Some(Int(w, i))
  {
    Pow256Grows(w, SLOT_SIZE);
    Limits();
    ReadTwosComplement(i, U256_LIMIT, rest);
  }

  lemma {:induction false} ReadTwosComplement(i: int, modulus: int, rest: bytes)
    requires modulus == U256_LIMIT && -modulus <= 2 * i < modulus
    ensures var n := ReadNat(Be32(i) + rest);
            n.Some? && FromTwosComplement(n.value, modulus) == i
  {
    if i < 0 {
      Limits();
      ToBePeriod(i, SLOT_SIZE);
      ReadBack(i + modulus, rest);
    } else {
      ReadBack(i, rest);
    }
  }

  lemma {:induction false} UintRoundTrip(w: nat, n: nat, rest: bytes)
    requires w <= SLOT_SIZE && n < Pow256(w)
    ensures Decode(TUint(w), Be32(n) + rest) == Some(Uint(w, n))
  {
    Pow256Grows(w, SLOT_SIZE);
    Limits();
    ReadBack(n, rest);
  }

  lemma {:induction false} AddressRoundTrip(a: bytes, rest: bytes)
    requires |a| == 20
    ensures Decode(TAddress, Be32(FromBe(a)) + rest) == Some(Address(a))
  {
    BytesInSlot(a);
    assert (Be32(FromBe(a)) + rest)[12..SLOT_SIZE] == a;
  }

  lemma {:induction false} LeafRoundTrip(s: Sol, t: AbiType, rest: bytes)
    requires HasType(s, t) && |Enc(s)| < U256_LIMIT
    requires !s.DynArray? && !s.FixedArray? && !s.Struct?
    ensures Decode(t, Enc(s) + rest) == Some(s)
  {
    match s
    case Uint(w, n) => UintRoundTrip(w, n, rest);
    case Int(w, i) => ReadIntBack(w, i, rest);
    case Address(a) => AddressRoundTrip(a, rest);
    case FixedBytes(b) => assert (PadRight(b) + rest)[..|b|] == PadRight(b)[..|b|];
    case DynBytes(b) => ReadBytesBack(b, rest);
    case Text(b) => ReadBytesBack(b, rest);
  }

  // ----- Composites -----

  lemma {:induction false} HeadLenTyped(s: Sol, t: AbiType)
    requires HasType(s, t)
    ensures HeadLen(Part(IsDynamic(s), Enc(s))) == HeadLenOf(t)
    decreases s, 1
  {
    DynamicFollowsType(s, t);
    if !IsDynamic(s) {
      match s
      case FixedArray(e, es) =>
        StaticArrayLen(s, e, es);
        forall k | 0 <= k < |es| ensures !IsDynamic(es[k]) {
          DynamicFollowsType(es[k], e);
        }
        AllStatic(es);
      case Struct(fs) =>
        StaticTupleLen(s, fs, t.fields);
        AllStatic(fs);
      case _ =>
    }
  }

  lemma {:induction false} AllStatic(es: seq<Sol>)
    requires forall k :: 0 <= k < |es| ==> !IsDynamic(es[k])
    ensures |Layout(Parts(es))| == HeadsLen(Parts(es))
  {
    LayoutLength(Parts(es));
    NoTails(Parts(es));
  }

  lemma {:induction false} NoTails(ps: seq<Part>)
    requires forall k :: 0 <= k < |ps| ==> !ps[k].dynamic
    ensures TailsLen(ps) == 0
  {
    if ps != [] {
      NoTails(ps[1..]);
    }
  }

  lemma {:induction false} StaticTupleLen(s: Sol, es: seq<Sol>, ts: seq<AbiType>)
    requires |es| == |ts| && forall k :: 0 <= k < |es| ==> es[k] < s && HasType(es[k], ts[k])
    ensures HeadsLen(Parts(es)) == HeadLensOf(ts)
    decreases s, 0, |es|
  {
    if es != [] {
      HeadLenTyped(es[0], ts[0]);
      StaticTupleLen(s, es[1..], ts[1..]);
      assert Parts(es)[1..] == Parts(es[1..]);
    }
  }

  lemma {:induction false} StaticArrayLen(s: Sol, e: AbiType, es: seq<Sol>)
    requires forall k :: 0 <= k < |es| ==> es[k] < s && HasType(es[k], e)
    ensures HeadsLen(Parts(es)) == |es| * HeadLenOf(e)
    decreases s, 0, |es|
  {
    if es != [] {
      HeadLenTyped(es[0], e);
      StaticArrayLen(s, e, es[1..]);
      assert Parts(es)[1..] == Parts(es[1..]);
      OneMore(|es|, HeadLenOf(e));
    }
  }

  lemma OneMore(n: nat, x: nat)
    requires n > 0
    ensures x + (n - 1) * x == n * x
  {
  }

  /** Component `k` can be read at `pos`, in place or through an offset. */
  ghost predicate Readable(p: Part, buf: bytes, pos: nat, after: bytes) {
    && pos <= |buf|
    && if p.dynamic then
         var o := ReadNat(buf[pos..]);
         o.Some? && o.value <= |buf| && buf[o.value..] == p.enc + after
       else buf[pos..] == p.enc + after
  }

  /** Where component `k` of a laid out tuple can be read from. */
  lemma {:induction false} ReadComponent(ps: seq<Part>, k: nat, buf: bytes, rest: bytes) returns (after: bytes)
    requires k < |ps| && buf == Layout(ps) + rest && |Layout(ps)| < U256_LIMIT
    ensures Readable(ps[k], buf, HeadsLen(ps[..k]), after)
  {
    LayoutPosition(ps, k);
    var pos := HeadsLen(ps[..k]);
    if ps[k].dynamic {
      after := ReadThrough(ps[k], buf, Layout(ps), rest, pos, HeadsLen(ps) + TailsLen(ps[..k]));
    } else {
      SplitAt(buf, Layout(ps), rest, pos, ps[k].enc);
      after := buf[pos + |ps[k].enc|..];
    }
  }

  lemma {:induction false} ReadThrough(p: Part, buf: bytes, region: bytes, rest: bytes, pos: nat, o: nat) returns (after: bytes)
    requires p.dynamic && buf == region + rest && |region| < U256_LIMIT
    requires pos + SLOT_SIZE <= |region| && region[pos..][..SLOT_SIZE] == Be32(o)
    requires o + |p.enc| <= |region| && region[o..][..|p.enc|] == p.enc
    ensures Readable(p, buf, pos, after)
  {
    SplitAt(buf, region, rest, pos, Be32(o));
    ReadBack(o, buf[pos + SLOT_SIZE..]);
    SplitAt(buf, region, rest, o, p.enc);
    after := buf[o + |p.enc|..];
  }

  lemma {:induction false} SplitAt(buf: bytes, region: bytes, rest: bytes, pos: nat, piece: bytes)
    requires buf == region + rest && pos + |piece| <= |region| && region[pos..][..|piece|] == piece
    ensures buf[pos..] == piece + buf[pos + |piece|..]
  {
    assert buf[pos..][..|piece|] == region[pos..][..|piece|];
  }

  lemma {:induction false} DecodeAtBack(depth: nat, s: Sol, t: AbiType, buf: bytes, pos: nat, after: bytes)
    requires HasType(s, t) && Depth(t) < depth && Readable(Part(IsDynamic(s), Enc(s)), buf, pos, after)
    requires Decode(t, Enc(s) + after) == Some(s)
    ensures DecodeAt(depth, t, buf, pos) == Some(s)
  {
    DynamicFollowsType(s, t);
  }

  lemma {:induction false} DecodeAllStep(depth: nat, ts: seq<AbiType>, t: AbiType, ts': seq<AbiType>, buf: bytes,
                      pos: nat, next: nat, s: Sol, rest: seq<Sol>)
    requires ts != [] && t == ts[0] && ts' == ts[1..] && next == pos + HeadLenOf(t)
    requires forall k :: 0 <= k < |ts| ==> Depth(ts[k]) < depth
    requires DecodeAt(depth, t, buf, pos) == Some(s)
    requires DecodeAll(depth, ts', buf, next) == Some(rest)
    ensures DecodeAll(depth, ts, buf, pos) == Some([s] + rest)
  {
  }

  lemma {:induction false} HeadsLenStep(ps: seq<Part>, k: nat)
    requires k < |ps|
    ensures HeadsLen(ps[..k + 1]) == HeadsLen(ps[..k]) + HeadLen(ps[k])
  {
    assert ps[..k + 1] == ps[..k] + [ps[k]];
    LensAppend(ps[..k], [ps[k]]);
    assert HeadsLen([ps[k]]) == HeadLen(ps[k]) + HeadsLen([]);
  }

  /** Decoding undoes encoding, whatever follows in the buffer. */
  lemma {:induction false} RoundTrip(s: Sol, t: AbiType, rest: bytes)
    requires HasType(s, t) && |Enc(s)| < U256_LIMIT
    ensures Decode(t, Enc(s) + rest) == Some(s)
    decreases s, 2
  {
    match s
    case DynArray(es) => DynArrayRoundTrip(s, t, rest);
    case FixedArray(e, es) =>
      var ts := Repeat(e, |es|);
      RoundTripAll(s, es, ts, Depth(t), Enc(s) + rest, rest, 0);
      assert ts[0..] == ts && es[0..] == es && Parts(es)[..0] == [];
    case Struct(fs) =>
      RoundTripAll(s, fs, t.fields, Depth(t), Enc(s) + rest, rest, 0);
      assert t.fields[0..] == t.fields && fs[0..] == fs && Parts(fs)[..0] == [];
    case _ => LeafRoundTrip(s, t, rest);
  }

  lemma {:induction false} DynArrayRoundTrip(s: Sol, t: AbiType, rest: bytes)
    requires s.DynArray? && HasType(s, t) && |Enc(s)| < U256_LIMIT
    ensures Decode(t, Enc(s) + rest) == Some(s)
    decreases s, 1
  {
    var es, ts := s.elems, Repeat(t.elem, |s.elems|);
    var region := Layout(Parts(es));
    assert Enc(s) + rest == Be32(|es|) + (region + rest);
    ReadBack(|es|, region + rest);
    RoundTripAll(s, es, ts, Depth(t), region + rest, rest, 0);
    assert ts[0..] == ts && es[0..] == es && Parts(es)[..0] == [];
  }

  lemma {:induction false} RoundTripAll(s: Sol, es: seq<Sol>, ts: seq<AbiType>, depth: nat, buf: bytes, rest: bytes, k: nat)
    requires k <= |es| == |ts| && buf == Layout(Parts(es)) + rest && |Layout(Parts(es))| < U256_LIMIT
    requires forall j :: 0 <= j < |es| ==> es[j] < s && HasType(es[j], ts[j]) && Depth(ts[j]) < depth
    ensures DecodeAll(depth, ts[k..], buf, HeadsLen(Parts(es)[..k])) == Some(es[k..])
    decreases s, 0, |es| - k
  {
    if k == |es| {
      assert ts[k..] == [] && es[k..] == [];
    } else {
      var pos, next := HeadsLen(Parts(es)[..k]), HeadsLen(Parts(es)[..k + 1]);
      NextHead(es, ts[k], k);
      ComponentRoundTrip(s, es, ts[k], depth, buf, rest, k);
      RoundTripAll(s, es, ts, depth, buf, rest, k + 1);
      SuffixSplit(ts, k);
      DecodeAllStep(depth, ts[k..], ts[k], ts[k + 1..], buf, pos, next, es[k], es[k + 1..]);
      SuffixSplit(es, k);
    }
  }

  lemma {:induction false} NextHead(es: seq<Sol>, t: AbiType, k: nat)
    requires k < |es| && HasType(es[k], t)
    ensures HeadsLen(Parts(es)[..k + 1]) == HeadsLen(Parts(es)[..k]) + HeadLenOf(t)
  {
    HeadLenTyped(es[k], t);
    HeadsLenStep(Parts(es), k);
  }

  lemma {:induction false} ComponentRoundTrip(s: Sol, es: seq<Sol>, t: AbiType, depth: nat, buf: bytes, rest: bytes, k: nat)
    requires k < |es| && buf == Layout(Parts(es)) + rest && |Layout(Parts(es))| < U256_LIMIT
    requires es[k] < s && HasType(es[k], t) && Depth(t) < depth
    ensures DecodeAt(depth, t, buf, HeadsLen(Parts(es)[..k])) == Some(es[k])
    decreases s, 0, 0
  {
    var ps := Parts(es);
    var after := ReadComponent(ps, k, buf, rest);
    ComponentFits(ps, k);
    RoundTrip(es[k], t, after);
    DecodeAtBack(depth, es[k], t, buf, HeadsLen(ps[..k]), after);
  }

  lemma SuffixSplit<T>(xs: seq<T>, k: nat)
    requires k < |xs|
    ensures xs[k..] == [xs[k]] + xs[k + 1..] && xs[k..][1..] == xs[k + 1..]
  {
  }

  lemma {:induction false} ComponentFits(ps: seq<Part>, k: nat)
    requires k < |ps|
    ensures |ps[k].enc| <= |Layout(ps)|
  {
    LayoutPosition(ps, k);
  }

  lemma {:induction false} AbiEncodeIsTuple(s: Sol)
    ensures AbiEncode(s) == Enc(Struct([s]))
  {
    assert Parts([s]) == [Part(IsDynamic(s), Enc(s))];
  }

  /** Two different values of one type never have the same encoding. */
  lemma {:induction false} AbiEncodeInjective(s: Sol, s': Sol, t: AbiType)
    requires HasType(s, t) && HasType(s', t)
    requires |AbiEncode(s)| < U256_LIMIT
    ensures AbiEncode(s) == AbiEncode(s') <==> s == s'
  {
    if AbiEncode(s) == AbiEncode(s') {
      AbiEncodeIsTuple(s);
      AbiEncodeIsTuple(s');
      RoundTrip(Struct([s]), TTuple([t]), []);
      RoundTrip(Struct([s']), TTuple([t]), []);
      assert Struct([s]).fields[0] == Struct([s']).fields[0];
    }
  }
}
