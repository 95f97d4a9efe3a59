/** The reference: the encoding `enc` of the Contract ABI Specification of
    Solidity v0.8.17, section "Formal Specification of the Encoding". It is
    buffered and recursive and knows nothing about passes or running offsets. */
module SolidityAbi {
  import opened Bytes

  /** The types the Rust library can express. `width` counts bytes. */
  datatype AbiType =
    | TUint(width: nat)
    | TInt(width: nat)
    | TAddress
    | TFixedBytes(size: nat)
    | TBytes
    | TString
    | TDynArray(elem: AbiType)
    | TFixedArray(elem: AbiType, size: nat)
    | TTuple(fields: seq<AbiType>)

  /** Values. A fixed array keeps its element type, because an empty one would
      otherwise not determine its own type. */
  datatype Sol =
    | Uint(width: nat, n: nat)
    | Int(width: nat, i: int)
    | Address(addr: bytes)
    | FixedBytes(data: bytes)
    | DynBytes(data: bytes)
    | Text(utf8: bytes)
    | DynArray(elems: seq<Sol>)
    | FixedArray(elem: AbiType, elems: seq<Sol>)
    | Struct(fields: seq<Sol>)

  /** The integer widths serde offers: 8 to 128 bits. */
  predicate NativeWidth(w: nat) {
    w == 1 || w == 2 || w == 4 || w == 8 || w == 16
  }

  predicate HasType(s: Sol, t: AbiType) {
    match s
    case Uint(w, n) => t == TUint(w) && (NativeWidth(w) || w == 32) && n < Pow256(w)
    case Int(w, i) => t == TInt(w) && NativeWidth(w) && -Pow256(w) <= 2 * i < Pow256(w)
    case Address(a) => t == TAddress && |a| == 20
    case FixedBytes(b) => t == TFixedBytes(|b|) && 1 <= |b| <= SLOT_SIZE
    case DynBytes(_) => t == TBytes
    case Text(_) => t == TString
    case DynArray(es) => t.TDynArray? && |es| < U256_LIMIT && forall k :: 0 <= k < |es| ==> HasType(es[k], t.elem)
    case FixedArray(e, es) => t == TFixedArray(e, |es|) && forall k :: 0 <= k < |es| ==> HasType(es[k], e)
    case Struct(fs) => t.TTuple? && |t.fields| == |fs| && forall k :: 0 <= k < |fs| ==> HasType(fs[k], t.fields[k])
  }

  /** Which types the standard calls dynamic. */
  predicate TypeIsDynamic(t: AbiType) {
    match t
    case TBytes => true
    case TString => true
    case TDynArray(_) => true
    case TFixedArray(e, _) => TypeIsDynamic(e)
    case TTuple(ts) => exists k :: 0 <= k < |ts| && TypeIsDynamic(ts[k])
    case _ => false
  }

  predicate IsDynamic(s: Sol) {
    match s
    case DynBytes(_) => true
    case Text(_) => true
    case DynArray(_) => true
    case FixedArray(e, _) => TypeIsDynamic(e)
    case Struct(fs) => exists k :: 0 <= k < |fs| && IsDynamic(fs[k])
    case _ => false
  }

  lemma {:induction false} DynamicFollowsType(s: Sol, t: AbiType)
    requires HasType(s, t)
    ensures IsDynamic(s) == TypeIsDynamic(t)
  {
    if s.Struct? {
      forall k | 0 <= k < |s.fields|
        ensures IsDynamic(s.fields[k]) == TypeIsDynamic(t.fields[k])
      {
        DynamicFollowsType(s.fields[k], t.fields[k]);
      }
    }
  }

  // ----- The head/tail layout of a tuple -----

  /** What the layout needs to know about one tuple component. */
  datatype Part = Part(dynamic: bool, enc: bytes)

  function HeadLen(p: Part): nat {
    if p.dynamic then SLOT_SIZE else |p.enc|
  }

  function HeadsLen(ps: seq<Part>): nat {
    if ps == [] then 0 else HeadLen(ps[0]) + HeadsLen(ps[1..])
  }

  function TailLen(p: Part): nat {
    if p.dynamic then |p.enc| else 0
  }

  function TailsLen(ps: seq<Part>): nat {
    if ps == [] then 0 else TailLen(ps[0]) + TailsLen(ps[1..])
  }

  /** `head(X(k))`: the encoding itself, or the distance from the start of the
      tuple to the tail of component `k`. */
  function Head(ps: seq<Part>, k: nat): (r: bytes)
    requires k < |ps|
    ensures |r| == HeadLen(ps[k])
  {
    if ps[k].dynamic then Be32(HeadsLen(ps) + TailsLen(ps[..k])) else ps[k].enc
  }

  function HeadsFrom(ps: seq<Part>, k: nat): (r: bytes)
    requires k <= |ps|
    decreases |ps| - k
  {
    if k == |ps| then [] else Head(ps, k) + HeadsFrom(ps, k + 1)
  }

  function Tails(ps: seq<Part>): bytes {
    if ps == [] then [] else (if ps[0].dynamic then ps[0].enc else []) + Tails(ps[1..])
  }

  function Layout(ps: seq<Part>): bytes {
    HeadsFrom(ps, 0) + Tails(ps)
  }

  // ----- enc -----

  function Parts(ss: seq<Sol>): (ps: seq<Part>)
    ensures |ps| == |ss|
    ensures forall k :: 0 <= k < |ss| ==> ps[k] == Part(IsDynamic(ss[k]), Enc(ss[k]))
  {
    if ss == [] then [] else [Part(IsDynamic(ss[0]), Enc(ss[0]))] + Parts(ss[1..])
  }

  function Enc(s: Sol): bytes {
    match s
    case Uint(_, n) => Be32(n)
    case Int(_, i) => Be32(i)
    case Address(a) => Be32(FromBe(a))
    case FixedBytes(b) => PadRight(b)
    case DynBytes(b) => Be32(|b|) + PadRight(b)
    case Text(b) => Be32(|b|) + PadRight(b)
    case DynArray(es) => Be32(|es|) + Layout(Parts(es))
    case FixedArray(_, es) => Layout(Parts(es))
    case Struct(fs) => Layout(Parts(fs))
  }

  /** What Solidity's `abi.encode(s)` returns: a one-component tuple. */
  function AbiEncode(s: Sol): bytes {
    Layout([Part(IsDynamic(s), Enc(s))])
  }

  // ----- Facts about layouts -----

  lemma {:induction false} LensAppend(ps: seq<Part>, qs: seq<Part>)
    ensures HeadsLen(ps + qs) == HeadsLen(ps) + HeadsLen(qs)
    ensures TailsLen(ps + qs) == TailsLen(ps) + TailsLen(qs)
    ensures Tails(ps + qs) == Tails(ps) + Tails(qs)
  {
    HeadsLenAppend(ps, qs);
    TailsLenAppend(ps, qs);
    TailsAppend(ps, qs);
  }

  lemma {:induction false} HeadsLenAppend(ps: seq<Part>, qs: seq<Part>)
    ensures HeadsLen(ps + qs) == HeadsLen(ps) + HeadsLen(qs)
  {
    if ps == [] {
      assert ps + qs == qs;
    } else {
      HeadsLenAppend(ps[1..], qs);
      assert (ps + qs)[1..] == ps[1..] + qs;
    }
  }

  lemma {:induction false} TailsLenAppend(ps: seq<Part>, qs: seq<Part>)
    ensures TailsLen(ps + qs) == TailsLen(ps) + TailsLen(qs)
  {
    if ps == [] {
      assert ps + qs == qs;
    } else {
      TailsLenAppend(ps[1..], qs);
      assert (ps + qs)[1..] == ps[1..] + qs;
    }
  }

  lemma {:induction false} TailsAppend(ps: seq<Part>, qs: seq<Part>)
    ensures Tails(ps + qs) == Tails(ps) + Tails(qs)
  {
    if ps == [] {
      assert ps + qs == qs;
    } else {
      var first := if ps[0].dynamic then ps[0].enc else [];
      TailsAppend(ps[1..], qs);
      assert (ps + qs)[0] == ps[0] && (ps + qs)[1..] == ps[1..] + qs;
      Reassociate(first, Tails(ps[1..]), Tails(qs));
    }
  }

  lemma Reassociate(a: bytes, b: bytes, c: bytes)
    ensures a + b + c == a + (b + c)
  {
  }

  lemma {:induction false} TailsLength(ps: seq<Part>)
    ensures |Tails(ps)| == TailsLen(ps)
  {
    if ps != [] {
      TailsLength(ps[1..]);
    }
  }

  lemma {:induction false} HeadsLength(ps: seq<Part>, k: nat)
    requires k <= |ps|
    ensures |HeadsFrom(ps, k)| == HeadsLen(ps[k..])
    decreases |ps| - k
  {
    if k < |ps| {
      HeadsLength(ps, k + 1);
      assert ps[k..][1..] == ps[k + 1..];
    }
  }

  lemma {:induction false} LayoutLength(ps: seq<Part>)
    ensures |Layout(ps)| == HeadsLen(ps) + TailsLen(ps)
  {
    HeadsLength(ps, 0);
    TailsLength(ps);
    assert ps[0..] == ps;
  }

  /** The offset written in a head is where that tail starts, and the static
      components sit at the sum of the preceding head lengths. */
  lemma {:induction false} LayoutPosition(ps: seq<Part>, k: nat)
    requires k < |ps|
    ensures HeadsLen(ps[..k]) + HeadLen(ps[k]) <= HeadsLen(ps) <= |Layout(ps)|
    ensures Layout(ps)[HeadsLen(ps[..k])..][..HeadLen(ps[k])] == Head(ps, k)
    ensures ps[k].dynamic ==>
              var o := HeadsLen(ps) + TailsLen(ps[..k]);
              o + |ps[k].enc| <= |Layout(ps)| && Layout(ps)[o..][..|ps[k].enc|] == ps[k].enc
  {
    LayoutLength(ps);
    HeadsLength(ps, 0);
    assert ps[0..] == ps;
    HeadsSplit(ps, 0, k);
    assert ps[0..k] == ps[..k];
    assert ps == ps[..k] + ps[k..];
    LensAppend(ps[..k], ps[k..]);
    TailsLength(ps[..k]);
    TailsLength(ps[k..]);
    if ps[k].dynamic {
      var o := HeadsLen(ps) + TailsLen(ps[..k]);
      assert Layout(ps) == HeadsFrom(ps, 0) + Tails(ps[..k]) + (ps[k].enc + Tails(ps[k..][1..]));
      assert Layout(ps)[o..] == ps[k].enc + Tails(ps[k..][1..]);
    }
  }

  lemma {:induction false} HeadsSplit(ps: seq<Part>, j: nat, k: nat)
    requires j <= k < |ps|
    ensures HeadsLen(ps[j..k]) + HeadLen(ps[k]) <= HeadsLen(ps[j..]) == |HeadsFrom(ps, j)|
    ensures HeadsFrom(ps, j)[HeadsLen(ps[j..k])..][..HeadLen(ps[k])] == Head(ps, k)
    decreases k - j
  {
    HeadsLength(ps, j);
    HeadsLength(ps, j + 1);
    assert ps[j..][1..] == ps[j + 1..];
    if j == k {
      assert HeadsFrom(ps, j)[0..] == HeadsFrom(ps, j);
    } else {
      HeadsSplit(ps, j + 1, k);
      assert ps[j..k][1..] == ps[j + 1..k];
      var n := HeadsLen(ps[j + 1..k]);
      assert HeadsFrom(ps, j)[HeadLen(ps[j]) + n..] == HeadsFrom(ps, j + 1)[n..];
    }
  }

  /** Two tuples of the same shape. */
  predicate SameShape(ps: seq<Part>, qs: seq<Part>) {
    |ps| == |qs| &&
    forall k :: 0 <= k < |ps| ==> ps[k].dynamic == qs[k].dynamic && |ps[k].enc| == |qs[k].enc|
  }

  /** For a given shape the layout determines every component. */
  lemma {:induction false} LayoutInjective(ps: seq<Part>, qs: seq<Part>)
    requires SameShape(ps, qs) && Layout(ps) == Layout(qs)
    ensures ps == qs
  {
    forall k | 0 <= k < |ps|
      ensures ps[k] == qs[k]
    {
      LayoutPosition(ps, k);
      LayoutPosition(qs, k);
      SameLens(ps, qs);
      SameLens(ps[..k], qs[..k]);
    }
  }

  lemma {:induction false} SameLens(ps: seq<Part>, qs: seq<Part>)
    requires SameShape(ps, qs)
    ensures HeadsLen(ps) == HeadsLen(qs) && TailsLen(ps) == TailsLen(qs)
  {
    if ps != [] {
      SameLens(ps[1..], qs[1..]);
    }
  }
}
