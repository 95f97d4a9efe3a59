/** Channel parameters and states with any number of assets and participants,
    how they are encoded, and the digest that gets signed. */
module Payment {
  import opened Bytes
  import opened SolidityAbi
  import opened Passes
  import opened Serializer
  import opened Refinement
  import opened Conformance
  import opened Decoder

  type u64 = n: nat | n < U64_LIMIT
  type U256 = n: nat | n < U256_LIMIT
  type Addr = b: bytes | |b| == 20 witness Fill(0, 20)
  type Hash = b: bytes | |b| == 32 witness Fill(0, 32)

  datatype Params = Params(
    challengeDuration: u64,
    nonce: U256,
    participants: seq<Addr>,
    app: Addr,
    ledgerChannel: bool,
    virtualChannel: bool
  )

  /** Which participant has how much of each asset: `balances[asset][participant]`. */
  datatype Allocation = Allocation(assets: seq<Addr>, balances: seq<seq<U256>>)

  datatype State = State(id: Hash, version: u64, outcome: Allocation, isFinal: bool)

  /** `a` assets and `p` participants: the const generics of the original. */
  predicate Shape(s: State, a: nat, p: nat) {
    |s.outcome.assets| == a == |s.outcome.balances| &&
    forall k :: 0 <= k < a ==> |s.outcome.balances[k]| == p
  }

  // ----- Encoding -----

  function BoolSol(b: bool): Sol { Uint(1, if b then 1 else 0) }

  function AddrsSol(addrs: seq<Addr>): (r: seq<Sol>)
    ensures |r| == |addrs| && forall k :: 0 <= k < |addrs| ==> r[k] == Address(addrs[k])
  {
    seq(|addrs|, k requires 0 <= k < |addrs| => Address(addrs[k]))
  }

  /** An asset is a struct with the holder as its only field. */
  function AssetsSol(addrs: seq<Addr>): (r: seq<Sol>)
    ensures |r| == |addrs| && forall k :: 0 <= k < |addrs| ==> r[k] == Struct([Address(addrs[k])])
  {
    seq(|addrs|, k requires 0 <= k < |addrs| => Struct([Address(addrs[k])]))
  }

  function AmountsSol(amounts: seq<U256>): (r: seq<Sol>)
    ensures |r| == |amounts| && forall k :: 0 <= k < |amounts| ==> r[k] == Uint(32, amounts[k])
  {
    seq(|amounts|, k requires 0 <= k < |amounts| => Uint(32, amounts[k]))
  }

  function BalancesSol(balances: seq<seq<U256>>): (r: seq<Sol>)
    ensures |r| == |balances| && forall k :: 0 <= k < |balances| ==> r[k] == DynArray(AmountsSol(balances[k]))
  {
    seq(|balances|, k requires 0 <= k < |balances| => DynArray(AmountsSol(balances[k])))
  }

  function ParamsSol(p: Params): Sol {
    Struct([Uint(8, p.challengeDuration), Uint(32, p.nonce), DynArray(AddrsSol(p.participants)),
            Address(p.app), BoolSol(p.ledgerChannel), BoolSol(p.virtualChannel)])
  }

  /** The third field holds the locked funds, of which there are none. */
  function OutcomeSol(o: Allocation): Sol {
    Struct([DynArray(AssetsSol(o.assets)), DynArray(BalancesSol(o.balances)), DynArray([])])
  }

  /** The application data is the empty byte string. */
  function StateSol(s: State): Sol {
    Struct([FixedBytes(s.id), Uint(8, s.version), OutcomeSol(s.outcome), DynBytes([]), BoolSol(s.isFinal)])
  }

  function OutcomeType(): AbiType {
    TTuple([TDynArray(TTuple([TAddress])), TDynArray(TDynArray(TUint(32))), TDynArray(TUint(32))])
  }

  function StateType(): AbiType {
    TTuple([TFixedBytes(32), TUint(8), OutcomeType(), TBytes, TUint(1)])
  }

  function ParamsType(): AbiType {
    TTuple([TUint(8), TUint(32), TDynArray(TAddress), TAddress, TUint(1), TUint(1)])
  }

  // ----- Closed-form sizes -----

  function StateSize(a: nat, p: nat): nat { 32 * (13 + 3 * a + a * p) }

  function ParamsSize(p: nat): nat { 32 * (8 + p) }

  /** The length of an encoding, without the encoding. */
  function EncLen(s: Sol): nat {
    match s
    case FixedBytes(b) => PaddedLen(|b|)
    case DynBytes(b) => SLOT_SIZE + PaddedLen(|b|)
    case Text(b) => SLOT_SIZE + PaddedLen(|b|)
    case DynArray(es) => SLOT_SIZE + EncLens(es)
    case FixedArray(_, es) => EncLens(es)
    case Struct(fs) => EncLens(fs)
    case _ => SLOT_SIZE
  }

  function EncLens(ss: seq<Sol>): nat {
    if ss == [] then 0 else (if IsDynamic(ss[0]) then SLOT_SIZE else 0) + EncLen(ss[0]) + EncLens(ss[1..])
  }

  lemma {:induction false} EncLenExact(s: Sol)
    ensures |Enc(s)| == EncLen(s)
    decreases s, 1
  {
    match s
    case DynArray(es) => EncLensExact(s, es);
    case FixedArray(_, es) => EncLensExact(s, es);
    case Struct(fs) => EncLensExact(s, fs);
    case _ =>
  }

  lemma {:induction false} EncLensExact(s: Sol, ss: seq<Sol>)
    requires forall k :: 0 <= k < |ss| ==> ss[k] < s
    ensures |Layout(Parts(ss))| == EncLens(ss)
    decreases s, 0, |ss|
  {
    LayoutLength(Parts(ss));
    if ss != [] {
      EncLenExact(ss[0]);
      EncLensExact(s, ss[1..]);
      LayoutLength(Parts(ss[1..]));
      assert Parts(ss)[1..] == Parts(ss[1..]);
    }
  }

  lemma {:induction false} UniformLens(ss: seq<Sol>, w: nat)
    requires forall k :: 0 <= k < |ss| ==> (if IsDynamic(ss[k]) then SLOT_SIZE else 0) + EncLen(ss[k]) == w
    ensures EncLens(ss) == |ss| * w
  {
    if ss != [] {
      UniformLens(ss[1..], w);
      OneMore(|ss|, w);
    }
  }

  /** What a component adds to its tuple. */
  function Share(s: Sol): nat {
    (if IsDynamic(s) then SLOT_SIZE else 0) + EncLen(s)
  }

  lemma {:induction false} ConsLens(s: Sol, ss: seq<Sol>)
    ensures EncLens([s] + ss) == Share(s) + EncLens(ss)
    ensures IsDynamic(Struct([s] + ss)) <==> IsDynamic(s) || IsDynamic(Struct(ss))
  {
    var all := [s] + ss;
    assert all[1..] == ss;
    assert forall k :: 0 <= k < |ss| ==> ss[k] == all[k + 1];
    assert all[0] == s;
  }

  lemma {:induction false} ThreeFields(a: Sol, b: Sol, c: Sol)
    ensures EncLens([a, b, c]) == Share(a) + Share(b) + Share(c)
    ensures IsDynamic(Struct([a, b, c])) <==> IsDynamic(a) || IsDynamic(b) || IsDynamic(c)
  {
    ConsLens(c, []);
    ConsLens(b, [c]);
    ConsLens(a, [b, c]);
    assert [c] + [] == [c] && [b] + [c] == [b, c] && [a] + [b, c] == [a, b, c];
  }

  lemma {:induction false} FiveFields(a: Sol, b: Sol, c: Sol, d: Sol, e: Sol)
    ensures EncLens([a, b, c, d, e]) == Share(a) + Share(b) + Share(c) + Share(d) + Share(e)
  {
    ThreeFields(c, d, e);
    ConsLens(b, [c, d, e]);
    ConsLens(a, [b, c, d, e]);
    assert [b] + [c, d, e] == [b, c, d, e] && [a] + [b, c, d, e] == [a, b, c, d, e];
  }

  lemma {:induction false} SixFields(a: Sol, b: Sol, c: Sol, d: Sol, e: Sol, f: Sol)
    ensures EncLens([a, b, c, d, e, f]) == Share(a) + Share(b) + Share(c) + Share(d) + Share(e) + Share(f)
  {
    FiveFields(b, c, d, e, f);
    ConsLens(a, [b, c, d, e, f]);
    assert [a] + [b, c, d, e, f] == [a, b, c, d, e, f];
  }

  lemma {:induction false} AssetsLen(assets: seq<Addr>)
    ensures EncLens(AssetsSol(assets)) == |assets| * 32
  {
    var es := AssetsSol(assets);
    forall k | 0 <= k < |es|
      ensures !IsDynamic(es[k]) && EncLen(es[k]) == 32
    {
      var x := Address(assets[k]);
      ConsLens(x, []);
      assert [x] + [] == [x];
    }
    UniformLens(es, 32);
  }

  lemma {:induction false} BalancesLen(balances: seq<seq<U256>>, p: nat)
    requires forall k :: 0 <= k < |balances| ==> |balances[k]| == p
    ensures EncLens(BalancesSol(balances)) == |balances| * (64 + p * 32)
  {
    var es := BalancesSol(balances);
    forall k | 0 <= k < |es|
      ensures IsDynamic(es[k]) && EncLen(es[k]) == 32 + p * 32
    {
      UniformLens(AmountsSol(balances[k]), 32);
    }
    UniformLens(es, 64 + p * 32);
  }

  lemma {:induction false} OutcomeLen(o: Allocation, a: nat, p: nat)
    requires |o.assets| == a == |o.balances| && forall k :: 0 <= k < a ==> |o.balances[k]| == p
    ensures EncLen(OutcomeSol(o)) == 32 * (6 + 3 * a + a * p) && IsDynamic(OutcomeSol(o))
  {
    AssetsLen(o.assets);
    BalancesLen(o.balances, p);
    ThreeFields(DynArray(AssetsSol(o.assets)), DynArray(BalancesSol(o.balances)), DynArray([]));
    assert a * (64 + p * 32) == 64 * a + 32 * (a * p);
  }

  /** A state with `a` assets and `p` participants takes 13 + 3a + ap slots. */
  lemma {:induction false} StateEncodingSize(s: State, a: nat, p: nat)
    requires Shape(s, a, p)
    ensures |AbiEncode(StateSol(s))| == StateSize(a, p)
  {
    var outcome := OutcomeSol(s.outcome);
    OutcomeLen(s.outcome, a, p);
    FiveFields(FixedBytes(s.id), Uint(8, s.version), outcome, DynBytes([]), BoolSol(s.isFinal));
    assert Share(outcome) == 32 + 32 * (6 + 3 * a + a * p);
    assert IsDynamic(StateSol(s).fields[2]);
    SingleSize(StateSol(s));
  }

  /** Parameters with `p` participants take 8 + p slots. */
  lemma {:induction false} ParamsEncodingSize(params: Params)
    ensures |AbiEncode(ParamsSol(params))| == ParamsSize(|params.participants|)
  {
    var parts := AddrsSol(params.participants);
    UniformLens(parts, 32);
    SixFields(Uint(8, params.challengeDuration), Uint(32, params.nonce), DynArray(parts), Address(params.app),
              BoolSol(params.ledgerChannel), BoolSol(params.virtualChannel));
    assert IsDynamic(ParamsSol(params).fields[2]);
    SingleSize(ParamsSol(params));
  }

  lemma {:induction false} SingleSize(s: Sol)
    ensures |AbiEncode(s)| == Share(s)
  {
    EncLenExact(s);
    SingleLayout(StandardPart(s));
  }

  // ----- Injectivity and digests -----

  /** A state of regular shape whose encoding fits in memory. */
  predicate Encodable(s: State) {
    var a := |s.outcome.assets|;
    var p := if |s.outcome.balances| > 0 then |s.outcome.balances[0]| else 0;
    Shape(s, a, p) && StateSize(a, p) <= USIZE_MAX
  }

  /** Values for which the streamed bytes are the standard's. */
  ghost predicate Clean(s: Sol, t: AbiType) {
    Holds(s, t) && !HasEmptyDynamicArray(s) && !HasNegativeInt128(s)
  }

  lemma {:induction false} CleanU64(n: u64)
    ensures Clean(Uint(8, n), TUint(8))
  {
    Limits();
  }

  lemma {:induction false} CleanU256(n: U256)
    ensures Clean(Uint(32, n), TUint(32))
  {
    Limits();
  }

  lemma {:induction false} CleanLeaves(h: Hash, a: Addr, b: bool)
    ensures Clean(FixedBytes(h), TFixedBytes(32)) && Clean(DynBytes([]), TBytes)
    ensures Clean(Address(a), TAddress) && Clean(BoolSol(b), TUint(1))
  {
  }

  lemma {:induction false} CleanArray(es: seq<Sol>, t: AbiType)
    requires |es| <= USIZE_MAX && forall k :: 0 <= k < |es| ==> Clean(es[k], t)
    ensures Clean(DynArray(es), TDynArray(t))
  {
    Pow256Grows(USIZE_BYTES, 32);
    Limits();
  }

  lemma {:induction false} CleanStruct(fs: seq<Sol>, ts: seq<AbiType>)
    requires |fs| == |ts| && forall k :: 0 <= k < |fs| ==> Clean(fs[k], ts[k])
    ensures Clean(Struct(fs), TTuple(ts))
  {
  }

  lemma {:induction false} CleanJoin(fs: seq<Sol>, gs: seq<Sol>, ts: seq<AbiType>, us: seq<AbiType>)
    requires Clean(Struct(fs), TTuple(ts)) && Clean(Struct(gs), TTuple(us))
    ensures Clean(Struct(fs + gs), TTuple(ts + us))
  {
    forall k | 0 <= k < |fs + gs|
      ensures Clean((fs + gs)[k], (ts + us)[k])
    {
      if k < |fs| {
        assert Clean(fs[k], ts[k]);
      } else {
        assert Clean(gs[k - |fs|], us[k - |fs|]);
      }
    }
    CleanStruct(fs + gs, ts + us);
  }

  lemma {:induction false} CleanThree(a: Sol, b: Sol, c: Sol, ta: AbiType, tb: AbiType, tc: AbiType)
    requires Clean(a, ta) && Clean(b, tb) && Clean(c, tc)
    ensures Clean(Struct([a, b, c]), TTuple([ta, tb, tc]))
  {
    CleanStruct([a, b, c], [ta, tb, tc]);
  }

  lemma {:induction false} CleanFive(a: Sol, b: Sol, c: Sol, d: Sol, e: Sol)
    requires Clean(a, TFixedBytes(32)) && Clean(b, TUint(8)) && Clean(c, OutcomeType())
    requires Clean(d, TBytes) && Clean(e, TUint(1))
    ensures Clean(Struct([a, b, c, d, e]), StateType())
  {
    CleanStruct([a, b, c, d, e], StateType().fields);
  }

  lemma {:induction false} CleanSix(a: Sol, b: Sol, c: Sol, d: Sol, e: Sol, f: Sol,
                 ta: AbiType, tb: AbiType, tc: AbiType, td: AbiType, te: AbiType, tf: AbiType)
    requires Clean(a, ta) && Clean(b, tb) && Clean(c, tc) && Clean(d, td) && Clean(e, te) && Clean(f, tf)
    ensures Clean(Struct([a, b, c, d, e, f]), TTuple([ta, tb, tc, td, te, tf]))
  {
    CleanThree(a, b, c, ta, tb, tc);
    CleanThree(d, e, f, td, te, tf);
    CleanJoin([a, b, c], [d, e, f], [ta, tb, tc], [td, te, tf]);
    assert [a, b, c] + [d, e, f] == [a, b, c, d, e, f];
    assert [ta, tb, tc] + [td, te, tf] == [ta, tb, tc, td, te, tf];
  }

  lemma {:induction false} CleanOutcome(o: Allocation, p: nat)
    requires |o.assets| == |o.balances| <= USIZE_MAX
    requires forall k :: 0 <= k < |o.balances| ==> |o.balances[k]| == p <= USIZE_MAX
    ensures Clean(OutcomeSol(o), OutcomeType())
  {
    forall k | 0 <= k < |o.assets|
      ensures Clean(AssetsSol(o.assets)[k], TTuple([TAddress]))
    {
      CleanStruct([Address(o.assets[k])], [TAddress]);
    }
    CleanArray(AssetsSol(o.assets), TTuple([TAddress]));
    forall k | 0 <= k < |o.balances|
      ensures Clean(BalancesSol(o.balances)[k], TDynArray(TUint(32)))
    {
      forall i | 0 <= i < |o.balances[k]|
        ensures Clean(AmountsSol(o.balances[k])[i], TUint(32))
      {
        CleanU256(o.balances[k][i]);
      }
      CleanArray(AmountsSol(o.balances[k]), TUint(32));
    }
    CleanArray(BalancesSol(o.balances), TDynArray(TUint(32)));
    CleanArray([], TUint(32));
    CleanStruct(OutcomeSol(o).fields, OutcomeType().fields);
  }

  lemma {:induction false} CleanState(s: State, outcome: Sol)
    requires outcome == OutcomeSol(s.outcome) && Clean(outcome, OutcomeType())
    ensures Clean(StateSol(s), StateType())
  {
    CleanU64(s.version);
    CleanLeaves(s.id, Fill(0, 20), s.isFinal);
    CleanFive(FixedBytes(s.id), Uint(8, s.version), outcome, DynBytes([]), BoolSol(s.isFinal));
  }

  lemma {:induction false} StateClean(s: State)
    requires Encodable(s)
    ensures Clean(StateSol(s), StateType()) && |AbiEncode(StateSol(s))| <= USIZE_MAX
  {
    var a := |s.outcome.assets|;
    var p := if |s.outcome.balances| > 0 then |s.outcome.balances[0]| else 0;
    StateEncodingSize(s, a, p);
    SizeBounds(a, p, USIZE_MAX);
    CleanOutcome(s.outcome, p);
    CleanState(s, OutcomeSol(s.outcome));
  }

  lemma {:induction false} SizeBounds(a: nat, p: nat, bound: nat)
    requires StateSize(a, p) <= bound
    ensures a <= bound && (a > 0 ==> p <= bound)
  {
    assert a > 0 ==> a * p >= p;
  }

  lemma {:induction false} ParamsClean(params: Params)
    requires ParamsSize(|params.participants|) <= USIZE_MAX
    ensures Clean(ParamsSol(params), ParamsType()) && |AbiEncode(ParamsSol(params))| <= USIZE_MAX
  {
    ParamsEncodingSize(params);
    CleanArray(AddrsSol(params.participants), TAddress);
    CleanU64(params.challengeDuration);
    CleanU256(params.nonce);
    CleanLeaves(Fill(0, 32), params.app, params.ledgerChannel);
    CleanLeaves(Fill(0, 32), params.app, params.virtualChannel);
    CleanSix(Uint(8, params.challengeDuration), Uint(32, params.nonce), DynArray(AddrsSol(params.participants)),
             Address(params.app), BoolSol(params.ledgerChannel), BoolSol(params.virtualChannel),
             TUint(8), TUint(32), TDynArray(TAddress), TAddress, TUint(1), TUint(1));
  }

  lemma {:induction false} StateSolInjective(s: State, s': State)
    requires StateSol(s) == StateSol(s')
    ensures s == s'
  {
    var f, f' := StateSol(s).fields, StateSol(s').fields;
    assert f[0] == f'[0] && f[1] == f'[1] && f[2] == f'[2] && f[4] == f'[4];
    var o, o' := f[2].fields, f'[2].fields;
    assert o[0] == o'[0] && o[1] == o'[1];
    var assets, assets' := o[0].elems, o'[0].elems;
    forall k | 0 <= k < |s.outcome.assets|
      ensures s.outcome.assets[k] == s'.outcome.assets[k]
    {
      assert assets[k].fields[0] == assets'[k].fields[0];
    }
    var rows, rows' := o[1].elems, o'[1].elems;
    forall k | 0 <= k < |s.outcome.balances|
      ensures s.outcome.balances[k] == s'.outcome.balances[k]
    {
      assert rows[k].elems == rows'[k].elems;
      AmountsInjective(s.outcome.balances[k], s'.outcome.balances[k]);
    }
  }

  lemma {:induction false} AmountsInjective(a: seq<U256>, b: seq<U256>)
    requires AmountsSol(a) == AmountsSol(b)
    ensures a == b
  {
    forall k | 0 <= k < |a|
      ensures a[k] == b[k]
    {
      assert AmountsSol(a)[k] == AmountsSol(b)[k];
    }
  }

  /** The bytes that reach the hash function. */
  function HashInput(s: State): bytes {
    Stream(Represent(StateSol(s)), true)
  }

  /** `to_hash` up to the hash function: the streaming serializer feeds it. */
  method StreamState(s: State) returns (input: bytes)
    requires Encodable(s)
    ensures input == HashInput(s) == AbiEncode(StateSol(s))
  {
    StateClean(s);
    StreamIsAbiEncode(StateSol(s), StateType());
    var writer := new Writer();
    var r := AbiEncodeTo(StateSol(s), StateType(), writer);
    input := writer.out;
  }

  /** What is streamed for a state has that size, in whole slots. */
  lemma {:induction false} StateStreamSize(s: State, a: nat, p: nat)
    requires Shape(s, a, p) && StateSize(a, p) <= USIZE_MAX
    ensures |HashInput(s)| == StateSize(a, p) == SLOT_SIZE * (13 + 3 * a + a * p)
  {
    assert a > 0 ==> |s.outcome.balances[0]| == p;
    assert a == 0 ==> StateSize(a, 0) == StateSize(a, p);
    StateClean(s);
    StreamIsAbiEncode(StateSol(s), StateType());
    StateEncodingSize(s, a, p);
  }

  /** The bytes that the channel id is the hash of. */
  function IdInput(p: Params): bytes {
    Stream(Represent(ParamsSol(p)), true)
  }

  lemma {:induction false} ParamsStreamSize(p: Params)
    requires ParamsSize(|p.participants|) <= USIZE_MAX
    ensures |IdInput(p)| == ParamsSize(|p.participants|) == SLOT_SIZE * (8 + |p.participants|)
  {
    ParamsClean(p);
    StreamIsAbiEncode(ParamsSol(p), ParamsType());
    ParamsEncodingSize(p);
  }

  /** Different states never stream the same bytes into the hash. */
  lemma {:induction false} StateStreamInjective(s: State, s': State)
    requires Encodable(s) && Encodable(s') && HashInput(s) == HashInput(s')
    ensures s == s'
  {
    StateClean(s);
    StateClean(s');
    StreamIsAbiEncode(StateSol(s), StateType());
    StreamIsAbiEncode(StateSol(s'), StateType());
    Pow256Grows(USIZE_BYTES, 32);
    Limits();
    AbiEncodeInjective(StateSol(s), StateSol(s'), StateType());
    StateSolInjective(s, s');
  }

  /** An ideal digest: one per state. */
  datatype Digest = StateDigest(state: State)

  /** A hash without a collision on the two inputs tells states apart exactly as
      the ideal digest does. */
  lemma {:induction false} IdealDigest<T>(hash: bytes -> T, s: State, s': State)
    requires Encodable(s) && Encodable(s')
    requires hash(HashInput(s)) == hash(HashInput(s')) ==> HashInput(s) == HashInput(s')
    ensures hash(HashInput(s)) == hash(HashInput(s')) <==> StateDigest(s) == StateDigest(s')
  {
    if HashInput(s) == HashInput(s') {
      StateStreamInjective(s, s');
    }
  }

  /** Different parameters never stream the same bytes into the channel id. */
  lemma {:induction false} ParamsStreamInjective(p: Params, p': Params)
    requires ParamsSize(|p.participants|) <= USIZE_MAX && ParamsSize(|p'.participants|) <= USIZE_MAX
    requires IdInput(p) == IdInput(p')
    ensures p == p'
  {
    ParamsClean(p);
    ParamsClean(p');
    StreamIsAbiEncode(ParamsSol(p), ParamsType());
    StreamIsAbiEncode(ParamsSol(p'), ParamsType());
    Pow256Grows(USIZE_BYTES, 32);
    Limits();
    AbiEncodeInjective(ParamsSol(p), ParamsSol(p'), ParamsType());
    ParamsSolInjective(p, p');
  }

  lemma {:induction false} ParamsSolInjective(p: Params, p': Params)
    requires ParamsSol(p) == ParamsSol(p')
    ensures p == p'
  {
    var f, f' := ParamsSol(p).fields, ParamsSol(p').fields;
    assert forall k :: 0 <= k < 6 ==> f[k] == f'[k];
    assert f[0] == f'[0] && f[1] == f'[1] && f[2] == f'[2] && f[3] == f'[3] && f[4] == f'[4] && f[5] == f'[5];
    forall k | 0 <= k < |p.participants|
      ensures p.participants[k] == p'.participants[k]
    {
      assert f[2].elems[k] == f'[2].elems[k];
    }
  }
}
