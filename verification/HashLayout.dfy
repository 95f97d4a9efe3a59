/** Slot by slot, the bytes that reach the hash function, in terms of the fields of
    states and parameters and of nothing else. */
module HashLayout {
  import opened Bytes
  import opened SolidityAbi
  import opened Passes
  import opened Refinement
  import opened Conformance
  import opened Payment

  // ----- Sequences of slots -----

  function Flat(slots: seq<bytes>): bytes {
    if slots == [] then [] else slots[0] + Flat(slots[1..])
  }

  predicate AllSlots(slots: seq<bytes>) {
    forall k :: 0 <= k < |slots| ==> |slots[k]| == SLOT_SIZE
  }

  /** Slot `n` of a byte string. */
  function SlotAt(b: bytes, n: nat): bytes
    requires SLOT_SIZE * (n + 1) <= |b|
  {
    b[SLOT_SIZE * n..SLOT_SIZE * (n + 1)]
  }

  lemma {:induction false} FlatAppend(a: seq<bytes>, b: seq<bytes>)
    ensures Flat(a + b) == Flat(a) + Flat(b)
  {
    if a == [] {
      assert a + b == b;
    } else {
      FlatAppend(a[1..], b);
      assert (a + b)[0] == a[0] && (a + b)[1..] == a[1..] + b;
      Reassociate(a[0], Flat(a[1..]), Flat(b));
    }
  }

  lemma {:induction false} FlatLength(slots: seq<bytes>)
    requires AllSlots(slots)
    ensures |Flat(slots)| == SLOT_SIZE * |slots|
  {
    if slots != [] {
      FlatLength(slots[1..]);
    }
  }

  lemma {:induction false} FlatAt(slots: seq<bytes>, n: nat)
    requires AllSlots(slots) && n < |slots|
    ensures |Flat(slots)| == SLOT_SIZE * |slots| && SlotAt(Flat(slots), n) == slots[n]
  {
    FlatLength(slots);
    var front, later := slots[..n], slots[n + 1..];
    assert slots == front + ([slots[n]] + later);
    FlatAppend(front, [slots[n]] + later);
    FlatLength(front);
    assert ([slots[n]] + later)[1..] == later;
    Middle(Flat(front), slots[n], Flat(later), SLOT_SIZE * n);
  }

  lemma Middle(a: bytes, b: bytes, c: bytes, n: nat)
    requires |a| == n
    ensures (a + (b + c))[n..n + |b|] == b
  {
  }

  // ----- The slots -----

  /** An address is padded on the left. */
  function AddrSlot(a: Addr): (r: bytes)
    ensures |r| == SLOT_SIZE
  {
    Fill(0, 12) + a
  }

  function AddrSlots(addrs: seq<Addr>): (r: seq<bytes>)
    ensures AllSlots(r) && |r| == |addrs|
  {
    seq(|addrs|, k requires 0 <= k < |addrs| => AddrSlot(addrs[k]))
  }

  function RowSlots(row: seq<U256>): (r: seq<bytes>)
    ensures AllSlots(r) && |r| == 1 + |row|
  {
    [Be32(|row|)] + seq(|row|, j requires 0 <= j < |row| => Be32(row[j]))
  }

  function RowsSlots(rows: seq<seq<U256>>): (r: seq<bytes>)
    ensures AllSlots(r)
  {
    if rows == [] then [] else RowSlots(rows[0]) + RowsSlots(rows[1..])
  }

  /** Offsets of rows of `p` amounts each. */
  function RowOffsets(first: nat, n: nat, p: nat): (r: seq<bytes>)
    ensures AllSlots(r) && |r| == n
  {
    seq(n, k requires 0 <= k < n => Be32(32 * (first + k * (1 + p))))
  }

  /** Allocation of `a` assets to `p` participants: three offsets, the assets, the
      balances and no locked funds. */
  function OutcomeSlots(o: Allocation, a: nat, p: nat): (r: seq<bytes>)
    ensures AllSlots(r)
  {
    [Be32(96), Be32(32 * (4 + a)), Be32(32 * (5 + 2 * a + |RowsSlots(o.balances)|)), Be32(a)] + AddrSlots(o.assets)
    + [Be32(a)] + RowOffsets(a, a, p) + RowsSlots(o.balances) + [Be32(0)]
  }

  function StateSlots(s: State, a: nat, p: nat): (r: seq<bytes>)
    ensures AllSlots(r)
  {
    [Be32(32), s.id, Be32(s.version), Be32(160), Be32(32 * (11 + 2 * a + |RowsSlots(s.outcome.balances)|)), Be32(if s.isFinal then 1 else 0)]
    + OutcomeSlots(s.outcome, a, p) + [Be32(0)]
  }

  function ParamsSlots(p: Params): (r: seq<bytes>)
    ensures AllSlots(r)
  {
    [Be32(32), Be32(p.challengeDuration), Be32(p.nonce), Be32(192), AddrSlot(p.app),
     Be32(if p.ledgerChannel then 1 else 0), Be32(if p.virtualChannel then 1 else 0), Be32(|p.participants|)]
    + AddrSlots(p.participants)
  }

  // ----- Layouts of one kind of component -----

  /** Static components of one slot each. */
  lemma {:induction false} StaticRuns(ps: seq<Part>, slots: seq<bytes>, offset: int)
    requires |ps| == |slots| && forall k :: 0 <= k < |ps| ==> ps[k] == Part(false, slots[k])
    ensures RunningHeads(ps, offset) == Flat(slots) && Tails(ps) == []
  {
    if ps != [] {
      StaticRuns(ps[1..], slots[1..], offset);
    }
  }

  lemma {:induction false} StaticLayoutFlat(ps: seq<Part>, slots: seq<bytes>)
    requires |ps| == |slots| && forall k :: 0 <= k < |ps| ==> ps[k] == Part(false, slots[k])
    ensures Layout(ps) == Flat(slots)
  {
    StaticRuns(ps, slots, HeadsLen(ps));
    RunningFromStart(ps, HeadsLen(ps));
  }

  lemma {:induction false} AddrsEnc(addrs: seq<Addr>)
    ensures Enc(DynArray(AddrsSol(addrs))) == Be32(|addrs|) + Flat(AddrSlots(addrs))
  {
    var es := AddrsSol(addrs);
    forall k | 0 <= k < |es|
      ensures Parts(es)[k] == Part(false, AddrSlots(addrs)[k])
    {
      BytesInSlot(addrs[k]);
    }
    StaticLayoutFlat(Parts(es), AddrSlots(addrs));
  }

  lemma {:induction false} AssetsEnc(addrs: seq<Addr>, a: nat) returns (x: bytes)
    requires a == |addrs|
    ensures x == Enc(DynArray(AssetsSol(addrs))) && x == Be32(a) + Flat(AddrSlots(addrs)) && |x| == 32 * (1 + a)
  {
    var es := AssetsSol(addrs);
    forall k | 0 <= k < |es|
      ensures Parts(es)[k] == Part(false, AddrSlots(addrs)[k])
    {
      BytesInSlot(addrs[k]);
      SingleLayout(Part(false, AddrSlots(addrs)[k]));
      assert Parts([Address(addrs[k])]) == [Part(false, AddrSlots(addrs)[k])];
    }
    StaticLayoutFlat(Parts(es), AddrSlots(addrs));
    FlatLength(AddrSlots(addrs));
    x := Be32(a) + Flat(AddrSlots(addrs));
  }

  lemma {:induction false} RowEnc(row: seq<U256>)
    ensures Enc(DynArray(AmountsSol(row))) == Flat(RowSlots(row)) && |Flat(RowSlots(row))| == 32 * (1 + |row|)
  {
    var slots := seq(|row|, j requires 0 <= j < |row| => Be32(row[j]));
    StaticLayoutFlat(Parts(AmountsSol(row)), slots);
    assert RowSlots(row)[1..] == slots;
    FlatLength(RowSlots(row));
  }

  /** Rows of `p` amounts each, from running offset 32 * `first` on. */
  lemma {:induction false} RowsRun(rows: seq<seq<U256>>, p: nat, first: nat)
    requires forall k :: 0 <= k < |rows| ==> |rows[k]| == p
    ensures RunningHeads(Parts(BalancesSol(rows)), 32 * first) == Flat(RowOffsets(first, |rows|, p))
  {
    if rows != [] {
      var ps := Parts(BalancesSol(rows));
      RowsRun(rows[1..], p, first + 1 + p);
      RowEnc(rows[0]);
      BalancesCons(rows);
      OffsetsFlat(first, |rows|, p);
      RunsOn(ps, ps[1..], 32 * first, 32 * (first + 1 + p));
    }
  }

  lemma {:induction false} RunsOn(ps: seq<Part>, later: seq<Part>, offset: nat, next: nat)
    requires ps != [] && ps[0].dynamic && later == ps[1..] && next == offset + |ps[0].enc|
    ensures RunningHeads(ps, offset) == Be32(offset) + RunningHeads(later, next)
  {
  }

  lemma {:induction false} RowsTails(rows: seq<seq<U256>>)
    ensures Tails(Parts(BalancesSol(rows))) == Flat(RowsSlots(rows)) && HeadsLen(Parts(BalancesSol(rows))) == 32 * |rows|
  {
    if rows != [] {
      RowsTails(rows[1..]);
      RowEnc(rows[0]);
      FlatAppend(RowSlots(rows[0]), RowsSlots(rows[1..]));
      BalancesCons(rows);
    }
  }

  lemma OneRowMore(n: nat, p: nat)
    requires n > 0
    ensures (1 + p) + (n - 1) * (1 + p) == n * (1 + p)
  {
  }

  lemma {:induction false} BalancesCons(rows: seq<seq<U256>>)
    requires rows != []
    ensures var ps := Parts(BalancesSol(rows));
            |ps| == |rows| && ps[0] == Part(true, Enc(DynArray(AmountsSol(rows[0])))) && ps[1..] == Parts(BalancesSol(rows[1..]))
  {
    assert BalancesSol(rows)[1..] == BalancesSol(rows[1..]);
  }

  lemma {:induction false} OffsetsCons(first: nat, n: nat, p: nat)
    requires n > 0
    ensures RowOffsets(first, n, p)[0] == Be32(32 * first)
    ensures RowOffsets(first, n, p)[1..] == RowOffsets(first + 1 + p, n - 1, p)
  {
    forall k | 0 <= k < n - 1
      ensures RowOffsets(first, n, p)[1..][k] == RowOffsets(first + 1 + p, n - 1, p)[k]
    {
      assert first + (k + 1) * (1 + p) == first + 1 + p + k * (1 + p);
    }
  }

  lemma {:induction false} OffsetsFlat(first: nat, n: nat, p: nat)
    requires n > 0
    ensures Flat(RowOffsets(first, n, p)) == Be32(32 * first) + Flat(RowOffsets(first + 1 + p, n - 1, p))
  {
    OffsetsCons(first, n, p);
  }

  lemma {:induction false} BalancesEnc(rows: seq<seq<U256>>, a: nat, p: nat) returns (y: bytes)
    requires a == |rows| && forall k :: 0 <= k < |rows| ==> |rows[k]| == p
    ensures y == Enc(DynArray(BalancesSol(rows)))
    ensures y == Be32(a) + (Flat(RowOffsets(a, a, p)) + Flat(RowsSlots(rows)))
    ensures |y| == 32 * (1 + a + |RowsSlots(rows)|)
  {
    var ps := Parts(BalancesSol(rows));
    RowsRun(rows, p, a);
    RowsTails(rows);
    RunningFromStart(ps, HeadsLen(ps));
    FlatLength(RowOffsets(a, a, p));
    FlatLength(RowsSlots(rows));
    y := Be32(a) + (Flat(RowOffsets(a, a, p)) + Flat(RowsSlots(rows)));
  }

  // ----- Whole tuples -----

  /** One component more in front. */
  lemma {:induction false} Cons(q: Part, ps: seq<Part>, offset: int)
    ensures var all := [q] + ps;
            && RunningHeads(all, offset) == (if q.dynamic then Be32(offset) else q.enc) + RunningHeads(ps, offset + TailLen(q))
            && Tails(all) == (if q.dynamic then q.enc else []) + Tails(ps)
            && HeadsLen(all) == HeadLen(q) + HeadsLen(ps)
  {
    assert ([q] + ps)[0] == q && ([q] + ps)[1..] == ps;
  }

  lemma {:induction false} OneDynamic(e: bytes)
    ensures Layout([Part(true, e)]) == Be32(32) + e
  {
    SingleLayout(Part(true, e));
  }

  lemma {:induction false} ThreeDynamic(a: bytes, b: bytes, c: bytes, m: nat, n: nat)
    requires m == 96 + |a| && n == m + |b|
    ensures Layout([Part(true, a), Part(true, b), Part(true, c)]) == Be32(96) + Be32(m) + Be32(n) + (a + b + c)
  {
    var pa, pb, pc := Part(true, a), Part(true, b), Part(true, c);
    Cons(pc, [], n);
    assert [pc] + [] == [pc];
    Cons(pb, [pc], m);
    Cons(pa, [pb] + [pc], 96);
    RunningFromStart([pa] + ([pb] + [pc]), 96);
    NestThree(pa, pb, pc);
  }

  lemma NestThree(a: Part, b: Part, c: Part)
    ensures [a] + ([b] + [c]) == [a, b, c]
  {
  }

  lemma NestFive(a: Part, b: Part, c: Part, d: Part, e: Part)
    ensures [a] + ([b] + ([c] + ([d] + [e]))) == [a, b, c, d, e]
  {
  }

  /** The dynamic ones of the first kind of tuple, and the flag behind them. */
  lemma {:induction false} TwoDynamicOneStatic(c: bytes, d: bytes, e: bytes, n: nat)
    requires |e| == SLOT_SIZE && n == 160 + |c|
    ensures var ps := [Part(true, c)] + ([Part(true, d)] + [Part(false, e)]);
            RunningHeads(ps, 160) == Be32(160) + (Be32(n) + e) && Tails(ps) == c + d && HeadsLen(ps) == 96
  {
    Cons(Part(false, e), [], n + |d|);
    assert [Part(false, e)] + [] == [Part(false, e)];
    Cons(Part(true, d), [Part(false, e)], n);
    Cons(Part(true, c), [Part(true, d)] + [Part(false, e)], 160);
  }

  /** Static, static, dynamic, dynamic, static. */
  lemma {:induction false} FiveParts(a: bytes, b: bytes, c: bytes, d: bytes, e: bytes, n: nat)
    requires |a| == |b| == |e| == SLOT_SIZE && n == 160 + |c|
    ensures Layout([Part(false, a), Part(false, b), Part(true, c), Part(true, d), Part(false, e)])
         == a + (b + (Be32(160) + (Be32(n) + e))) + (c + d)
  {
    var later := [Part(true, c)] + ([Part(true, d)] + [Part(false, e)]);
    TwoDynamicOneStatic(c, d, e, n);
    TwoStatic(a, b, later, 160);
    NestFive(Part(false, a), Part(false, b), Part(true, c), Part(true, d), Part(false, e));
  }

  /** Two static components in front. */
  lemma {:induction false} TwoStatic(a: bytes, b: bytes, later: seq<Part>, size: nat)
    requires |a| == |b| == SLOT_SIZE && size == 64 + HeadsLen(later)
    ensures Layout([Part(false, a)] + ([Part(false, b)] + later)) == a + (b + RunningHeads(later, size)) + Tails(later)
  {
    Cons(Part(false, b), later, size);
    Cons(Part(false, a), [Part(false, b)] + later, size);
    RunningFromStart([Part(false, a)] + ([Part(false, b)] + later), size);
  }

  lemma NestSix(a: Part, b: Part, c: Part, d: Part, e: Part, f: Part)
    ensures [a] + ([b] + ([c] + ([d] + ([e] + [f])))) == [a, b, c, d, e, f]
  {
  }

  lemma {:induction false} ThreeStatic(d: bytes, e: bytes, f: bytes, offset: int)
    requires |d| == |e| == |f| == SLOT_SIZE
    ensures var ps := [Part(false, d)] + ([Part(false, e)] + [Part(false, f)]);
            RunningHeads(ps, offset) == d + (e + f) && Tails(ps) == [] && HeadsLen(ps) == 96
  {
    var last := [Part(false, f)];
    Cons(Part(false, f), [], offset);
    assert last + [] == last;
    Cons(Part(false, e), last, offset);
    Cons(Part(false, d), [Part(false, e)] + last, offset);
  }

  lemma {:induction false} OneDynamicThreeStatic(c: bytes, d: bytes, e: bytes, f: bytes)
    requires |d| == |e| == |f| == SLOT_SIZE
    ensures var ps := [Part(true, c)] + ([Part(false, d)] + ([Part(false, e)] + [Part(false, f)]));
            RunningHeads(ps, 192) == Be32(192) + (d + (e + f)) && Tails(ps) == c && HeadsLen(ps) == 128
  {
    ThreeStatic(d, e, f, 192 + |c|);
    Cons(Part(true, c), [Part(false, d)] + ([Part(false, e)] + [Part(false, f)]), 192);
  }

  /** Static, static, dynamic, static, static, static. */
  lemma {:induction false} SixParts(a: bytes, b: bytes, c: bytes, d: bytes, e: bytes, f: bytes)
    requires |a| == |b| == |d| == |e| == |f| == SLOT_SIZE
    ensures Layout([Part(false, a), Part(false, b), Part(true, c), Part(false, d), Part(false, e), Part(false, f)])
         == a + (b + (Be32(192) + (d + (e + f)))) + c
  {
    var later := [Part(true, c)] + ([Part(false, d)] + ([Part(false, e)] + [Part(false, f)]));
    OneDynamicThreeStatic(c, d, e, f);
    TwoStatic(a, b, later, 192);
    NestSix(Part(false, a), Part(false, b), Part(true, c), Part(false, d), Part(false, e), Part(false, f));
  }

  // ----- The encodings, slot by slot -----

  lemma {:induction false} FlatCons(x: bytes, slots: seq<bytes>)
    ensures Flat([x] + slots) == x + Flat(slots)
  {
    assert ([x] + slots)[1..] == slots;
  }

  lemma {:induction false} FlatOne(x: bytes)
    ensures Flat([x]) == x
  {
    FlatCons(x, []);
    assert [x] + [] == [x];
  }

  lemma {:induction false} FlatFour(a: bytes, b: bytes, c: bytes, d: bytes)
    ensures Flat([a, b, c, d]) == a + b + c + d
  {
    FlatOne(d);
    FlatCons(c, [d]);
    FlatCons(b, [c, d]);
    FlatCons(a, [b, c, d]);
    assert [c] + [d] == [c, d] && [b] + [c, d] == [b, c, d] && [a] + [b, c, d] == [a, b, c, d];
  }

  lemma {:induction false} FlatSix(a: bytes, b: bytes, c: bytes, d: bytes, e: bytes, f: bytes)
    ensures Flat([a, b, c, d, e, f]) == a + b + c + d + e + f
  {
    FlatFour(c, d, e, f);
    FlatCons(b, [c, d, e, f]);
    FlatCons(a, [b, c, d, e, f]);
    assert [b] + [c, d, e, f] == [b, c, d, e, f] && [a] + [b, c, d, e, f] == [a, b, c, d, e, f];
  }

  lemma {:induction false} OutcomeFlat(o: Allocation, a: nat, p: nat, m: nat, n: nat)
    requires m == 32 * (4 + a) && n == 32 * (5 + 2 * a + |RowsSlots(o.balances)|)
    ensures Flat(OutcomeSlots(o, a, p))
         == (Be32(96) + Be32(m) + Be32(n) + Be32(a)) + Flat(AddrSlots(o.assets))
            + Be32(a) + Flat(RowOffsets(a, a, p)) + Flat(RowsSlots(o.balances)) + Be32(0)
  {
    var first := [Be32(96), Be32(m), Be32(n), Be32(a)];
    var second := first + AddrSlots(o.assets);
    var third := second + [Be32(a)];
    var fourth := third + RowOffsets(a, a, p);
    FlatFour(first[0], first[1], first[2], first[3]);
    FlatAppend(first, AddrSlots(o.assets));
    FlatAppend(second, [Be32(a)]);
    FlatAppend(third, RowOffsets(a, a, p));
    FlatAppend(fourth, RowsSlots(o.balances));
    FlatAppend(fourth + RowsSlots(o.balances), [Be32(0)]);
    FlatOne(Be32(a));
    FlatOne(Be32(0));
  }

  lemma Regroup(whole: bytes, flat: bytes, x: bytes, y: bytes,
                a: bytes, b: bytes, c: bytes, n: bytes, assets: bytes, offsets: bytes, rows: bytes, zero: bytes)
    requires x == n + assets && y == n + (offsets + rows) && whole == a + b + c + (x + y + zero)
    requires flat == (a + b + c + n) + assets + n + offsets + rows + zero
    ensures whole == flat
  {
  }

  lemma {:induction false} OutcomeThree(o: Allocation, x: bytes, y: bytes, z: bytes, m: nat, n: nat)
    requires x == Enc(DynArray(AssetsSol(o.assets))) && y == Enc(DynArray(BalancesSol(o.balances))) && z == Enc(DynArray([]))
    requires m == 96 + |x| && n == m + |y|
    ensures Enc(OutcomeSol(o)) == Be32(96) + Be32(m) + Be32(n) + (x + y + z)
  {
    OutcomeParts(o);
    ThreeDynamic(x, y, z, m, n);
  }

  /** The allocation, for any numbers of assets and participants. */
  lemma {:induction false} OutcomeEnc(o: Allocation, a: nat, p: nat) returns (e: bytes)
    requires |o.assets| == a == |o.balances| && forall k :: 0 <= k < a ==> |o.balances[k]| == p
    ensures e == Enc(OutcomeSol(o)) && e == Flat(OutcomeSlots(o, a, p)) && |e| == 32 * (6 + 2 * a + |RowsSlots(o.balances)|)
  {
    var x := AssetsEnc(o.assets, a);
    var y := BalancesEnc(o.balances, a, p);
    var z := EmptyEnc();
    var m, n := 96 + |x|, 96 + |x| + |y|;
    OutcomeThree(o, x, y, z, m, n);
    e := Be32(96) + Be32(m) + Be32(n) + (x + y + z);
    OutcomeSlotsJoined(o, a, p, x, y, z, m, n, e);
  }

  lemma {:induction false} OutcomeSlotsJoined(o: Allocation, a: nat, p: nat, x: bytes, y: bytes, z: bytes, m: nat, n: nat, e: bytes)
    requires x == Be32(a) + Flat(AddrSlots(o.assets)) && y == Be32(a) + (Flat(RowOffsets(a, a, p)) + Flat(RowsSlots(o.balances)))
    requires z == Be32(0) && m == 32 * (4 + a) && n == 32 * (5 + 2 * a + |RowsSlots(o.balances)|)
    requires e == Be32(96) + Be32(m) + Be32(n) + (x + y + z)
    ensures e == Flat(OutcomeSlots(o, a, p))
  {
    OutcomeFlat(o, a, p, m, n);
    OutcomeJoined(a, x, y, z, Be32(m), Be32(n), Flat(AddrSlots(o.assets)), Flat(RowOffsets(a, a, p)), Flat(RowsSlots(o.balances)),
                  e, Flat(OutcomeSlots(o, a, p)));
  }

  lemma {:induction false} OutcomeJoined(a: nat, x: bytes, y: bytes, z: bytes, second: bytes, third: bytes,
                                         assets: bytes, offsets: bytes, rows: bytes, whole: bytes, flat: bytes)
    requires x == Be32(a) + assets && y == Be32(a) + (offsets + rows) && z == Be32(0)
    requires whole == Be32(96) + second + third + (x + y + z)
    requires flat == (Be32(96) + second + third + Be32(a)) + assets + Be32(a) + offsets + rows + Be32(0)
    ensures whole == flat
  {
    Regroup(whole, flat, x, y, Be32(96), second, third, Be32(a), assets, offsets, rows, z);
  }

  lemma {:induction false} OutcomeCount(o: Allocation, a: nat, p: nat)
    requires |o.assets| == a
    ensures |OutcomeSlots(o, a, p)| == 6 + 2 * a + |RowsSlots(o.balances)|
  {
  }

  lemma Products(a: nat, p: nat)
    ensures a * (1 + p) == a + a * p
  {
  }

  lemma {:induction false} EmptyEnc() returns (z: bytes)
    ensures z == Be32(0) && Enc(DynArray([])) == z && Enc(DynBytes([])) == z
  {
    assert Parts([]) == [] && Layout([]) == [];
    z := Be32(0);
  }

  lemma {:induction false} OutcomeParts(o: Allocation)
    ensures Enc(OutcomeSol(o)) == Layout([Part(true, Enc(DynArray(AssetsSol(o.assets)))),
                                          Part(true, Enc(DynArray(BalancesSol(o.balances)))), Part(true, Enc(DynArray([])))])
  {
    var fs := OutcomeSol(o).fields;
    assert Parts(fs) == [Part(true, Enc(fs[0])), Part(true, Enc(fs[1])), Part(true, Enc(fs[2]))];
  }

  lemma {:induction false} PartsFive(a: Sol, b: Sol, c: Sol, d: Sol, e: Sol)
    ensures Parts([a, b, c, d, e]) == [StandardPart(a), StandardPart(b), StandardPart(c), StandardPart(d), StandardPart(e)]
    ensures IsDynamic(c) ==> IsDynamic(Struct([a, b, c, d, e]))
  {
    var fs := [a, b, c, d, e];
    assert IsDynamic(c) ==> IsDynamic(fs[2]);
  }

  lemma {:induction false} PartsSix(a: Sol, b: Sol, c: Sol, d: Sol, e: Sol, f: Sol)
    ensures Parts([a, b, c, d, e, f])
         == [StandardPart(a), StandardPart(b), StandardPart(c), StandardPart(d), StandardPart(e), StandardPart(f)]
    ensures IsDynamic(c) ==> IsDynamic(Struct([a, b, c, d, e, f]))
  {
    var fs := [a, b, c, d, e, f];
    assert IsDynamic(c) ==> IsDynamic(fs[2]);
  }

  lemma {:induction false} HashPart(h: Hash)
    ensures StandardPart(FixedBytes(h)) == Part(false, h)
  {
    assert PadRight(h) == h;
  }

  lemma {:induction false} AddrPart(a: Addr)
    ensures StandardPart(Address(a)) == Part(false, AddrSlot(a))
  {
    BytesInSlot(a);
  }

  lemma {:induction false} OutcomeDynamic(o: Allocation)
    ensures IsDynamic(OutcomeSol(o))
  {
    assert IsDynamic(OutcomeSol(o).fields[0]);
  }

  lemma {:induction false} StateParts(s: State)
    ensures Enc(StateSol(s)) == Layout([Part(false, s.id), Part(false, Be32(s.version)), Part(true, Enc(OutcomeSol(s.outcome))),
                                        Part(true, Enc(DynBytes([]))), Part(false, Be32(if s.isFinal then 1 else 0))])
    ensures IsDynamic(StateSol(s))
  {
    OutcomeDynamic(s.outcome);
    HashPart(s.id);
    PartsFive(FixedBytes(s.id), Uint(8, s.version), OutcomeSol(s.outcome), DynBytes([]), BoolSol(s.isFinal));
  }

  lemma {:induction false} ParamsParts(p: Params)
    ensures Enc(ParamsSol(p)) == Layout([Part(false, Be32(p.challengeDuration)), Part(false, Be32(p.nonce)),
                                         Part(true, Enc(DynArray(AddrsSol(p.participants)))), Part(false, AddrSlot(p.app)),
                                         Part(false, Be32(if p.ledgerChannel then 1 else 0)),
                                         Part(false, Be32(if p.virtualChannel then 1 else 0))])
    ensures IsDynamic(ParamsSol(p))
  {
    AddrPart(p.app);
    PartsSix(Uint(8, p.challengeDuration), Uint(32, p.nonce), DynArray(AddrsSol(p.participants)), Address(p.app),
             BoolSol(p.ledgerChannel), BoolSol(p.virtualChannel));
  }

  // ----- What is hashed -----

  /** The bytes of a state, slot by slot. */
  lemma {:induction false} HashInputSlots(s: State, a: nat, p: nat)
    requires Shape(s, a, p) && StateSize(a, p) <= USIZE_MAX
    ensures HashInput(s) == Flat(StateSlots(s, a, p))
    ensures |StateSlots(s, a, p)| == 13 + 2 * a + |RowsSlots(s.outcome.balances)| == 13 + 3 * a + a * p
  {
    RowsCount(s.outcome.balances, p);
    Products(a, p);
    HashInputFlat(s, a, p);
    OutcomeCount(s.outcome, a, p);
  }

  lemma {:induction false} HashInputFlat(s: State, a: nat, p: nat)
    requires Shape(s, a, p) && StateSize(a, p) <= USIZE_MAX
    ensures HashInput(s) == Flat(StateSlots(s, a, p))
  {
    var flag := Be32(if s.isFinal then 1 else 0);
    var o := OutcomeEnc(s.outcome, a, p);
    var z := EmptyEnc();
    var n := 160 + |o|;
    StateInput(s, a, p);
    StateFive(s, o, z, flag, n);
    StateFlat(s, a, p, flag, n);
    StateJoined(s, o, z, Be32(n), flag, HashInput(s), Flat(StateSlots(s, a, p)));
  }

  lemma {:induction false} StateJoined(s: State, o: bytes, z: bytes, data: bytes, flag: bytes, whole: bytes, flat: bytes)
    requires whole == Be32(32) + (s.id + (Be32(s.version) + (Be32(160) + (data + flag))) + (o + z))
    requires flat == (Be32(32) + s.id + Be32(s.version) + Be32(160) + data + flag) + o + z
    ensures whole == flat
  {
    RegroupState(whole, flat, Be32(32), s.id, Be32(s.version), Be32(160), data, flag, o, z);
  }

  lemma {:induction false} StateFive(s: State, o: bytes, z: bytes, flag: bytes, n: nat)
    requires o == Enc(OutcomeSol(s.outcome)) && z == Enc(DynBytes([]))
    requires flag == Be32(if s.isFinal then 1 else 0) && n == 160 + |o|
    ensures Enc(StateSol(s)) == s.id + (Be32(s.version) + (Be32(160) + (Be32(n) + flag))) + (o + z)
  {
    StateParts(s);
    FiveParts(s.id, Be32(s.version), o, z, flag, n);
  }

  lemma {:induction false} StateFlat(s: State, a: nat, p: nat, flag: bytes, n: nat)
    requires flag == Be32(if s.isFinal then 1 else 0)
    requires n == 32 * (11 + 2 * a + |RowsSlots(s.outcome.balances)|)
    ensures Flat(StateSlots(s, a, p))
         == (Be32(32) + s.id + Be32(s.version) + Be32(160) + Be32(n) + flag) + Flat(OutcomeSlots(s.outcome, a, p)) + Be32(0)
  {
    var first := [Be32(32), s.id, Be32(s.version), Be32(160), Be32(n), flag];
    FlatSix(first[0], first[1], first[2], first[3], first[4], first[5]);
    FlatAppend(first, OutcomeSlots(s.outcome, a, p));
    FlatAppend(first + OutcomeSlots(s.outcome, a, p), [Be32(0)]);
    FlatOne(Be32(0));
  }

  lemma RegroupState(x: bytes, y: bytes, a: bytes, b: bytes, c: bytes, d: bytes, e: bytes, f: bytes, o: bytes, z: bytes)
    requires x == a + (b + (c + (d + (e + f))) + (o + z)) && y == (a + b + c + d + e + f) + o + z
    ensures x == y
  {
  }

  lemma {:induction false} StateInput(s: State, a: nat, p: nat)
    requires Shape(s, a, p) && StateSize(a, p) <= USIZE_MAX
    ensures HashInput(s) == Be32(32) + Enc(StateSol(s))
  {
    assert a > 0 ==> |s.outcome.balances[0]| == p;
    assert a == 0 ==> StateSize(a, 0) == StateSize(a, p);
    StateClean(s);
    StreamIsAbiEncode(StateSol(s), StateType());
    StateParts(s);
    OneDynamic(Enc(StateSol(s)));
  }

  /** The bytes of parameters, slot by slot. */
  lemma {:induction false} IdInputSlots(p: Params)
    requires ParamsSize(|p.participants|) <= USIZE_MAX
    ensures IdInput(p) == Flat(ParamsSlots(p)) && |ParamsSlots(p)| == 8 + |p.participants|
  {
    var ledger, virtual := Be32(if p.ledgerChannel then 1 else 0), Be32(if p.virtualChannel then 1 else 0);
    var addrs := Enc(DynArray(AddrsSol(p.participants)));
    ParamsInput(p);
    ParamsSix(p, addrs, ledger, virtual);
    AddrsEnc(p.participants);
    ParamsFlat(p, ledger, virtual);
    RegroupParams(IdInput(p), Flat(ParamsSlots(p)), Be32(32), Be32(p.challengeDuration), Be32(p.nonce), Be32(192), AddrSlot(p.app),
                  ledger, virtual, Be32(|p.participants|), Flat(AddrSlots(p.participants)), addrs);
  }

  lemma {:induction false} ParamsSix(p: Params, addrs: bytes, ledger: bytes, virtual: bytes)
    requires addrs == Enc(DynArray(AddrsSol(p.participants)))
    requires ledger == Be32(if p.ledgerChannel then 1 else 0) && virtual == Be32(if p.virtualChannel then 1 else 0)
    ensures Enc(ParamsSol(p))
         == Be32(p.challengeDuration) + (Be32(p.nonce) + (Be32(192) + (AddrSlot(p.app) + (ledger + virtual)))) + addrs
  {
    ParamsParts(p);
    SixParts(Be32(p.challengeDuration), Be32(p.nonce), addrs, AddrSlot(p.app), ledger, virtual);
  }

  lemma {:induction false} ParamsFlat(p: Params, ledger: bytes, virtual: bytes)
    requires ledger == Be32(if p.ledgerChannel then 1 else 0) && virtual == Be32(if p.virtualChannel then 1 else 0)
    ensures Flat(ParamsSlots(p))
         == (Be32(32) + Be32(p.challengeDuration) + Be32(p.nonce) + Be32(192) + AddrSlot(p.app) + ledger)
            + (virtual + Be32(|p.participants|)) + Flat(AddrSlots(p.participants))
  {
    var head, rest := [Be32(32), Be32(p.challengeDuration), Be32(p.nonce), Be32(192), AddrSlot(p.app), ledger], [virtual, Be32(|p.participants|)];
    FlatSix(head[0], head[1], head[2], head[3], head[4], head[5]);
    FlatOne(rest[1]);
    FlatCons(virtual, [rest[1]]);
    assert [virtual] + [rest[1]] == rest;
    FlatAppend(head, rest);
    assert ParamsSlots(p) == head + rest + AddrSlots(p.participants);
    FlatAppend(head + rest, AddrSlots(p.participants));
  }

  lemma RegroupParams(x: bytes, y: bytes, a: bytes, b: bytes, c: bytes, d: bytes, e: bytes, f: bytes, g: bytes, n: bytes, z: bytes, nz: bytes)
    requires nz == n + z && x == a + (b + (c + (d + (e + (f + g)))) + nz) && y == (a + b + c + d + e + f) + (g + n) + z
    ensures x == y
  {
  }

  lemma {:induction false} ParamsInput(p: Params)
    requires ParamsSize(|p.participants|) <= USIZE_MAX
    ensures IdInput(p) == Be32(32) + Enc(ParamsSol(p))
  {
    ParamsClean(p);
    StreamIsAbiEncode(ParamsSol(p), ParamsType());
    ParamsParts(p);
    OneDynamic(Enc(ParamsSol(p)));
  }

  // ----- Where each field is -----

  /** The first slots by their bytes. */
  lemma {:induction false} FirstSlots(slots: seq<bytes>, b: bytes)
    requires AllSlots(slots) && |slots| >= 8 && b == Flat(slots)
    ensures |b| == SLOT_SIZE * |slots|
    ensures b[32..64] == slots[1] && b[64..96] == slots[2] && b[96..128] == slots[3] && b[128..160] == slots[4]
    ensures b[160..192] == slots[5] && b[192..224] == slots[6] && b[224..256] == slots[7]
  {
    FlatAt(slots, 1);
    FlatAt(slots, 2);
    FlatAt(slots, 3);
    FlatAt(slots, 4);
    FlatAt(slots, 5);
    FlatAt(slots, 6);
    FlatAt(slots, 7);
  }

  /** In what is hashed for a state: the id, the version and the final flag. */
  lemma {:induction false} StateFieldsAt(s: State, a: nat, p: nat)
    requires Shape(s, a, p) && StateSize(a, p) <= USIZE_MAX
    ensures |HashInput(s)| == SLOT_SIZE * (13 + 3 * a + a * p) >= 192
    ensures HashInput(s)[32..64] == s.id && HashInput(s)[64..96] == Be32(s.version)
    ensures HashInput(s)[160..192] == Be32(if s.isFinal then 1 else 0)
  {
    HashInputSlots(s, a, p);
    FirstSlots(StateSlots(s, a, p), HashInput(s));
  }

  /** Asset `k`, behind the number of assets. */
  lemma {:induction false} AssetAt(s: State, a: nat, p: nat, k: nat)
    requires Shape(s, a, p) && StateSize(a, p) <= USIZE_MAX && k < a
    ensures SLOT_SIZE * (11 + k) <= |HashInput(s)|
    ensures SlotAt(HashInput(s), 9) == Be32(a) && SlotAt(HashInput(s), 10 + k) == Fill(0, 12) + s.outcome.assets[k]
  {
    HashInputSlots(s, a, p);
    var slots := StateSlots(s, a, p);
    AssetPlaced(s, a, p, k);
    FlatAt(slots, 9);
    FlatAt(slots, 10 + k);
  }

  lemma {:induction false} AssetPlaced(s: State, a: nat, p: nat, k: nat)
    requires k < |s.outcome.assets|
    ensures |StateSlots(s, a, p)| > 10 + k
    ensures StateSlots(s, a, p)[9] == Be32(a) && StateSlots(s, a, p)[10 + k] == AddrSlot(s.outcome.assets[k])
  {
    AssetInOutcome(s.outcome, a, p, k);
    OutcomeInState(s, a, p, 3);
    OutcomeInState(s, a, p, 4 + k);
  }

  lemma {:induction false} AssetInOutcome(o: Allocation, a: nat, p: nat, k: nat)
    requires k < |o.assets|
    ensures |OutcomeSlots(o, a, p)| > 4 + k && OutcomeSlots(o, a, p)[3] == Be32(a)
    ensures OutcomeSlots(o, a, p)[4 + k] == AddrSlot(o.assets[k])
  {
  }

  lemma {:induction false} OutcomeInState(s: State, a: nat, p: nat, n: nat)
    requires n < |OutcomeSlots(s.outcome, a, p)|
    ensures |StateSlots(s, a, p)| > 6 + n && StateSlots(s, a, p)[6 + n] == OutcomeSlots(s.outcome, a, p)[n]
  {
  }

  /** Entry `j` of row `k`, among rows of `p` amounts with their lengths in front. */
  function RowIndex(p: nat, k: nat, j: nat): nat { k * (1 + p) + 1 + j }

  /** Balance `j` of asset `k`. */
  lemma {:induction false} BalanceAt(s: State, a: nat, p: nat, k: nat, j: nat)
    requires Shape(s, a, p) && StateSize(a, p) <= USIZE_MAX && k < a && j < p
    ensures SLOT_SIZE * (11 + 2 * a + RowIndex(p, k, j) + 1) <= |HashInput(s)|
    ensures SlotAt(HashInput(s), 11 + 2 * a + RowIndex(p, k, j)) == Be32(s.outcome.balances[k][j])
  {
    var n := 11 + 2 * a + RowIndex(p, k, j);
    RowsAt(s.outcome.balances, p, k, j);
    RowsPlaced(s, a, p, RowIndex(p, k, j));
    HashInputSlots(s, a, p);
    BalanceFound(StateSlots(s, a, p), HashInput(s), n, Be32(s.outcome.balances[k][j]));
  }

  lemma {:induction false} BalanceFound(slots: seq<bytes>, b: bytes, n: nat, x: bytes)
    requires AllSlots(slots) && b == Flat(slots) && n < |slots| && slots[n] == x
    ensures SLOT_SIZE * (n + 1) <= |b| && SlotAt(b, n) == x
  {
    FlatAt(slots, n);
  }

  lemma {:induction false} RowsPlaced(s: State, a: nat, p: nat, at: nat)
    requires |s.outcome.assets| == a && at < |RowsSlots(s.outcome.balances)|
    ensures 11 + 2 * a + at < |StateSlots(s, a, p)|
    ensures StateSlots(s, a, p)[11 + 2 * a + at] == RowsSlots(s.outcome.balances)[at]
  {
    RowInOutcome(s.outcome, a, p, at);
    OutcomeInState(s, a, p, 5 + 2 * a + at);
  }

  lemma {:induction false} RowInOutcome(o: Allocation, a: nat, p: nat, at: nat)
    requires |o.assets| == a && at < |RowsSlots(o.balances)|
    ensures |OutcomeSlots(o, a, p)| > 5 + 2 * a + at
    ensures OutcomeSlots(o, a, p)[5 + 2 * a + at] == RowsSlots(o.balances)[at]
  {
  }

  lemma {:induction false} RowsAt(rows: seq<seq<U256>>, p: nat, k: nat, j: nat)
    requires (forall i :: 0 <= i < |rows| ==> |rows[i]| == p) && k < |rows| && j < p
    ensures RowIndex(p, k, j) < |RowsSlots(rows)|
    ensures RowsSlots(rows)[RowIndex(p, k, j)] == Be32(rows[k][j])
  {
    if k == 0 {
      assert RowIndex(p, 0, j) == 1 + j;
    } else {
      RowsAt(rows[1..], p, k - 1, j);
      OneRowMore(k, p);
      assert RowIndex(p, k, j) == RowIndex(p, k - 1, j) + (1 + p);
    }
  }

  lemma {:induction false} RowsCount(rows: seq<seq<U256>>, p: nat)
    requires forall i :: 0 <= i < |rows| ==> |rows[i]| == p
    ensures |RowsSlots(rows)| == |rows| * (1 + p)
  {
    if rows != [] {
      RowsCount(rows[1..], p);
      OneRowMore(|rows|, p);
    }
  }

  /** In what is hashed into a channel id. */
  lemma {:induction false} ParamsFieldsAt(p: Params)
    requires ParamsSize(|p.participants|) <= USIZE_MAX
    ensures |IdInput(p)| == SLOT_SIZE * (8 + |p.participants|)
    ensures IdInput(p)[32..64] == Be32(p.challengeDuration) && IdInput(p)[64..96] == Be32(p.nonce)
    ensures IdInput(p)[128..160] == Fill(0, 12) + p.app
    ensures IdInput(p)[160..192] == Be32(if p.ledgerChannel then 1 else 0)
    ensures IdInput(p)[192..224] == Be32(if p.virtualChannel then 1 else 0)
    ensures IdInput(p)[224..256] == Be32(|p.participants|)
    ensures forall k :: 0 <= k < |p.participants| ==> SlotAt(IdInput(p), 8 + k) == Fill(0, 12) + p.participants[k]
  {
    IdInputSlots(p);
    var slots := ParamsSlots(p);
    FirstSlots(slots, IdInput(p));
    forall k | 0 <= k < |p.participants|
      ensures SlotAt(IdInput(p), 8 + k) == Fill(0, 12) + p.participants[k]
    {
      FlatAt(slots, 8 + k);
    }
  }
}
