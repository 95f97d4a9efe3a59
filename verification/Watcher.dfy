/** The remote watcher's table of channels, reached by concurrent watch and dispute
    calls. Every locked section is one step; threads interleave arbitrarily. */
module Watcher {
  import opened Wrappers
  import opened Payment
  import opened Channel
  import opened Opening

  /** A signing account, by number. */
  type Account = nat

  datatype Tx = Tx(state: ChState, sigs: seq<Signature>)

  datatype Request = Request(participant: nat, params: ChParams, tx: Tx, auth: Account)

  datatype Dispute = Dispute(id: Hash, latest: Option<Request>)

  datatype Entry = Entry(params: ChParams, idx: nat, acc: Account, latest: Tx)

  datatype Registration = Registration(params: ChParams, acc: Account, tx: Tx, idx: nat)

  type Table = map<Hash, Entry>

  // ----- Checks -----

  predicate SigsVerify(sigs: seq<Signature>, s: ChState, params: ChParams) {
    |sigs| == |params.participants|
    && forall i :: 0 <= i < |sigs| ==> SignedBy(sigs[i], params.participants[i], s)
  }

  predicate Verified(h: Hashes, r: Request) {
    r.tx.state.id == h.id(r.params) && SigsVerify(r.tx.sigs, r.tx.state, r.params)
  }

  method VerifySigs(sigs: seq<Signature>, s: ChState, params: ChParams) returns (ok: bool)
    ensures ok == SigsVerify(sigs, s, params)
  {
    if |sigs| != |params.participants| {
      return false;
    }
    for i := 0 to |sigs|
      invariant forall k :: 0 <= k < i ==> SignedBy(sigs[k], params.participants[k], s)
    {
      if !SignedBy(sigs[i], params.participants[i], s) {
        return false;
      }
    }
    return true;
  }

  // ----- Locked sections -----

  function Id(r: Request): Hash { r.tx.state.id }

  function Version(tx: Tx): u64 { tx.state.version }

  /** The locked section of `Watch`. A new channel needs the on-chain watcher to
      start; a known one accepts any version that is not older. */
  function Track(table: Table, r: Request, started: bool): Option<Table> {
    if Id(r) in table then
      if Version(r.tx) < Version(table[Id(r)].latest) then None
      else Some(table[Id(r) := table[Id(r)].(latest := r.tx, acc := r.auth)])
    else if !started then None
    else Some(table[Id(r) := Entry(r.params, r.participant, r.auth, r.tx)])
  }

  /** What the table says about one channel, and what is refused. */
  lemma TrackExactly(table: Table, r: Request, started: bool)
    ensures Track(table, r, started).None? <==>
              if Id(r) in table then Version(r.tx) < Version(table[Id(r)].latest) else !started
    ensures Track(table, r, started).Some? ==>
              var table' := Track(table, r, started).value;
              && table'.Keys == table.Keys + {Id(r)}
              && (forall id :: id in table && id != Id(r) ==> table'[id] == table[id])
              && table'[Id(r)].latest == r.tx && table'[Id(r)].acc == r.auth
              && (if Id(r) in table then table'[Id(r)].params == table[Id(r)].params && table'[Id(r)].idx == table[Id(r)].idx
                  else table'[Id(r)].params == r.params && table'[Id(r)].idx == r.participant)
  {
  }

  /** Verification first, then the locked section. */
  function Admit(h: Hashes, table: Table, r: Request, started: bool): Option<Table> {
    if Verified(h, r) then Track(table, r, started) else None
  }

  function Snapshot(e: Entry): Registration {
    Registration(e.params, e.acc, e.latest, e.idx)
  }

  datatype Disputed = UnknownChannel | Panics | AlreadyRegistered | Register(req: Registration)

  class WatcherService {
    const h: Hashes
    var watching: Table

    constructor (h: Hashes)
      ensures this.h == h && watching == map[]
    {
      this.h, this.watching := h, map[];
    }

    /** The locked section that starts or updates an entry, field by field. */
    method Watch(r: Request, started: bool) returns (ok: bool)
      modifies this
      ensures ok <==> Admit(h, old(watching), r, started).Some?
      ensures watching == if ok then Admit(h, old(watching), r, started).value else old(watching)
    {
      if r.tx.state.id != h.id(r.params) {
        return false;
      }
      ok := VerifySigs(r.tx.sigs, r.tx.state, r.params);
      if !ok {
        return;
      }
      var id := r.tx.state.id;
      if id in watching {
        var entry := watching[id];
        if r.tx.state.version < entry.latest.state.version {
          return false;
        }
        entry := entry.(latest := entry.latest.(state := r.tx.state));
        entry := entry.(latest := entry.latest.(sigs := r.tx.sigs));
        entry := entry.(acc := r.auth);
        watching := watching[id := entry];
      } else {
        if !started {
          return false;
        }
        watching := watching[id := Entry(r.params, r.participant, r.auth, r.tx)];
      }
    }

    /** A dispute that no other thread interrupts. `registered` tells whether the
        final state of a supplied request can be registered on-chain: `Watch` fails
        otherwise, after it has updated the table. */
    method StartDispute(u: Dispute, started: bool, registered: bool) returns (r: Disputed)
      modifies this
      ensures r.UnknownChannel? <==> u.id !in old(watching)
      ensures r.Panics? <==>
                (u.id in old(watching) && u.latest.Some?
                 && (Admit(h, old(watching), u.latest.value, started).None? || (u.latest.value.tx.state.isFinal && !registered)))
      ensures r.AlreadyRegistered? <==>
                (u.id in old(watching) && u.latest.Some? && u.latest.value.tx.state.isFinal
                 && Admit(h, old(watching), u.latest.value, started).Some? && registered)
      ensures watching == if u.id in old(watching) && u.latest.Some? && Admit(h, old(watching), u.latest.value, started).Some?
                          then Admit(h, old(watching), u.latest.value, started).value else old(watching)
      ensures r.Register? ==>
                && u.id in watching && r.req == Snapshot(watching[u.id])
                && Version(old(watching)[u.id].latest) <= Version(r.req.tx)
                && (u.latest.Some? && Id(u.latest.value) == u.id ==> r.req.tx == u.latest.value.tx)
    {
      if u.id !in watching {
        return UnknownChannel;
      }
      if u.latest.Some? {
        var ok := Watch(u.latest.value, started);
        if !ok {
          return Panics;
        }
        if u.latest.value.tx.state.isFinal {
          return if registered then AlreadyRegistered else Panics;
        }
      }
      return Register(Snapshot(watching[u.id]));
    }
  }

  // ----- Threads -----

  datatype Thread =
    | Watching(r: Request)
    | Disputing(u: Dispute)
    | Known(u: Dispute)
    | Updated(u: Dispute)
    | Registered(u: Dispute, req: Registration, at: nat)
    | Withdrawing(id: Hash)
    | Withdrawn(id: Hash, req: Registration, at: nat)
    | Returned
    | Failed
    | Panicked

  /** The table, all threads ever started, and the requests accepted so far. */
  datatype World = World(table: Table, threads: seq<Thread>, accepted: seq<Request>)

  const EMPTY := World(map[], [], [])

  /** Takes the request into the table and lets the thread go on as `done` or `bad`. */
  function Take(h: Hashes, w: World, k: nat, r: Request, started: bool, done: Thread, bad: Thread): World
    requires k < |w.threads|
  {
    var t := Admit(h, w.table, r, started);
    if t.None? then w.(threads := w.threads[k := bad])
    else
      var threads := w.threads[k := done];
      World(t.value, if Id(r) in w.table then threads else threads + [Withdrawing(Id(r))], w.accepted + [r])
  }

  /** The next locked section of thread `k`. */
  function Step(h: Hashes, w: World, k: nat, started: bool): World
    requires k < |w.threads|
  {
    match w.threads[k]
    case Watching(r) => Take(h, w, k, r, started, Returned, Failed)
    case Disputing(u) => w.(threads := w.threads[k := if u.id in w.table then Known(u) else Failed])
    case Known(u) =>
      if u.latest.None? then w.(threads := w.threads[k := Updated(u)])
      else Take(h, w, k, u.latest.value, started, if u.latest.value.tx.state.isFinal then Returned else Updated(u), Panicked)
    case Updated(u) =>
      if u.id in w.table then w.(threads := w.threads[k := Registered(u, Snapshot(w.table[u.id]), |w.accepted|)]) else w
    case Withdrawing(id) =>
      if id in w.table then w.(threads := w.threads[k := Withdrawn(id, Snapshot(w.table[id]), |w.accepted|)]) else w
    case _ => w
  }

  datatype Event = WatchCall(r: Request) | DisputeCall(u: Dispute) | Section(k: nat, started: bool)

  function Next(h: Hashes, w: World, ev: Event): World {
    match ev
    case WatchCall(r) => w.(threads := w.threads + [Watching(r)])
    case DisputeCall(u) => w.(threads := w.threads + [Disputing(u)])
    case Section(k, started) => if k < |w.threads| then Step(h, w, k, started) else w
  }

  function Run(h: Hashes, w: World, evs: seq<Event>): World
    decreases evs
  {
    if evs == [] then w else Run(h, Next(h, w, evs[0]), evs[1..])
  }

  // ----- The invariant -----

  /** Parameters and index come from the first accepted request of channel `id`. */
  ghost predicate OpenedBy(accepted: seq<Request>, at: nat, id: Hash, req: Registration)
    requires at <= |accepted|
  {
    exists i :: 0 <= i < at && Id(accepted[i]) == id && req.params == accepted[i].params
                && req.idx == accepted[i].participant && forall j :: 0 <= j < i ==> Id(accepted[j]) != id
  }

  /** `req` is channel `id`'s newest among the first `at` accepted requests: state,
      signatures and account come from one verified request. */
  ghost predicate Newest(h: Hashes, accepted: seq<Request>, at: nat, id: Hash, req: Registration) {
    && at <= |accepted| && h.id(req.params) == id && OpenedBy(accepted, at, id, req)
    && (exists j :: 0 <= j < at && Id(accepted[j]) == id && req.tx == accepted[j].tx && req.acc == accepted[j].auth)
    && (forall j :: 0 <= j < at && Id(accepted[j]) == id ==> Version(accepted[j].tx) <= Version(req.tx))
  }

  ghost predicate TableOk(h: Hashes, table: Table, accepted: seq<Request>) {
    && (forall j :: 0 <= j < |accepted| ==> Verified(h, accepted[j]) && Id(accepted[j]) in table)
    && (forall id :: id in table ==> Newest(h, accepted, |accepted|, id, Snapshot(table[id])))
  }

  ghost predicate ThreadOk(h: Hashes, table: Table, accepted: seq<Request>, t: Thread) {
    match t
    case Known(u) => u.id in table
    case Updated(u) => u.id in table && (u.latest.Some? ==> u.latest.value in accepted && !u.latest.value.tx.state.isFinal)
    case Registered(u, req, at) =>
      && Newest(h, accepted, at, u.id, req)
      && (u.latest.Some? ==> u.latest.value in accepted[..at] && !u.latest.value.tx.state.isFinal)
    case Withdrawing(id) => id in table
    case Withdrawn(id, req, at) => Newest(h, accepted, at, id, req)
    case _ => true
  }

  ghost predicate Inv(h: Hashes, w: World) {
    && TableOk(h, w.table, w.accepted)
    && forall k :: 0 <= k < |w.threads| ==> ThreadOk(h, w.table, w.accepted, w.threads[k])
  }

  lemma TrackOk(h: Hashes, table: Table, accepted: seq<Request>, r: Request, started: bool)
    requires TableOk(h, table, accepted) && Verified(h, r) && Track(table, r, started).Some?
    ensures TableOk(h, Track(table, r, started).value, accepted + [r])
  {
    var table', accepted' := Track(table, r, started).value, accepted + [r];
    forall id | id in table'
      ensures Newest(h, accepted', |accepted'|, id, Snapshot(table'[id]))
    {
      if id in table {
        assert Newest(h, accepted, |accepted|, id, Snapshot(table[id]));
        OpenedKept(accepted, |accepted|, |accepted'|, id, Snapshot(table[id]), Snapshot(table'[id]), [r]);
      }
      if id == Id(r) {
        assert accepted'[|accepted|] == r;
      } else {
        NewestKept(h, accepted, |accepted|, id, Snapshot(table[id]), [r]);
      }
    }
  }

  lemma OpenedKept(accepted: seq<Request>, at: nat, at': nat, id: Hash, req: Registration, req': Registration, more: seq<Request>)
    requires at <= |accepted| && at <= at' <= |accepted + more|
    requires OpenedBy(accepted, at, id, req) && req'.params == req.params && req'.idx == req.idx
    ensures OpenedBy(accepted + more, at', id, req')
  {
    var i :| 0 <= i < at && Id(accepted[i]) == id && req.params == accepted[i].params
             && req.idx == accepted[i].participant && forall j :: 0 <= j < i ==> Id(accepted[j]) != id;
    assert (accepted + more)[i] == accepted[i];
    assert forall j :: 0 <= j < i ==> (accepted + more)[j] == accepted[j];
  }

  lemma NewestKept(h: Hashes, accepted: seq<Request>, at: nat, id: Hash, req: Registration, more: seq<Request>)
    requires Newest(h, accepted, at, id, req)
    ensures Newest(h, accepted + more, at, id, req)
  {
    var j :| 0 <= j < at && Id(accepted[j]) == id && req.tx == accepted[j].tx && req.acc == accepted[j].auth;
    assert (accepted + more)[j] == accepted[j];
    OpenedKept(accepted, at, at, id, req, req, more);
  }

  lemma ThreadKept(h: Hashes, table: Table, accepted: seq<Request>, t: Thread, table': Table, more: seq<Request>)
    requires ThreadOk(h, table, accepted, t) && table.Keys <= table'.Keys
    ensures ThreadOk(h, table', accepted + more, t)
  {
    match t
    case Registered(u, req, at) =>
      NewestKept(h, accepted, at, u.id, req, more);
      assert (accepted + more)[..at] == accepted[..at];
    case Withdrawn(id, req, at) => NewestKept(h, accepted, at, id, req, more);
    case _ =>
  }

  lemma TakeKeepsInv(h: Hashes, w: World, k: nat, r: Request, started: bool, done: Thread, bad: Thread)
    requires Inv(h, w) && k < |w.threads|
    requires Track(w.table, r, started).Some? ==> ThreadOk(h, Track(w.table, r, started).value, w.accepted + [r], done)
    requires ThreadOk(h, w.table, w.accepted, bad)
    ensures Inv(h, Take(h, w, k, r, started, done, bad))
  {
    if Verified(h, r) && Track(w.table, r, started).Some? {
      var table := Track(w.table, r, started).value;
      TrackOk(h, w.table, w.accepted, r, started);
      Taken(h, w, k, r, table, done);
    } else {
      MoveOn(h, w, k, bad);
    }
  }

  /** With the new table in place, with and without a thread for a new channel. */
  lemma Taken(h: Hashes, w: World, k: nat, r: Request, table: Table, done: Thread)
    requires Inv(h, w) && k < |w.threads| && w.table.Keys <= table.Keys && Id(r) in table
    requires TableOk(h, table, w.accepted + [r]) && ThreadOk(h, table, w.accepted + [r], done)
    ensures Inv(h, World(table, w.threads[k := done], w.accepted + [r]))
    ensures Inv(h, World(table, w.threads[k := done] + [Withdrawing(Id(r))], w.accepted + [r]))
  {
    ThreadsKept(h, w, table, r);
    var kept := World(table, w.threads[k := done], w.accepted + [r]);
    assert Inv(h, kept);
    Spawn(h, kept, Withdrawing(Id(r)));
  }

  lemma ThreadsKept(h: Hashes, w: World, table: Table, r: Request)
    requires Inv(h, w) && w.table.Keys <= table.Keys
    ensures forall i :: 0 <= i < |w.threads| ==> ThreadOk(h, table, w.accepted + [r], w.threads[i])
  {
    forall i | 0 <= i < |w.threads|
      ensures ThreadOk(h, table, w.accepted + [r], w.threads[i])
    {
      ThreadKept(h, w.table, w.accepted, w.threads[i], table, [r]);
    }
  }

  lemma Spawn(h: Hashes, w: World, t: Thread)
    requires Inv(h, w) && ThreadOk(h, w.table, w.accepted, t)
    ensures Inv(h, w.(threads := w.threads + [t]))
  {
  }

  lemma MoveOn(h: Hashes, w: World, k: nat, t: Thread)
    requires Inv(h, w) && k < |w.threads| && ThreadOk(h, w.table, w.accepted, t)
    ensures Inv(h, w.(threads := w.threads[k := t]))
  {
  }

  lemma StepKeepsInv(h: Hashes, w: World, k: nat, started: bool)
    requires Inv(h, w) && k < |w.threads|
    ensures Inv(h, Step(h, w, k, started))
  {
    assert ThreadOk(h, w.table, w.accepted, w.threads[k]);
    match w.threads[k]
    case Watching(r) => TakeKeepsInv(h, w, k, r, started, Returned, Failed);
    case Disputing(u) => MoveOn(h, w, k, if u.id in w.table then Known(u) else Failed);
    case Known(u) =>
      if u.latest.Some? {
        TakeKeepsInv(h, w, k, u.latest.value, started, if u.latest.value.tx.state.isFinal then Returned else Updated(u), Panicked);
      } else {
        MoveOn(h, w, k, Updated(u));
      }
    case Updated(u) =>
      assert w.accepted[..|w.accepted|] == w.accepted;
      MoveOn(h, w, k, Registered(u, Snapshot(w.table[u.id]), |w.accepted|));
    case Withdrawing(id) => MoveOn(h, w, k, Withdrawn(id, Snapshot(w.table[id]), |w.accepted|));
    case _ =>
  }

  lemma {:induction false} RunKeepsInv(h: Hashes, w: World, evs: seq<Event>)
    requires Inv(h, w)
    ensures Inv(h, Run(h, w, evs))
    decreases evs
  {
    if evs != [] {
      if evs[0].Section? && evs[0].k < |w.threads| {
        StepKeepsInv(h, w, evs[0].k, evs[0].started);
      }
      RunKeepsInv(h, Next(h, w, evs[0]), evs[1..]);
    }
  }

  // ----- What every interleaving keeps -----

  /** Exactly the channels with an accepted request are in the table, and the latest
      version is the largest one accepted. */
  lemma {:induction false} LatestIsMaximum(h: Hashes, evs: seq<Event>, id: Hash)
    ensures var w := Run(h, EMPTY, evs);
            && (id in w.table <==> exists j :: 0 <= j < |w.accepted| && Id(w.accepted[j]) == id)
            && (id in w.table ==>
                  && (exists j :: 0 <= j < |w.accepted| && Id(w.accepted[j]) == id && w.accepted[j].tx == w.table[id].latest)
                  && (forall j :: 0 <= j < |w.accepted| && Id(w.accepted[j]) == id ==>
                        Version(w.accepted[j].tx) <= Version(w.table[id].latest)))
  {
    RunKeepsInv(h, EMPTY, evs);
  }

  /** An entry never goes away and never returns to an older version. */
  lemma {:induction false} NeverDrops(h: Hashes, w: World, evs: seq<Event>, id: Hash)
    requires id in w.table
    ensures id in Run(h, w, evs).table
    ensures Version(w.table[id].latest) <= Version(Run(h, w, evs).table[id].latest)
    decreases evs
  {
    if evs != [] {
      NeverDrops(h, Next(h, w, evs[0]), evs[1..], id);
    }
  }

  /** A snapshot for a dispute pairs state, signatures and account of one verified
      request, the newest of its channel at that moment. If the dispute brought a
      request for the same channel, the snapshot is at least as new. */
  lemma {:induction false} DisputeSnapshot(h: Hashes, evs: seq<Event>, k: nat)
    requires k < |Run(h, EMPTY, evs).threads| && Run(h, EMPTY, evs).threads[k].Registered?
    ensures var w := Run(h, EMPTY, evs);
            var Registered(u, req, at) := w.threads[k];
            && Newest(h, w.accepted, at, u.id, req)
            && (u.latest.Some? && Id(u.latest.value) == u.id ==> Version(u.latest.value.tx) <= Version(req.tx))
  {
    RunKeepsInv(h, EMPTY, evs);
    var w := Run(h, EMPTY, evs);
    var Registered(u, req, at) := w.threads[k];
    assert ThreadOk(h, w.table, w.accepted, w.threads[k]);
    if u.latest.Some? && Id(u.latest.value) == u.id {
      SuppliedIsCovered(h, w.accepted, at, u.latest.value, req);
    }
  }

  lemma SuppliedIsCovered(h: Hashes, accepted: seq<Request>, at: nat, r: Request, req: Registration)
    requires Newest(h, accepted, at, Id(r), req) && r in accepted[..at]
    ensures Version(r.tx) <= Version(req.tx)
  {
    var j :| 0 <= j < at && accepted[..at][j] == r;
    assert accepted[j] == r;
  }

  // ----- Without interference -----

  /** A dispute that no other thread interrupts: what it ends with and what it leaves in
      the table. */
  lemma DisputeFinishes(h: Hashes, w: World, k: nat, u: Dispute, started: bool)
    requires k < |w.threads| && w.threads[k] == Disputing(u)
    ensures var w' := Step(h, Step(h, Step(h, w, k, started), k, started), k, started);
            var taken := if u.latest.Some? && u.id in w.table then Admit(h, w.table, u.latest.value, started) else None;
            && w'.table == (if taken.Some? then taken.value else w.table)
            && w'.accepted == (if taken.Some? then w.accepted + [u.latest.value] else w.accepted)
            && |w'.threads| > k
            && w'.threads[k] ==
               if u.id !in w.table then Failed
               else if u.latest.Some? && taken.None? then Panicked
               else if u.latest.Some? && u.latest.value.tx.state.isFinal then Returned
               else Registered(u, Registration(w'.table[u.id].params, w'.table[u.id].acc, w'.table[u.id].latest, w'.table[u.id].idx),
                               |w'.accepted|)
  {
  }

  /** A watch call is done in one locked section. A new channel gets a thread that
      withdraws for it, with what is the latest by then. */
  lemma WatchFinishes(h: Hashes, w: World, k: nat, r: Request, started: bool)
    requires k < |w.threads| && w.threads[k] == Watching(r)
    ensures var w', taken := Step(h, w, k, started), Admit(h, w.table, r, started);
            && |w'.threads| > k && w'.threads[k] == (if taken.Some? then Returned else Failed)
            && w'.table == (if taken.Some? then taken.value else w.table)
            && w'.accepted == (if taken.Some? then w.accepted + [r] else w.accepted)
            && w'.threads[|w.threads|..] == if taken.Some? && Id(r) !in w.table then [Withdrawing(Id(r))] else []
  {
  }

  lemma WithdrawalFinishes(h: Hashes, w: World, k: nat, id: Hash, started: bool)
    requires Inv(h, w) && k < |w.threads| && w.threads[k] == Withdrawing(id)
    ensures id in w.table
    ensures Step(h, w, k, started) == w.(threads := w.threads[k :=
              Withdrawn(id, Registration(w.table[id].params, w.table[id].acc, w.table[id].latest, w.table[id].idx), |w.accepted|)])
  {
    assert ThreadOk(h, w.table, w.accepted, w.threads[k]);
  }

  /** Accepted requests with one id have the same participants. */
  ghost predicate NoCollision(h: Hashes, accepted: seq<Request>) {
    forall i, j :: 0 <= i < |accepted| && 0 <= j < |accepted| && Id(accepted[i]) == Id(accepted[j]) ==>
      accepted[i].params.participants == accepted[j].params.participants
  }

  /** Signed by the participants in its own parameters. */
  predicate OwnSigned(h: Hashes, req: Registration) {
    SigsVerify(req.tx.sigs, req.tx.state, req.params) && req.tx.state.id == h.id(req.params)
  }

  lemma NewestIsSigned(h: Hashes, accepted: seq<Request>, at: nat, id: Hash, req: Registration)
    requires Newest(h, accepted, at, id, req) && NoCollision(h, accepted)
    requires forall j :: 0 <= j < |accepted| ==> Verified(h, accepted[j])
    ensures OwnSigned(h, req)
  {
    var i :| 0 <= i < at && Id(accepted[i]) == id && req.params == accepted[i].params
             && req.idx == accepted[i].participant && forall j :: 0 <= j < i ==> Id(accepted[j]) != id;
    var j :| 0 <= j < at && Id(accepted[j]) == id && req.tx == accepted[j].tx && req.acc == accepted[j].auth;
    assert Verified(h, accepted[i]) && Verified(h, accepted[j]);
  }

  predicate HasSnapshot(t: Thread) { t.Registered? || t.Withdrawn? }

  /** Unless accepted requests with one id differ in their participants, whatever is
      registered or withdrawn is signed by the participants in its own parameters. */
  lemma {:induction false} SnapshotFullySigned(h: Hashes, evs: seq<Event>, k: nat)
    requires NoCollision(h, Run(h, EMPTY, evs).accepted)
    requires k < |Run(h, EMPTY, evs).threads| && HasSnapshot(Run(h, EMPTY, evs).threads[k])
    ensures OwnSigned(h, Run(h, EMPTY, evs).threads[k].req)
  {
    RunKeepsInv(h, EMPTY, evs);
    var w := Run(h, EMPTY, evs);
    var t := w.threads[k];
    assert ThreadOk(h, w.table, w.accepted, t);
    NewestIsSigned(h, w.accepted, t.at, if t.Registered? then t.u.id else t.id, t.req);
  }

  /** A signature belongs to one address only. */
  lemma SignersDiffer(sigs: seq<Signature>, s: ChState, p: ChParams, q: ChParams)
    requires SigsVerify(sigs, s, p) && p.participants != q.participants
    ensures !SigsVerify(sigs, s, q)
  {
    assert p.participants[0] != q.participants[0] || p.participants[1] != q.participants[1];
    var i := if p.participants[0] != q.participants[0] then 0 else 1;
    assert SignedBy(sigs[i], p.participants[i], s) && !SignedBy(sigs[i], q.participants[i], s);
  }

  /** With a collision it fails: any two verified requests of different participants
      with the same id, taken in turn, lead to a registration under the parameters of
      the first with the signatures of the second. */
  lemma {:induction false} CollisionMixesParticipants(h: Hashes, first: Request, second: Request)
    requires Verified(h, first) && Verified(h, second) && Id(first) == Id(second)
    requires first.params.participants != second.params.participants && Version(first.tx) <= Version(second.tx)
    ensures var section := Section(3, true);
            var evs := [WatchCall(first), Section(0, true), WatchCall(second)]
                       + ([Section(2, true), DisputeCall(Dispute(Id(first), None)), section] + ([section, section] + []));
            var t := Run(h, EMPTY, evs).threads;
            && |t| > 3 && t[3].Registered? && t[3].req.params == first.params && t[3].req.tx == second.tx
            && !OwnSigned(h, t[3].req)
  {
    var id, u := Id(first), Dispute(Id(first), None);
    var section := Section(3, true);
    var e := Entry(first.params, first.participant, second.auth, second.tx);
    var w1 := Next(h, EMPTY, WatchCall(first));
    var w2 := Next(h, w1, Section(0, true));
    assert w2 == World(map[id := Entry(first.params, first.participant, first.auth, first.tx)], [Returned, Withdrawing(id)], [first]);
    var w3 := Next(h, w2, WatchCall(second));
    var w4 := Next(h, w3, Section(2, true));
    assert w4 == World(map[id := e], [Returned, Withdrawing(id), Returned], [first, second]);
    var w5 := Next(h, w4, DisputeCall(u));
    var w6 := Next(h, w5, section);
    var w7 := Next(h, w6, section);
    assert w7.threads[3] == Updated(u) && w7.table == map[id := e];
    var w8 := Next(h, w7, section);
    RunThree(h, EMPTY, WatchCall(first), Section(0, true), WatchCall(second),
             [Section(2, true), DisputeCall(u), section] + ([section, section] + []));
    RunThree(h, w3, Section(2, true), DisputeCall(u), section, [section, section] + []);
    RunCons(h, w6, section, [section] + []);
    RunCons(h, w7, section, []);
    assert [section] + ([section] + []) == [section, section] + [];
    SignersDiffer(second.tx.sigs, second.tx.state, second.params, first.params);
  }

  /** Nothing compares the id of a dispute with that of the request it brings: with a
      newer request for another channel, the snapshot is older than what was supplied. */
  lemma {:induction false} OtherChannelIsNotFresher(h: Hashes, older: Request, newer: Request)
    requires Verified(h, older) && Verified(h, newer) && !newer.tx.state.isFinal
    requires Id(older) != Id(newer) && Version(older.tx) < Version(newer.tx)
    ensures var u := Dispute(Id(older), Some(newer));
            var evs := [WatchCall(older), Section(0, true), DisputeCall(u), Section(2, true), Section(2, true), Section(2, true)];
            var t := Run(h, EMPTY, evs).threads;
            |t| > 2 && t[2].Registered? && t[2].u == u && Version(t[2].req.tx) < Version(newer.tx)
  {
    var u := Dispute(Id(older), Some(newer));
    var e0 := Entry(older.params, older.participant, older.auth, older.tx);
    var e1 := Entry(newer.params, newer.participant, newer.auth, newer.tx);
    var w1 := Next(h, EMPTY, WatchCall(older));
    var w2 := Next(h, w1, Section(0, true));
    assert w2 == World(map[Id(older) := e0], [Returned, Withdrawing(Id(older))], [older]);
    var w3 := Next(h, w2, DisputeCall(u));
    var w4 := Next(h, w3, Section(2, true));
    assert w4.threads == [Returned, Withdrawing(Id(older)), Known(u)];
    var w5 := Next(h, w4, Section(2, true));
    assert w5.threads[2] == Updated(u) && w5.table[Id(older)] == e0;
    var w6 := Next(h, w5, Section(2, true));
    var section := Section(2, true);
    RunThree(h, EMPTY, WatchCall(older), Section(0, true), DisputeCall(u), [section, section, section]);
    RunThree(h, w3, section, section, section, []);
    assert [section, section, section] + [] == [section, section, section];
    assert [WatchCall(older), Section(0, true), DisputeCall(u)] + [section, section, section]
        == [WatchCall(older), Section(0, true), DisputeCall(u), section, section, section];
  }

  // ----- Runs over a given set of requests -----

  /** Every call of the run brings a request of `s`. */
  predicate Brings(evs: seq<Event>, s: iset<Request>) {
    forall k :: 0 <= k < |evs| ==> CallIn(evs[k], s)
  }

  predicate CallIn(ev: Event, s: iset<Request>) {
    match ev
    case WatchCall(r) => r in s
    case DisputeCall(u) => u.latest.Some? ==> u.latest.value in s
    case Section(_, _) => true
  }

  /** All that is accepted, or may be, is in `s`. */
  ghost predicate Within(w: World, s: iset<Request>) {
    && (forall j :: 0 <= j < |w.accepted| ==> w.accepted[j] in s)
    && (forall k :: 0 <= k < |w.threads| ==> ThreadIn(w.threads[k], s))
  }

  predicate ThreadIn(t: Thread, s: iset<Request>) {
    match t
    case Watching(r) => r in s
    case Disputing(u) => u.latest.Some? ==> u.latest.value in s
    case Known(u) => u.latest.Some? ==> u.latest.value in s
    case _ => true
  }

  lemma NextWithin(h: Hashes, w: World, ev: Event, s: iset<Request>)
    requires Within(w, s) && CallIn(ev, s)
    ensures Within(Next(h, w, ev), s)
  {
    if ev.Section? && ev.k < |w.threads| {
      assert ThreadIn(w.threads[ev.k], s);
    }
  }

  lemma {:induction false} RunWithin(h: Hashes, w: World, evs: seq<Event>, s: iset<Request>)
    requires Within(w, s) && Brings(evs, s)
    ensures Within(Run(h, w, evs), s)
    decreases evs
  {
    if evs != [] {
      assert CallIn(evs[0], s);
      NextWithin(h, w, evs[0], s);
      assert Brings(evs[1..], s) by {
        assert forall k :: 0 <= k < |evs[1..]| ==> evs[1..][k] == evs[k + 1];
      }
      RunWithin(h, Next(h, w, evs[0]), evs[1..], s);
    }
  }

  // ----- The exact conditions -----

  /** In this run, whatever thread `k` registers or withdraws is signed by its own
      participants. */
  ghost predicate SignedAt(h: Hashes, evs: seq<Event>, k: nat) {
    var t := Run(h, EMPTY, evs).threads;
    k < |t| && HasSnapshot(t[k]) ==> OwnSigned(h, t[k].req)
  }

  /** Two verified requests, one id, different participants. */
  predicate Mixes(h: Hashes, r: Request, r': Request) {
    Verified(h, r) && Verified(h, r') && Id(r) == Id(r') && r.params.participants != r'.params.participants
  }

  /** In every run over the requests of `s`, whatever is registered or withdrawn is
      signed by the participants in its parameters, if and only if no two verified
      requests of `s` with one id differ in their participants. */
  lemma {:induction false} SignedExactly(h: Hashes, s: iset<Request>)
    ensures (forall evs: seq<Event>, k: nat :: Brings(evs, s) ==> SignedAt(h, evs, k))
            <==> (forall r, r' :: r in s && r' in s ==> !Mixes(h, r, r'))
  {
    if r, r' :| r in s && r' in s && Mixes(h, r, r') {
      var evs := MixedRun(h, r, r', s);
      assert !SignedAt(h, evs, 3);
    } else {
      forall evs: seq<Event>, k: nat | Brings(evs, s)
        ensures SignedAt(h, evs, k)
      {
        SignedWithoutMixes(h, s, evs, k);
      }
    }
  }

  lemma {:induction false} SignedWithoutMixes(h: Hashes, s: iset<Request>, evs: seq<Event>, k: nat)
    requires Brings(evs, s) && forall r, r' :: r in s && r' in s ==> !Mixes(h, r, r')
    ensures SignedAt(h, evs, k)
  {
    RunKeepsInv(h, EMPTY, evs);
    RunWithin(h, EMPTY, evs, s);
    var w := Run(h, EMPTY, evs);
    NoMixesNoCollision(h, s, w.accepted);
    if k < |w.threads| && HasSnapshot(w.threads[k]) {
      SnapshotFullySigned(h, evs, k);
    }
  }

  lemma NoMixesNoCollision(h: Hashes, s: iset<Request>, accepted: seq<Request>)
    requires forall r, r' :: r in s && r' in s ==> !Mixes(h, r, r')
    requires forall j :: 0 <= j < |accepted| ==> Verified(h, accepted[j]) && accepted[j] in s
    ensures NoCollision(h, accepted)
  {
    forall i, j | 0 <= i < |accepted| && 0 <= j < |accepted| && Id(accepted[i]) == Id(accepted[j])
      ensures accepted[i].params.participants == accepted[j].params.participants
    {
      assert !Mixes(h, accepted[i], accepted[j]);
    }
  }

  /** Taken in the order of their versions they are mixed up. */
  lemma MixedRun(h: Hashes, r: Request, r': Request, s: iset<Request>) returns (evs: seq<Event>)
    requires r in s && r' in s && Mixes(h, r, r')
    ensures Brings(evs, s) && !SignedAt(h, evs, 3)
  {
    var first, second := if Version(r.tx) <= Version(r'.tx) then r else r', if Version(r.tx) <= Version(r'.tx) then r' else r;
    CollisionMixesParticipants(h, first, second);
    var section := Section(3, true);
    evs := [WatchCall(first), Section(0, true), WatchCall(second)]
           + ([Section(2, true), DisputeCall(Dispute(Id(first), None)), section] + ([section, section] + []));
  }

  /** If in this run thread `k` registers for a dispute for `id` that brought `r`, it
      registers a version at least as new. */
  ghost predicate FreshAt(h: Hashes, evs: seq<Event>, k: nat, id: Hash, r: Request) {
    var t := Run(h, EMPTY, evs).threads;
    k < |t| && t[k].Registered? && t[k].u == Dispute(id, Some(r)) ==> Version(r.tx) <= Version(t[k].req.tx)
  }

  /** A verified request for `id` that is older than `r`. */
  predicate Older(h: Hashes, id: Hash, r: Request, o: Request) {
    Verified(h, o) && Id(o) == id && Version(o.tx) < Version(r.tx)
  }

  /** In every run over the requests of `s`, a dispute for `id` that brings `r` registers
      a version at least as new as that of `r`, if and only if `r` is for `id`, or
      nothing is registered with it because it is not verified or final, or no verified
      request of `s` for `id` is older. */
  lemma {:induction false} FreshExactly(h: Hashes, s: iset<Request>, id: Hash, r: Request)
    requires r in s
    ensures (forall evs: seq<Event>, k: nat :: Brings(evs, s) ==> FreshAt(h, evs, k, id, r))
            <==> Id(r) == id || !Verified(h, r) || r.tx.state.isFinal || (forall o :: o in s ==> !Older(h, id, r, o))
  {
    if Id(r) != id && Verified(h, r) && !r.tx.state.isFinal && exists o :: o in s && Older(h, id, r, o) {
      var o :| o in s && Older(h, id, r, o);
      OtherChannelIsNotFresher(h, o, r);
      var u := Dispute(id, Some(r));
      var evs := [WatchCall(o), Section(0, true), DisputeCall(u), Section(2, true), Section(2, true), Section(2, true)];
      assert Brings(evs, s) && !FreshAt(h, evs, 2, id, r);
    } else {
      forall evs: seq<Event>, k: nat | Brings(evs, s)
        ensures FreshAt(h, evs, k, id, r)
      {
        FreshOtherwise(h, s, id, r, evs, k);
      }
    }
  }

  lemma {:induction false} FreshOtherwise(h: Hashes, s: iset<Request>, id: Hash, r: Request, evs: seq<Event>, k: nat)
    requires Brings(evs, s)
    requires Id(r) == id || !Verified(h, r) || r.tx.state.isFinal || forall o :: o in s ==> !Older(h, id, r, o)
    ensures FreshAt(h, evs, k, id, r)
  {
    RunKeepsInv(h, EMPTY, evs);
    RunWithin(h, EMPTY, evs, s);
    var w := Run(h, EMPTY, evs);
    if k < |w.threads| && w.threads[k].Registered? && w.threads[k].u == Dispute(id, Some(r)) {
      DisputeSnapshot(h, evs, k);
      assert ThreadOk(h, w.table, w.accepted, w.threads[k]);
      SuppliedIsVerified(h, w, w.threads[k].at, r);
      NotOlder(h, s, w.accepted, w.threads[k].at, id, w.threads[k].req, r);
    }
  }

  lemma SuppliedIsVerified(h: Hashes, w: World, at: nat, r: Request)
    requires TableOk(h, w.table, w.accepted) && at <= |w.accepted| && r in w.accepted[..at]
    ensures Verified(h, r)
  {
    var j :| 0 <= j < at && w.accepted[..at][j] == r;
    assert w.accepted[j] == r;
  }

  lemma NotOlder(h: Hashes, s: iset<Request>, accepted: seq<Request>, at: nat, id: Hash, req: Registration, r: Request)
    requires Newest(h, accepted, at, id, req)
    requires forall j :: 0 <= j < |accepted| ==> Verified(h, accepted[j]) && accepted[j] in s
    ensures (forall o :: o in s ==> !Older(h, id, r, o)) ==> Version(r.tx) <= Version(req.tx)
  {
    var j :| 0 <= j < at && Id(accepted[j]) == id && req.tx == accepted[j].tx && req.acc == accepted[j].auth;
    assert Verified(h, accepted[j]) && accepted[j] in s;
    if forall o :: o in s ==> !Older(h, id, r, o) {
      assert !Older(h, id, r, accepted[j]);
    }
  }

  lemma {:induction false} RunThree(h: Hashes, w: World, a: Event, b: Event, c: Event, evs: seq<Event>)
    ensures Run(h, w, [a, b, c] + evs) == Run(h, Next(h, Next(h, Next(h, w, a), b), c), evs)
  {
    RunCons(h, w, a, [b, c] + evs);
    RunCons(h, Next(h, w, a), b, [c] + evs);
    RunCons(h, Next(h, Next(h, w, a), b), c, evs);
    assert [a] + ([b, c] + evs) == [a, b, c] + evs && [b] + ([c] + evs) == [b, c] + evs;
  }

  lemma {:induction false} RunCons(h: Hashes, w: World, a: Event, evs: seq<Event>)
    ensures Run(h, w, [a] + evs) == Run(h, Next(h, w, a), evs)
  {
    assert ([a] + evs)[1..] == evs;
  }
}
