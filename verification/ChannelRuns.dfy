/** Whole runs of one channel: any number of updates are pending at once, and are
    created, signed and applied in any order. `apply` re-checks only version and
    channel id, yet nothing invalid is ever installed. */
module ChannelRuns {
  import opened Wrappers
  import opened Payment
  import opened Channel
  import opened Opening

  /** The channel, the update objects in existence, the requests sent so far and
      the states installed so far. */
  datatype World = World(
    ch: Active, pool: seq<Update>, watch: seq<WatchReq>, funder: seq<FunderReq>, hist: seq<ChState>)

  datatype Step =
    | ProposeStep(newState: ChState)
    | HandleStep(state: ChState, actorIdx: nat, sig: Signature)
    | AcceptStep(i: nat)
    | PeerStep(i: nat, idx: PartIdx, channel: Hash, version: u64, sig: Signature)
    | ApplyStep(i: nat)
    | ResendStep
    | ForceCloseStep
    | WithdrawStep
    | ForeignStep(u: Update)

  function AddTo(w: World, r: Result<Update, ChannelError>): World {
    match r
    case Ok(u) => w.(pool := w.pool + [u])
    case Err(_) => w
  }

  function Replace(w: World, i: nat, r: Result<Update, ChannelError>): World
    requires i < |w.pool|
  {
    match r
    case Ok(u) => w.(pool := w.pool[i := u])
    case Err(_) => w
  }

  /** An operation that fails, or panics, leaves the world as it was. `ForeignStep`
      brings in an update object that belongs to a channel with another id. */
  function Next(w: World, step: Step): World {
    match step
    case ProposeStep(s) => if TransitionPanics(w.ch.state, s) then w else AddTo(w, Propose(w.ch, s))
    case HandleStep(s, idx, sig) =>
      if HandlePanics(w.ch, s, idx, sig) then w else AddTo(w, HandleUpdate(w.ch, s, idx, sig))
    case AcceptStep(i) => if i < |w.pool| then Replace(w, i, Accept(w.pool[i], w.ch)) else w
    case PeerStep(i, idx, c, v, sig) =>
      if i < |w.pool| then Replace(w, i, ParticipantAccepted(w.pool[i], w.ch, idx, c, v, sig)) else w
    case ApplyStep(i) =>
      if i < |w.pool| && Apply(w.pool[i], w.ch).Ok? then Install(w, Apply(w.pool[i], w.ch).value) else w
    case ResendStep => w.(watch := w.watch + [CurrentWatchReq(w.ch)])
    case ForceCloseStep => w.(funder := w.funder + [RegisterReq(CurrentAdjudicatorReq(w.ch))])
    case WithdrawStep => w.(funder := w.funder + [WithdrawReq(CurrentAdjudicatorReq(w.ch))])
    case ForeignStep(u) => if u.channelId != w.ch.state.id then w.(pool := w.pool + [u]) else w
  }

  function Install(w: World, ch: Active): World {
    w.(ch := ch, hist := w.hist + [ch.state], watch := w.watch + [CurrentWatchReq(ch)])
  }

  function Run(w: World, steps: seq<Step>): World
    decreases steps
  {
    if steps == [] then w else Run(Next(w, steps[0]), steps[1..])
  }

  // ----- The invariant -----

  ghost predicate HistoryInv(w: World) {
    && |w.hist| == w.ch.state.version + 1 && w.hist[w.ch.state.version] == w.ch.state
    && (forall n :: 0 <= n < |w.hist| ==> w.hist[n].version == n && w.hist[n].id == w.ch.state.id)
    && (forall m, n :: 0 <= m && n == m + 1 && n < |w.hist| ==> ValidTransition(w.hist[m], w.hist[n]))
  }

  /** A pending update passed the full check against the state that preceded it. */
  ghost predicate Pending(u: Update, w: World) {
    && 1 <= u.newState.version <= |w.hist|
    && ValidTransition(w.hist[u.newState.version - 1], u.newState)
    && SlotsPartlySigned(w.ch, u.sigs, u.newState)
  }

  ghost predicate PoolInv(w: World) {
    forall k :: 0 <= k < |w.pool| && w.pool[k].channelId == w.ch.state.id ==> Pending(w.pool[k], w)
  }

  /** A transaction that was current at some point. */
  ghost predicate Genuine(w: World, params: ChParams, s: ChState, sigs: seq<Signature>) {
    && params == w.ch.params && s.version < |w.hist| && s == w.hist[s.version]
    && SlotsSigned(w.ch.(state := s, sigs := sigs))
  }

  ghost predicate WatchInv(w: World) {
    && |w.watch| > 0 && w.watch[|w.watch| - 1] == CurrentWatchReq(w.ch)
    && (forall k :: 0 <= k < |w.watch| ==> Genuine(w, w.watch[k].params, w.watch[k].state, w.watch[k].sigs))
    && (forall j, k :: 0 <= j <= k < |w.watch| ==> w.watch[j].state.version <= w.watch[k].state.version)
    && (forall n :: 0 <= n < |w.hist| ==> Reported(w.watch, w.hist[n]))
  }

  /** The watcher was told about `s`. */
  ghost predicate Reported(watch: seq<WatchReq>, s: ChState) {
    exists k :: 0 <= k < |watch| && watch[k].state == s
  }

  function AdjOf(f: FunderReq): Option<AdjudicatorReq> {
    match f
    case FundReq(_, _, _, _) => None
    case RegisterReq(a) => Some(a)
    case WithdrawReq(a) => Some(a)
  }

  /** Register and withdraw requests carry a transaction the watcher got, too. */
  ghost predicate FunderInv(w: World) {
    forall f :: f in w.funder && AdjOf(f).Some? ==>
      var a := AdjOf(f).value;
      a.idx == w.ch.partIdx && a.acc == w.ch.receiver && !a.secondary && WatchReq(a.params, a.state, a.sigs) in w.watch
  }

  ghost predicate Inv(w: World) {
    SlotsSigned(w.ch) && HistoryInv(w) && PoolInv(w) && WatchInv(w) && FunderInv(w)
  }

  /** A channel that has just been built. Nothing is said about our own slot, which
      the original checks nowhere. */
  ghost predicate Opened(h: Hashes, w: World) {
    && SlotsSigned(w.ch)
    && w.ch.state.version == 0 && w.ch.state.id == h.id(w.ch.params)
    && w.pool == [] && w.hist == [w.ch.state] && w.watch == [CurrentWatchReq(w.ch)]
    && forall f :: f in w.funder ==> f.FundReq?
  }

  lemma OpenedInv(h: Hashes, w: World)
    requires Opened(h, w)
    ensures Inv(w)
  {
    assert w.watch[0].state == w.hist[0];
  }

  /** The world right after `AgreedUponChannel::build`. */
  function BuiltWorld(a: Agreed): World
    requires BuildSigned(a).Ok?
  {
    var ch := BuildSigned(a).value;
    World(ch, [], [CurrentWatchReq(ch)], [FundingRequest(a)], [ch.state])
  }

  /** The opening phases lead there: an answered proposal, and then any order of
      signing and adding signatures after which the channel can be built. The channel
      has the terms of the proposal, and gives each participant its initial balance;
      the watcher is told once, and the funder is asked once for our own share. */
  lemma OpeningOpens(h: Hashes, p: Proposed, steps: seq<OpeningStep>)
    requires BuildAgreed(h, p).Ok?
    requires BuildSigned(OpeningRun(BuildAgreed(h, p).value, steps)).Ok?
    ensures var w := BuiltWorld(OpeningRun(BuildAgreed(h, p).value, steps));
            && Opened(h, w) && p.response.Some?
            && w.ch.partIdx == p.partIdx && w.ch.signer == p.signer && w.ch.receiver == p.receiver
            && w.ch.params.participants == [p.proposal.participant, p.response.value.participant]
            && w.ch.state.outcome.assets == [p.proposal.asset] && w.ch.state.outcome.balances == p.proposal.initBals
            && w.watch == [WatchReq(w.ch.params, w.ch.state, w.ch.sigs)]
            && w.funder == [FundReq(w.ch.partIdx, p.proposal.fundingAgreement, w.ch.params, w.ch.state)]
  {
    var a := BuildAgreed(h, p).value;
    BuiltFields(h, p);
    OpeningRunKeeps(a, steps);
    BuildSignedFully(OpeningRun(a, steps));
    assert Unsigned(OpeningRun(a, steps)) == Unsigned(a);
  }

  // ----- Every step keeps it -----

  lemma NewUpdatePending(w: World, s: ChState, idx: PartIdx, sig: Signature)
    requires Inv(w) && ValidTransition(w.ch.state, s) && SlotSigned(w.ch, idx, sig, s)
    ensures Inv(w.(pool := w.pool + [NewUpdate(w.ch, s, idx, sig)]))
  {
  }

  lemma ReplacePending(w: World, i: nat, u: Update)
    requires Inv(w) && i < |w.pool| && u.newState == w.pool[i].newState && u.channelId == w.pool[i].channelId
    requires u.channelId == w.ch.state.id ==> SlotsPartlySigned(w.ch, u.sigs, u.newState)
    ensures Inv(w.(pool := w.pool[i := u]))
  {
  }

  /** The weak check of `apply` suffices: the current state is still the one the
      update was fully checked against. */
  lemma LateApplicationValid(w: World, u: Update)
    requires Inv(w) && u in w.pool && Apply(u, w.ch).Ok?
    ensures ValidTransition(w.ch.state, u.newState)
    ensures SlotsSigned(Apply(u, w.ch).value) && (OwnSlot(w.ch) ==> FullySigned(Apply(u, w.ch).value))
  {
    var k :| 0 <= k < |w.pool| && w.pool[k] == u;
    assert Pending(w.pool[k], w);
  }

  lemma InstallInv(w: World, u: Update)
    requires Inv(w) && u in w.pool && Apply(u, w.ch).Ok?
    ensures Inv(Install(w, Apply(u, w.ch).value))
  {
    LateApplicationValid(w, u);
    var w' := Install(w, Apply(u, w.ch).value);
    assert HistoryInv(w');
    assert PoolInv(w') by {
      forall k | 0 <= k < |w.pool| && w.pool[k].channelId == w.ch.state.id
        ensures Pending(w'.pool[k], w')
      {
        assert Pending(w.pool[k], w);
      }
    }
    InstallWatch(w, w');
  }

  lemma InstallGenuine(w: World, w': World, k: nat)
    requires Inv(w) && w' == Install(w, w'.ch) && HistoryInv(w') && k < |w.watch|
    requires w'.ch == w.ch.(state := w'.ch.state, sigs := w'.ch.sigs)
    ensures Genuine(w', w.watch[k].params, w.watch[k].state, w.watch[k].sigs)
  {
    assert Genuine(w, w.watch[k].params, w.watch[k].state, w.watch[k].sigs);
    assert w.ch.(state := w.watch[k].state, sigs := w.watch[k].sigs)
        == w'.ch.(state := w.watch[k].state, sigs := w.watch[k].sigs);
  }

  lemma InstallCovers(w: World, w': World)
    requires WatchInv(w) && w' == Install(w, w'.ch)
    ensures forall n :: 0 <= n < |w'.hist| ==> Reported(w'.watch, w'.hist[n])
  {
    forall n | 0 <= n < |w'.hist|
      ensures Reported(w'.watch, w'.hist[n])
    {
      if n < |w.hist| {
        assert Reported(w.watch, w.hist[n]);
        var k :| 0 <= k < |w.watch| && w.watch[k].state == w.hist[n];
        assert w'.watch[k].state == w'.hist[n];
      } else {
        assert w'.watch[|w.watch|].state == w'.hist[n];
      }
    }
  }

  lemma InstallWatch(w: World, w': World)
    requires Inv(w) && w' == Install(w, w'.ch) && HistoryInv(w') && SlotsSigned(w'.ch)
    requires w'.ch == w.ch.(state := w'.ch.state, sigs := w'.ch.sigs) && w'.ch.state.version == w.ch.state.version + 1
    ensures WatchInv(w')
  {
    InstallCovers(w, w');
    forall k | 0 <= k < |w'.watch|
      ensures Genuine(w', w'.watch[k].params, w'.watch[k].state, w'.watch[k].sigs)
      ensures w'.watch[k].state.version <= w'.ch.state.version
    {
      if k < |w.watch| {
        InstallGenuine(w, w', k);
      }
    }
  }

  /** Every step keeps the invariant. */
  lemma NextKeepsInv(w: World, step: Step)
    requires Inv(w)
    ensures Inv(Next(w, step))
  {
    match step
    case ProposeStep(_) => CreateInv(w, step);
    case HandleStep(_, _, _) => CreateInv(w, step);
    case AcceptStep(_) => SignInv(w, step);
    case PeerStep(_, _, _, _, _) => SignInv(w, step);
    case ApplyStep(i) =>
      if i < |w.pool| && Apply(w.pool[i], w.ch).Ok? {
        InstallInv(w, w.pool[i]);
      }
    case ResendStep => ResendInv(w);
    case ForceCloseStep => AdjudicatorInv(w, RegisterReq(CurrentAdjudicatorReq(w.ch)));
    case WithdrawStep => AdjudicatorInv(w, WithdrawReq(CurrentAdjudicatorReq(w.ch)));
    case ForeignStep(u) => ForeignInv(w, u);
  }

  lemma CreateInv(w: World, step: Step)
    requires Inv(w) && (step.ProposeStep? || step.HandleStep?)
    ensures Inv(Next(w, step))
  {
    match step
    case ProposeStep(s) =>
      if !TransitionPanics(w.ch.state, s) && Propose(w.ch, s).Ok? {
        NewUpdatePending(w, s, w.ch.partIdx, Signature(w.ch.signer, StateDigest(s)));
      }
    case HandleStep(s, idx, sig) =>
      if !HandlePanics(w.ch, s, idx, sig) && HandleUpdate(w.ch, s, idx, sig).Ok? {
        NewUpdatePending(w, s, idx, sig);
      }
  }

  lemma SignInv(w: World, step: Step)
    requires Inv(w) && (step.AcceptStep? || step.PeerStep?)
    ensures Inv(Next(w, step))
  {
    if step.i < |w.pool| {
      var u := w.pool[step.i];
      match step
      case AcceptStep(_) =>
        if Accept(u, w.ch).Ok? {
          assert Pending(u, w);
          ReplacePending(w, step.i, Accept(u, w.ch).value);
        }
      case PeerStep(_, idx, c, v, sig) =>
        if ParticipantAccepted(u, w.ch, idx, c, v, sig).Ok? {
          assert Pending(u, w);
          ReplacePending(w, step.i, ParticipantAccepted(u, w.ch, idx, c, v, sig).value);
        }
    }
  }

  lemma AdjudicatorInv(w: World, f: FunderReq)
    requires Inv(w) && AdjOf(f) == Some(CurrentAdjudicatorReq(w.ch))
    ensures Inv(w.(funder := w.funder + [f]))
  {
    assert CurrentWatchReq(w.ch) in w.watch;
  }

  lemma ForeignInv(w: World, u: Update)
    requires Inv(w)
    ensures Inv(Next(w, ForeignStep(u)))
  {
  }

  lemma ResendInv(w: World)
    requires Inv(w)
    ensures Inv(Next(w, ResendStep))
  {
    var w' := Next(w, ResendStep);
    forall n | 0 <= n < |w'.hist|
      ensures Reported(w'.watch, w'.hist[n])
    {
      assert Reported(w.watch, w.hist[n]);
      var k :| 0 <= k < |w.watch| && w.watch[k].state == w.hist[n];
      assert w'.watch[k].state == w'.hist[n];
    }
    assert WatchInv(w');
  }

  lemma {:induction false} RunKeepsInv(w: World, steps: seq<Step>)
    requires Inv(w)
    ensures Inv(Run(w, steps))
    decreases steps
  {
    if steps != [] {
      NextKeepsInv(w, steps[0]);
      RunKeepsInv(Next(w, steps[0]), steps[1..]);
    }
  }

  // ----- What follows for whole runs -----

  /** The installed states are only ever extended, one version at a time. */
  lemma {:induction false} HistoryGrows(w: World, steps: seq<Step>)
    requires Inv(w)
    ensures w.hist <= Run(w, steps).hist && w.ch.state.version <= Run(w, steps).ch.state.version
    ensures Run(w, steps).ch.params == w.ch.params && Run(w, steps).ch.state.id == w.ch.state.id
    ensures OwnSlot(Run(w, steps).ch) == OwnSlot(w.ch)
    decreases steps
  {
    if steps != [] {
      var w' := Next(w, steps[0]);
      NextKeepsInv(w, steps[0]);
      assert w.hist <= w'.hist && |w'.hist| <= |w.hist| + 1;
      assert w'.hist[0].id == w'.ch.state.id && w.hist[0].id == w.ch.state.id;
      HistoryGrows(w', steps[1..]);
    }
  }

  lemma {:induction false} TransitionsConserve(w: World, n: nat)
    requires HistoryInv(w) && n < |w.hist|
    ensures Totals(w.hist[n].outcome) == Totals(w.hist[0].outcome)
    ensures w.hist[n].outcome.assets == w.hist[0].outcome.assets
  {
    if n > 0 {
      TransitionsConserve(w, n - 1);
      assert ValidTransition(w.hist[n - 1], w.hist[n]);
    }
  }

  /** Whatever happens after opening: the totals per asset and the assets are those of
      the initial state, the id is the hash of the parameters, the stored signatures are
      those of their slots, all valid if our own slot is ours, and the watcher knows
      exactly the current transaction. */
  lemma {:induction false} Conservation(h: Hashes, w: World, steps: seq<Step>)
    requires Opened(h, w)
    ensures var w' := Run(w, steps);
            && Totals(w'.ch.state.outcome) == Totals(w.ch.state.outcome)
            && w'.ch.state.outcome.assets == w.ch.state.outcome.assets
            && w'.ch.state.id == w.ch.state.id == h.id(w'.ch.params)
            && SlotsSigned(w'.ch) && (OwnSlot(w.ch) ==> FullySigned(w'.ch))
            && w'.watch != [] && w'.watch[|w'.watch| - 1] == WatchReq(w'.ch.params, w'.ch.state, w'.ch.sigs)
  {
    OpenedInv(h, w);
    RunKeepsInv(w, steps);
    HistoryGrows(w, steps);
    var w' := Run(w, steps);
    assert w'.hist[0] == w.hist[0];
    TransitionsConserve(w', w'.ch.state.version);
  }

  /** What the watcher was told, in every run: versions never decrease, every version
      up to the current one is there with one state only, and whatever is registered
      or withdrawn was reported before. */
  lemma {:induction false} WatcherLogTracks(h: Hashes, w: World, steps: seq<Step>)
    requires Opened(h, w)
    ensures var w' := Run(w, steps);
            var log := w'.watch;
            && (forall j, k :: 0 <= j <= k < |log| ==> log[j].state.version <= log[k].state.version)
            && (forall j, k :: 0 <= j < |log| && 0 <= k < |log| && log[j].state.version == log[k].state.version ==>
                  log[j].state == log[k].state)
            && |w'.hist| == w'.ch.state.version + 1
            && (forall n :: 0 <= n < |w'.hist| ==> w'.hist[n].version == n && Reported(log, w'.hist[n]))
            && FunderInv(w')
  {
    OpenedInv(h, w);
    RunKeepsInv(w, steps);
    var w' := Run(w, steps);
    var log := w'.watch;
    forall j, k | 0 <= j < |log| && 0 <= k < |log| && log[j].state.version == log[k].state.version
      ensures log[j].state == log[k].state
    {
      assert Genuine(w', log[j].params, log[j].state, log[j].sigs);
      assert Genuine(w', log[k].params, log[k].state, log[k].sigs);
    }
  }

  /** Once a final state is installed nothing is installed any more. */
  lemma {:induction false} FinalForever(w: World, steps: seq<Step>)
    requires Inv(w) && w.ch.state.isFinal
    ensures Run(w, steps).ch == w.ch && Run(w, steps).hist == w.hist
    decreases steps
  {
    if steps != [] {
      NextKeepsInv(w, steps[0]);
      if steps[0].ApplyStep? {
        var i := steps[0].i;
        if i < |w.pool| && Apply(w.pool[i], w.ch).Ok? {
          LateApplicationValid(w, w.pool[i]);
        }
      }
      FinalForever(Next(w, steps[0]), steps[1..]);
    }
  }

  /** Applying one update makes every update in existence fail, for good: no
      later run can apply any of them again. */
  lemma {:induction false} SiblingsFail(w: World, i: nat, u: Update, steps: seq<Step>)
    requires Inv(w) && i < |w.pool| && Apply(w.pool[i], w.ch).Ok? && u in w.pool
    ensures Apply(u, Run(w, [ApplyStep(i)] + steps).ch).Err?
  {
    var w' := Next(w, ApplyStep(i));
    NextKeepsInv(w, ApplyStep(i));
    assert ([ApplyStep(i)] + steps)[1..] == steps;
    HistoryGrows(w', steps);
    var k :| 0 <= k < |w.pool| && w.pool[k] == u;
    if u.channelId == w.ch.state.id {
      assert Pending(w.pool[k], w);
    }
  }
}
