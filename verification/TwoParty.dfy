/** Two demo channels and a network that may lose, delay, reorder and duplicate
    messages and deliver them to either side, but not invent them. */
module TwoParty {
  import opened Bytes
  import opened Wrappers
  import opened Payment
  import opened Channel
  import opened Opening
  import opened Demo
  import DemoRuns

  /** One participant and the states it has installed. */
  datatype Side = Side(inner: Inner, hist: seq<ChState>)

  /** Both participants and every message ever sent. */
  datatype RawSys = Sys(sides: seq<Side>, msgs: set<ParticipantMsg>)
  type Sys = s: RawSys | |s.sides| == 2 witness Sys([Side(Closed, []), Side(Closed, [])], {})

  /** What both sides start from: the proposal and its acceptance. */
  datatype Setup = Setup(h: Hashes, proposal: Proposal, acc: ProposalAcc, receivers: (Addr, Addr))

  function ParamsOf(c: Setup): ChParams { InitialParams(c.h, c.proposal, c.acc) }

  function StateOf(c: Setup): ChState {
    InitialState(c.h, ParamsOf(c), c.proposal.asset, c.proposal.initBals)
  }

  function Who(c: Setup, i: PartIdx): Addr { ParamsOf(c).participants[i] }

  /** The opening can be completed: the acceptance answers the proposal, and the
      participants have different keys. */
  predicate CanOpen(c: Setup) {
    c.acc.proposalId == c.proposal.proposalId && Who(c, 0) != Who(c, 1)
  }

  /** The proposer waits for an answer; the other side has accepted, built and
      signed its channel. */
  function Init(c: Setup): Sys {
    var a := AgreedUpon(1, Who(c, 1), c.receivers.1, c.proposal.fundingAgreement, StateOf(c), ParamsOf(c), [None, None]);
    Sys([Side(ProposedCh(Proposed(0, Who(c, 0), c.receivers.0, c.proposal, None)), []),
         Side(AgreedCh(a.(sigs := [None, Some(InitialSignature(a))])), [])],
        {ProposalAccepted(c.acc), InitialAcceptance(a)})
  }

  // ----- Runs -----

  /** A message that was sent reaches side `i`, or something else happens there. */
  datatype Move = Move(i: PartIdx, ev: Event)

  function StateIn(inner: Inner): Option<ChState> {
    match inner
    case SignedCh(ch, _, _) => Some(ch.state)
    case ActiveCh(ch, _) => Some(ch.state)
    case Closing(ch) => Some(ch.state)
    case _ => None
  }

  function Record(hist: seq<ChState>, before: Inner, after: Inner): seq<ChState> {
    if StateIn(after).Some? && StateIn(after) != StateIn(before) then hist + [StateIn(after).value] else hist
  }

  predicate Possible(sys: Sys, m: Move) {
    Enabled(sys.sides[m.i].inner, m.ev) && (m.ev.PeerEvent? ==> m.ev.msg in sys.msgs)
  }

  function Advance(sys: Sys, i: PartIdx, e: Effect): Sys {
    var side := sys.sides[i];
    Sys(sys.sides[i := Side(e.inner, Record(side.hist, side.inner, e.inner))], sys.msgs + set x | x in e.peers)
  }

  function Next(c: Setup, sys: Sys, m: Move): Sys {
    if Possible(sys, m) then Advance(sys, m.i, On(c.h, sys.sides[m.i].inner, m.ev)) else sys
  }

  function RunAll(c: Setup, sys: Sys, moves: seq<Move>): Sys
    decreases moves
  {
    if moves == [] then sys else RunAll(c, Next(c, sys, moves[0]), moves[1..])
  }

  // ----- The invariant -----

  predicate OursIs(c: Setup, ch: Active, i: PartIdx) {
    ch.params == ParamsOf(c) && ch.partIdx == i && ch.signer == Who(c, i)
  }

  /** The same channel, the same assets and as much of each as in the beginning. */
  predicate Conserved(s0: ChState, s: ChState) {
    s.id == s0.id && s.outcome.assets == s0.outcome.assets && Totals(s.outcome) == Totals(s0.outcome)
  }

  /** The installed states of one side, numbered by version. */
  ghost predicate HistOk(c: Setup, hist: seq<ChState>) {
    && (forall n :: 0 <= n < |hist| ==> hist[n].version == n && Conserved(StateOf(c), hist[n]))
    && (hist != [] ==> hist[0] == StateOf(c))
  }

  ghost predicate SideOk(c: Setup, side: Side, i: PartIdx) {
    && Demo.Inv(c.h, side.inner) && HistOk(c, side.hist)
    && match side.inner
       case ProposedCh(p) => i == 0 && p.partIdx == 0 && p.signer == Who(c, 0) && p.proposal == c.proposal && side.hist == []
       case AgreedCh(a) =>
         && a.params == ParamsOf(c) && a.partIdx == i && a.signer == Who(c, i) && a.initState == StateOf(c)
         && a.agreement == c.proposal.fundingAgreement && side.hist == []
       case SignedCh(ch, _, _) => OursIs(c, ch, i) && side.hist == [ch.state]
       case ActiveCh(ch, pending) =>
         && OursIs(c, ch, i) && |side.hist| == ch.state.version + 1 && side.hist[ch.state.version] == ch.state
         && (pending.Some? ==> NoOverflow(StateOf(c).outcome))
       case Closing(ch) => OursIs(c, ch, i) && |side.hist| == ch.state.version + 1 && side.hist[ch.state.version] == ch.state
       case _ => true
  }

  /** A side that has proposed the next version stays occupied with it. */
  predicate Occupied(inner: Inner) {
    Rank(inner) >= 3 && (inner.ActiveCh? ==> inner.pending.Some?)
  }

  /** State `s` is the initial state, or `side` has installed it. */
  predicate Endorsed(c: Setup, side: Side, s: State) {
    s == StateOf(c) || (s.version < |side.hist| && s == side.hist[s.version])
  }

  ghost predicate MsgOk(c: Setup, sides: seq<Side>, m: ParticipantMsg)
    requires |sides| == 2
  {
    match m
    case ChannelUpdateMsg(s, a, sig) =>
      && a < 2 && sig == Signature(Who(c, a), StateDigest(s))
      && Conserved(StateOf(c), s) && NoOverflow(StateOf(c).outcome)
      && 1 <= s.version <= |sides[a].hist|
      && (s.version == |sides[a].hist| ==> Occupied(sides[a].inner))
    case ChannelUpdateAccepted(_, v, sig) =>
      exists a: PartIdx :: sig.signer == Who(c, a) && sig.digest.state.version == v && Endorsed(c, sides[a], sig.digest.state)
    case ProposalAccepted(acc) => acc == c.acc
    case ChannelUpdateRejected(_, _) => !NoOverflow(StateOf(c).outcome)
    case _ => false
  }

  function ProposalOf(c: Setup, i: PartIdx, s: ChState): ParticipantMsg {
    ChannelUpdateMsg(s, i, Signature(Who(c, i), StateDigest(s)))
  }

  /** A side that is ahead got there by accepting a proposal of the other side. */
  ghost predicate AheadOk(c: Setup, sys: Sys, i: PartIdx) {
    forall n :: 1 <= n < |sys.sides[i].hist| && |sys.sides[1 - i].hist| <= n ==>
      ProposalOf(c, 1 - i, sys.sides[i].hist[n]) in sys.msgs
  }

  /** The two sides installed the same states, and are at most one apart. */
  ghost predicate Agreement(sys: Sys) {
    var a, b := sys.sides[0].hist, sys.sides[1].hist;
    && (forall n :: 0 <= n < |a| && n < |b| ==> a[n] == b[n])
    && -1 <= |a| - |b| <= 1
  }

  ghost predicate SysInv(c: Setup, sys: Sys) {
    && (forall i: PartIdx :: SideOk(c, sys.sides[i], i))
    && (forall m :: m in sys.msgs ==> MsgOk(c, sys.sides, m))
    && (forall i: PartIdx :: AheadOk(c, sys, i))
    && Agreement(sys)
  }

  lemma InitInv(c: Setup)
    ensures SysInv(c, Init(c))
  {
    var sys := Init(c);
    assert Endorsed(c, sys.sides[1], StateOf(c));
  }

  // ----- Steps that install nothing -----

  /** The history of side `i` stays, its phase moves on, messages are added. */
  lemma QuietStep(c: Setup, sys: Sys, i: PartIdx, e: Effect)
    requires SysInv(c, sys)
    requires Record(sys.sides[i].hist, sys.sides[i].inner, e.inner) == sys.sides[i].hist
    requires SideOk(c, Side(e.inner, sys.sides[i].hist), i)
    requires Occupied(sys.sides[i].inner) ==> Occupied(e.inner)
    requires forall m :: m in e.peers ==> MsgOk(c, Advance(sys, i, e).sides, m)
    ensures SysInv(c, Advance(sys, i, e))
  {
    var sys' := Advance(sys, i, e);
    assert forall j: PartIdx :: sys'.sides[j].hist == sys.sides[j].hist;
    forall m | m in sys'.msgs
      ensures MsgOk(c, sys'.sides, m)
    {
      if m in sys.msgs {
        MsgKept(c, sys.sides, sys'.sides, m);
      }
    }
    forall j: PartIdx
      ensures AheadOk(c, sys', j)
    {
      assert AheadOk(c, sys, j);
    }
  }

  /** Messages stay in order while histories grow and nobody gives up a proposal. */
  lemma MsgKept(c: Setup, sides: seq<Side>, sides': seq<Side>, m: ParticipantMsg)
    requires |sides| == |sides'| == 2 && MsgOk(c, sides, m)
    requires forall j: PartIdx :: sides[j].hist <= sides'[j].hist
    requires forall j: PartIdx :: sides'[j].hist == sides[j].hist && Occupied(sides[j].inner) ==> Occupied(sides'[j].inner)
    ensures MsgOk(c, sides', m)
  {
    match m
    case ChannelUpdateMsg(s, a, sig) =>
      assert sides[a].hist <= sides'[a].hist;
      if s.version == |sides'[a].hist| {
        assert sides'[a].hist == sides[a].hist;
      }
    case ChannelUpdateAccepted(_, v, sig) =>
      var a: PartIdx :| sig.signer == Who(c, a) && sig.digest.state.version == v && Endorsed(c, sides[a], sig.digest.state);
      assert sides[a].hist <= sides'[a].hist;
      assert Endorsed(c, sides'[a], sig.digest.state);
    case _ =>
  }

  // ----- Steps that install a state -----

  /** Side `i` may install `s`: it is the initial state, or the other side has
      proposed it, or the other side has installed it. */
  predicate Justified(c: Setup, sys: Sys, i: PartIdx, s: ChState) {
    var n, other := |sys.sides[i].hist|, sys.sides[1 - i].hist;
    || (n == 0 && s == StateOf(c))
    || (n < |other| && s == other[n])
    || (n == |other| && ProposalOf(c, 1 - i, s) in sys.msgs)
  }

  lemma InstallAhead(c: Setup, sys: Sys, i: PartIdx, sys': Sys, s: ChState)
    requires forall j: PartIdx :: AheadOk(c, sys, j)
    requires Justified(c, sys, i, s) && sys.msgs <= sys'.msgs
    requires sys'.sides[i].hist == sys.sides[i].hist + [s] && sys'.sides[1 - i] == sys.sides[1 - i]
    ensures forall j: PartIdx :: AheadOk(c, sys', j)
  {
    assert AheadOk(c, sys, i) && AheadOk(c, sys, 1 - i);
    assert AheadOk(c, sys', i);
    assert AheadOk(c, sys', 1 - i);
  }

  lemma InstallAgrees(c: Setup, sys: Sys, i: PartIdx, sys': Sys, s: ChState)
    requires Agreement(sys) && HistOk(c, sys.sides[1 - i].hist) && Justified(c, sys, i, s)
    requires sys'.sides[i].hist == sys.sides[i].hist + [s] && sys'.sides[1 - i] == sys.sides[1 - i]
    ensures Agreement(sys')
  {
    var mine, other := sys.sides[i].hist, sys.sides[1 - i].hist;
    assert |mine| < |other| ==> s == other[|mine|];
    if i == 0 {
      assert Agreement(sys');
    } else {
      assert Agreement(sys');
    }
  }

  lemma InstallStep(c: Setup, sys: Sys, i: PartIdx, e: Effect, s: ChState)
    requires SysInv(c, sys) && Justified(c, sys, i, s)
    requires Record(sys.sides[i].hist, sys.sides[i].inner, e.inner) == sys.sides[i].hist + [s]
    requires SideOk(c, Side(e.inner, sys.sides[i].hist + [s]), i)
    requires forall m :: m in e.peers ==> MsgOk(c, Advance(sys, i, e).sides, m)
    ensures SysInv(c, Advance(sys, i, e))
  {
    var sys' := Advance(sys, i, e);
    assert SideOk(c, sys.sides[1 - i], 1 - i);
    InstallAhead(c, sys, i, sys', s);
    InstallAgrees(c, sys, i, sys', s);
    assert forall j: PartIdx :: sys.sides[j].hist <= sys'.sides[j].hist;
    forall m | m in sys'.msgs
      ensures MsgOk(c, sys'.sides, m)
    {
      if m in sys.msgs {
        MsgKept(c, sys.sides, sys'.sides, m);
      }
    }
  }

  // ----- Every event, case by case -----

  lemma UpdateStep(c: Setup, sys: Sys, i: PartIdx, amount: U256, isFinal: bool)
    requires SysInv(c, sys)
    requires Enabled(sys.sides[i].inner, UpdateEvent(amount, isFinal))
    requires OnUpdate(sys.sides[i].inner, amount, isFinal).error.None?
    ensures SysInv(c, Advance(sys, i, OnUpdate(sys.sides[i].inner, amount, isFinal)))
  {
    var side, e := sys.sides[i], OnUpdate(sys.sides[i].inner, amount, isFinal);
    ProposalSide(c, side, i, amount, isFinal);
    assert MsgOk(c, Advance(sys, i, e).sides, e.peers[0]);
    QuietStep(c, sys, i, e);
  }

  lemma ProposalSide(c: Setup, side: Side, i: PartIdx, amount: U256, isFinal: bool)
    requires SideOk(c, side, i) && Enabled(side.inner, UpdateEvent(amount, isFinal))
    requires OnUpdate(side.inner, amount, isFinal).error.None?
    ensures var e := OnUpdate(side.inner, amount, isFinal);
            && SideOk(c, Side(e.inner, side.hist), i) && Record(side.hist, side.inner, e.inner) == side.hist
            && Occupied(e.inner) && |e.peers| == 1 && e.peers[0].ChannelUpdateMsg?
            && var s := e.peers[0].state;
               && e.peers[0] == ProposalOf(c, i, s) && s.version == |side.hist|
               && Conserved(StateOf(c), s) && NoOverflow(StateOf(c).outcome)
  {
    var ch := side.inner.ch;
    UpdateSound(c.h, side.inner, amount, isFinal);
    PaymentPanics(ch.state, ch.partIdx, amount, isFinal);
    ConservedTotalsFit(ch.state, StateOf(c));
  }

  lemma ProposalAcceptedStep(c: Setup, sys: Sys, i: PartIdx, acc: ProposalAcc)
    requires SysInv(c, sys) && sys.sides[i].inner.ProposedCh? && ProposalAccepted(acc) in sys.msgs
    requires OnProposalAccepted(c.h, sys.sides[i].inner.proposed, acc).error.None?
    ensures SysInv(c, Advance(sys, i, OnProposalAccepted(c.h, sys.sides[i].inner.proposed, acc)))
  {
    var side, e := sys.sides[i], OnProposalAccepted(c.h, sys.sides[i].inner.proposed, acc);
    assert SideOk(c, side, i) && MsgOk(c, sys.sides, ProposalAccepted(acc));
    ProposalSound(c.h, side.inner.proposed, acc);
    assert SideOk(c, Side(e.inner, side.hist), i);
    forall m | m in e.peers
      ensures MsgOk(c, Advance(sys, i, e).sides, m)
    {
      assert m.sig == Signature(Who(c, i), StateDigest(StateOf(c)));
      assert Endorsed(c, Advance(sys, i, e).sides[i], StateOf(c));
    }
    QuietStep(c, sys, i, e);
  }

  lemma InitialAcceptanceStep(c: Setup, sys: Sys, i: PartIdx, channel: Hash, version: u64, sig: Signature)
    requires SysInv(c, sys) && sys.sides[i].inner.AgreedCh?
    requires OnInitialAcceptance(sys.sides[i].inner.agreed, channel, version, sig).error.None?
    ensures SysInv(c, Advance(sys, i, OnInitialAcceptance(sys.sides[i].inner.agreed, channel, version, sig)))
  {
    var side, e := sys.sides[i], OnInitialAcceptance(sys.sides[i].inner.agreed, channel, version, sig);
    FirstInstall(c, side, i, channel, version, sig);
    InstallStep(c, sys, i, e, StateOf(c));
  }

  lemma FirstInstall(c: Setup, side: Side, i: PartIdx, channel: Hash, version: u64, sig: Signature)
    requires SideOk(c, side, i) && side.inner.AgreedCh?
    requires OnInitialAcceptance(side.inner.agreed, channel, version, sig).error.None?
    ensures var e := OnInitialAcceptance(side.inner.agreed, channel, version, sig);
            && side.hist == [] && e.peers == []
            && SideOk(c, Side(e.inner, side.hist + [StateOf(c)]), i)
            && Record(side.hist, side.inner, e.inner) == side.hist + [StateOf(c)]
  {
    OpeningSound(c.h, side.inner.agreed, channel, version, sig);
    assert side.hist + [StateOf(c)] == [StateOf(c)];
  }

  /** A side that is behind has proposed the state the other side accepted, and
      is still waiting for that. */
  lemma BehindIsOccupied(c: Setup, sys: Sys, i: PartIdx)
    requires forall m :: m in sys.msgs ==> MsgOk(c, sys.sides, m)
    requires AheadOk(c, sys, 1 - i) && HistOk(c, sys.sides[1 - i].hist)
    requires 1 <= |sys.sides[i].hist| < |sys.sides[1 - i].hist|
    ensures Occupied(sys.sides[i].inner)
  {
    var s := sys.sides[1 - i].hist[|sys.sides[i].hist|];
    assert ProposalOf(c, i, s) in sys.msgs;
    assert MsgOk(c, sys.sides, ProposalOf(c, i, s));
  }

  lemma ProposalJustified(c: Setup, sys: Sys, i: PartIdx, s: ChState)
    requires SysInv(c, sys) && !Occupied(sys.sides[i].inner)
    requires ProposalOf(c, 1 - i, s) in sys.msgs && s.version == |sys.sides[i].hist|
    ensures Justified(c, sys, i, s)
  {
    assert MsgOk(c, sys.sides, ProposalOf(c, 1 - i, s));
    assert SideOk(c, sys.sides[1 - i], 1 - i) && AheadOk(c, sys, 1 - i);
    if |sys.sides[i].hist| < |sys.sides[1 - i].hist| {
      BehindIsOccupied(c, sys, i);
    }
  }

  /** Installing the next version on an active side. */
  lemma InstalledSide(c: Setup, side: Side, i: PartIdx, ch': Active)
    requires SideOk(c, side, i) && side.inner.ActiveCh?
    requires ch' == side.inner.ch.(state := ch'.state, sigs := ch'.sigs)
    requires ValidTransition(side.inner.ch.state, ch'.state) && Demo.Inv(c.h, Installed(ch'))
    ensures SideOk(c, Side(Installed(ch'), side.hist + [ch'.state]), i)
    ensures Record(side.hist, side.inner, Installed(ch')) == side.hist + [ch'.state]
  {
  }

  lemma AcceptanceOk(c: Setup, sides: seq<Side>, i: PartIdx, channel: Hash, s: ChState)
    requires |sides| == 2 && Endorsed(c, sides[i], s)
    ensures MsgOk(c, sides, ChannelUpdateAccepted(channel, s.version, Signature(Who(c, i), StateDigest(s))))
  {
  }

  lemma PeerUpdateStep(c: Setup, sys: Sys, i: PartIdx, s: ChState, a: nat, sig: Signature)
    requires SysInv(c, sys) && sys.sides[i].inner.ActiveCh? && sys.sides[i].inner.pending.None?
    requires ChannelUpdateMsg(s, a, sig) in sys.msgs
    requires !HandlePanics(sys.sides[i].inner.ch, s, a, sig)
    requires OnPeerUpdate(sys.sides[i].inner.ch, s, a, sig).error.None?
    ensures SysInv(c, Advance(sys, i, OnPeerUpdate(sys.sides[i].inner.ch, s, a, sig)))
  {
    var side, ch := sys.sides[i], sys.sides[i].inner.ch;
    var e := OnPeerUpdate(ch, s, a, sig);
    assert SideOk(c, side, i) && MsgOk(c, sys.sides, ChannelUpdateMsg(s, a, sig));
    assert side.inner == ActiveCh(ch, None);
    PeerUpdateInstalls(c, side, i, s, a, sig);
    ProposalJustified(c, sys, i, s);
    AcceptanceOk(c, Advance(sys, i, e).sides, i, ch.state.id, s);
    InstallStep(c, sys, i, e, s);
  }

  lemma PeerUpdateInstalls(c: Setup, side: Side, i: PartIdx, s: ChState, a: nat, sig: Signature)
    requires SideOk(c, side, i) && side.inner.ActiveCh? && side.inner.pending.None?
    requires !HandlePanics(side.inner.ch, s, a, sig) && OnPeerUpdate(side.inner.ch, s, a, sig).error.None?
    ensures var e := OnPeerUpdate(side.inner.ch, s, a, sig);
            && a == 1 - i && s.version == |side.hist|
            && SideOk(c, Side(e.inner, side.hist + [s]), i)
            && Record(side.hist, side.inner, e.inner) == side.hist + [s]
            && e.peers == [ChannelUpdateAccepted(side.inner.ch.state.id, s.version, Signature(Who(c, i), StateDigest(s)))]
  {
    var ch := side.inner.ch;
    var e := OnPeerUpdate(ch, s, a, sig);
    assert side.inner == ActiveCh(ch, None);
    NoStrandedAcceptance(c.h, ch, s, a, sig);
    InstalledSide(c, side, i, e.inner.ch);
  }

  /** An acceptance of our pending update comes from a side that has installed it. */
  lemma AcceptedIsInstalled(c: Setup, sys: Sys, i: PartIdx, channel: Hash, version: u64, sig: Signature)
    requires SysInv(c, sys)
    requires sys.sides[i].inner.ActiveCh? && sys.sides[i].inner.pending.Some?
    requires ChannelUpdateAccepted(channel, version, sig) in sys.msgs
    requires SignedBy(sig, Who(c, 1 - i), sys.sides[i].inner.pending.value.newState)
    ensures var s, n, other := sys.sides[i].inner.pending.value.newState, |sys.sides[i].hist|, sys.sides[1 - i].hist;
            n < |other| && s == other[n]
  {
    var s := sys.sides[i].inner.pending.value.newState;
    assert SideOk(c, sys.sides[i], i) && MsgOk(c, sys.sides, ChannelUpdateAccepted(channel, version, sig));
    var a: PartIdx :| sig.signer == Who(c, a) && Endorsed(c, sys.sides[a], sig.digest.state);
    assert sig.digest.state == s && s.version == |sys.sides[i].hist|;
    assert a == 1 - i;
  }

  lemma PeerAcceptanceInstalls(c: Setup, side: Side, i: PartIdx, channel: Hash, version: u64, sig: Signature)
    requires SideOk(c, side, i) && side.inner.ActiveCh? && side.inner.pending.Some?
    requires OnPeerAcceptance(side.inner.ch, side.inner.pending.value, channel, version, sig).error.None?
    ensures var e, s := OnPeerAcceptance(side.inner.ch, side.inner.pending.value, channel, version, sig), side.inner.pending.value.newState;
            && SignedBy(sig, Who(c, 1 - i), s)
            && SideOk(c, Side(e.inner, side.hist + [s]), i)
            && Record(side.hist, side.inner, e.inner) == side.hist + [s]
            && e.peers == []
  {
    var ch, u := side.inner.ch, side.inner.pending.value;
    var e := OnPeerAcceptance(ch, u, channel, version, sig);
    assert side.inner == ActiveCh(ch, Some(u));
    AcceptanceApplies(c.h, ch, u, channel, version, sig);
    InstalledSide(c, side, i, e.inner.ch);
  }

  lemma PeerAcceptanceStep(c: Setup, sys: Sys, i: PartIdx, channel: Hash, version: u64, sig: Signature)
    requires SysInv(c, sys)
    requires sys.sides[i].inner.ActiveCh? && sys.sides[i].inner.pending.Some?
    requires ChannelUpdateAccepted(channel, version, sig) in sys.msgs
    requires OnPeerAcceptance(sys.sides[i].inner.ch, sys.sides[i].inner.pending.value, channel, version, sig).error.None?
    ensures SysInv(c, Advance(sys, i, OnPeerAcceptance(sys.sides[i].inner.ch, sys.sides[i].inner.pending.value, channel, version, sig)))
  {
    var u := sys.sides[i].inner.pending.value;
    var e := OnPeerAcceptance(sys.sides[i].inner.ch, u, channel, version, sig);
    PeerAcceptanceInstalls(c, sys.sides[i], i, channel, version, sig);
    AcceptedIsInstalled(c, sys, i, channel, version, sig);
    InstallStep(c, sys, i, e, u.newState);
  }

  lemma PeerStep(c: Setup, sys: Sys, i: PartIdx, msg: ParticipantMsg)
    requires SysInv(c, sys) && msg in sys.msgs
    requires !PeerPanics(sys.sides[i].inner, msg) && OnPeer(c.h, sys.sides[i].inner, msg).error.None?
    ensures SysInv(c, Advance(sys, i, OnPeer(c.h, sys.sides[i].inner, msg)))
  {
    assert MsgOk(c, sys.sides, msg);
    match (sys.sides[i].inner, msg)
    case (ProposedCh(_), ProposalAccepted(acc)) => ProposalAcceptedStep(c, sys, i, acc);
    case (AgreedCh(_), ChannelUpdateAccepted(ch, v, sig)) => InitialAcceptanceStep(c, sys, i, ch, v, sig);
    case (ActiveCh(_, None), ChannelUpdateMsg(s, a, sig)) => PeerUpdateStep(c, sys, i, s, a, sig);
    case (ActiveCh(_, Some(_)), ChannelUpdateAccepted(ch, v, sig)) => PeerAcceptanceStep(c, sys, i, ch, v, sig);
    case (_, _) =>
  }

  /** The same channel in the next phase, or no channel any more. */
  predicate SameChannel(inner: Inner, next: Inner) {
    || next == inner || next.ForceClosing? || next.Closed?
    || (inner.SignedCh? && (next.SignedCh? || (next.ActiveCh? && next.pending.None?)) && next.ch == inner.ch)
  }

  /** Replies and closing do not change the state. */
  lemma LocalEvent(h: Hashes, inner: Inner, ev: Event)
    requires (ev.ForceCloseEvent? || ev.WatcherEvent? || ev.FundedEvent?) && On(h, inner, ev).error.None?
    ensures SameChannel(inner, On(h, inner, ev).inner) && On(h, inner, ev).peers == []
    ensures Occupied(inner) ==> Occupied(On(h, inner, ev).inner)
  {
  }

  lemma SideKept(c: Setup, side: Side, next: Inner, i: PartIdx)
    requires SideOk(c, side, i) && Demo.Inv(c.h, next) && SameChannel(side.inner, next)
    ensures SideOk(c, Side(next, side.hist), i) && Record(side.hist, side.inner, next) == side.hist
  {
  }

  lemma LocalStep(c: Setup, sys: Sys, i: PartIdx, ev: Event)
    requires SysInv(c, sys) && (ev.ForceCloseEvent? || ev.WatcherEvent? || ev.FundedEvent?)
    requires On(c.h, sys.sides[i].inner, ev).error.None?
    ensures SysInv(c, Advance(sys, i, On(c.h, sys.sides[i].inner, ev)))
  {
    var side, e := sys.sides[i], On(c.h, sys.sides[i].inner, ev);
    EventSound(c.h, side.inner, ev);
    LocalEvent(c.h, side.inner, ev);
    SideKept(c, side, e.inner, i);
    QuietStep(c, sys, i, e);
  }

  lemma RefusedStep(c: Setup, sys: Sys, i: PartIdx, ev: Event)
    requires SysInv(c, sys) && Enabled(sys.sides[i].inner, ev)
    requires On(c.h, sys.sides[i].inner, ev).error.Some?
    ensures SysInv(c, Advance(sys, i, On(c.h, sys.sides[i].inner, ev)))
  {
    assert SideOk(c, sys.sides[i], i);
    EventSound(c.h, sys.sides[i].inner, ev);
    QuietStep(c, sys, i, On(c.h, sys.sides[i].inner, ev));
  }

  lemma NextKeepsInv(c: Setup, sys: Sys, m: Move)
    requires SysInv(c, sys)
    ensures SysInv(c, Next(c, sys, m))
  {
    if Possible(sys, m) {
      if On(c.h, sys.sides[m.i].inner, m.ev).error.Some? {
        RefusedStep(c, sys, m.i, m.ev);
      } else {
        match m.ev
        case UpdateEvent(amount, isFinal) => UpdateStep(c, sys, m.i, amount, isFinal);
        case PeerEvent(msg) => PeerStep(c, sys, m.i, msg);
        case _ => LocalStep(c, sys, m.i, m.ev);
      }
    }
  }

  lemma {:induction false} RunKeepsInv(c: Setup, sys: Sys, moves: seq<Move>)
    requires SysInv(c, sys)
    ensures SysInv(c, RunAll(c, sys, moves))
    decreases moves
  {
    if moves != [] {
      NextKeepsInv(c, sys, moves[0]);
      RunKeepsInv(c, Next(c, sys, moves[0]), moves[1..]);
    }
  }

  // ----- The theorem -----

  /** In every run, whatever is lost, delayed, repeated or delivered to the wrong
      side, and whatever keys the sides have: two sides that installed a version
      installed the same state, they are never more than one version apart, and
      neither creates or loses money. */
  lemma {:induction false} AgreementHolds(c: Setup, moves: seq<Move>)
    ensures var sys := RunAll(c, Init(c), moves);
            && Agreement(sys)
            && forall i: PartIdx, n :: 0 <= n < |sys.sides[i].hist| ==>
                 sys.sides[i].hist[n].version == n && Conserved(StateOf(c), sys.sides[i].hist[n])
  {
    InitInv(c);
    RunKeepsInv(c, Init(c), moves);
    var sys := RunAll(c, Init(c), moves);
    assert SideOk(c, sys.sides[0], 0) && SideOk(c, sys.sides[1], 1);
  }

  /** The same for the states the two sides are in. */
  lemma {:induction false} CurrentStatesAgree(c: Setup, moves: seq<Move>)
    ensures var sys := RunAll(c, Init(c), moves);
            var a, b := StateIn(sys.sides[0].inner), StateIn(sys.sides[1].inner);
            a.Some? && b.Some? ==>
              (-1 <= a.value.version - b.value.version <= 1 && (a.value.version == b.value.version ==> a == b))
  {
    InitInv(c);
    RunKeepsInv(c, Init(c), moves);
    var sys := RunAll(c, Init(c), moves);
    if StateIn(sys.sides[0].inner).Some? && StateIn(sys.sides[1].inner).Some? {
      CurrentIsLast(c, sys.sides[0], 0);
      CurrentIsLast(c, sys.sides[1], 1);
    }
  }

  lemma CurrentIsLast(c: Setup, side: Side, i: PartIdx)
    requires SideOk(c, side, i) && StateIn(side.inner).Some?
    ensures var s := StateIn(side.inner).value; |side.hist| == s.version + 1 && side.hist[s.version] == s
  {
  }

  /** No message that was ever sent makes a side panic, until versions run out. */
  lemma {:induction false} DeliveryNeverPanics(c: Setup, moves: seq<Move>, i: PartIdx, msg: ParticipantMsg)
    requires msg in RunAll(c, Init(c), moves).msgs
    ensures var inner := RunAll(c, Init(c), moves).sides[i].inner;
            PeerPanics(inner, msg) ==> inner.ch.state.version + 1 == U64_LIMIT
  {
    InitInv(c);
    RunKeepsInv(c, Init(c), moves);
    var sys := RunAll(c, Init(c), moves);
    assert MsgOk(c, sys.sides, msg) && SideOk(c, sys.sides[i], i);
    if PeerPanics(sys.sides[i].inner, msg) {
      ConservedTotalsFit(StateOf(c), msg.state);
      ConservedTotalsFit(StateOf(c), sys.sides[i].inner.ch.state);
    }
  }

  // ----- Two proposals at once -----

  /** Both sides wait for an answer to their own proposal for the same version. */
  predicate Stuck(sys: Sys) {
    Occupied(sys.sides[0].inner) && Occupied(sys.sides[1].inner) && |sys.sides[0].hist| == |sys.sides[1].hist|
  }

  /** Neither side installs anything any more. */
  predicate Frozen(sys: Sys, sys': Sys) {
    Stuck(sys') && forall i: PartIdx :: sys'.sides[i].hist == sys.sides[i].hist
  }

  lemma StuckOnMessage(c: Setup, sys: Sys, i: PartIdx, msg: ParticipantMsg)
    requires SysInv(c, sys) && Stuck(sys) && msg in sys.msgs && !PeerPanics(sys.sides[i].inner, msg)
    ensures OnPeer(c.h, sys.sides[i].inner, msg).error.Some?
  {
    var side := sys.sides[i];
    assert SideOk(c, side, i) && MsgOk(c, sys.sides, msg);
    match (side.inner, msg)
    case (ActiveCh(ch, Some(u)), ChannelUpdateAccepted(channel, v, sig)) =>
      AcceptanceApplies(c.h, ch, u, channel, v, sig);
      if SignedBy(sig, Who(c, 1 - i), u.newState) {
        AcceptedIsInstalled(c, sys, i, channel, v, sig);
      }
    case (_, _) =>
  }

  lemma StuckStep(c: Setup, sys: Sys, m: Move)
    requires SysInv(c, sys) && Stuck(sys)
    ensures Frozen(sys, Next(c, sys, m))
  {
    if Possible(sys, m) {
      var side, e := sys.sides[m.i], On(c.h, sys.sides[m.i].inner, m.ev);
      assert SideOk(c, side, m.i);
      EventSound(c.h, side.inner, m.ev);
      if m.ev.PeerEvent? {
        StuckOnMessage(c, sys, m.i, m.ev.msg);
      }
      if e.error.None? {
        StuckSide(c, side, m.i, m.ev);
      }
    }
  }

  /** Commands and replies leave an occupied side occupied, with its history. */
  lemma StuckSide(c: Setup, side: Side, i: PartIdx, ev: Event)
    requires SideOk(c, side, i) && Occupied(side.inner) && Enabled(side.inner, ev)
    requires !ev.PeerEvent? && On(c.h, side.inner, ev).error.None?
    ensures var e := On(c.h, side.inner, ev);
            Occupied(e.inner) && Record(side.hist, side.inner, e.inner) == side.hist
  {
    EventSound(c.h, side.inner, ev);
    if ev.UpdateEvent? {
      ProposalSide(c, side, i, ev.amount, ev.isFinal);
    } else {
      LocalEvent(c.h, side.inner, ev);
      SideKept(c, side, On(c.h, side.inner, ev).inner, i);
    }
  }

  lemma {:induction false} StuckRun(c: Setup, sys: Sys, moves: seq<Move>)
    requires SysInv(c, sys) && Stuck(sys)
    ensures Frozen(sys, RunAll(c, sys, moves))
    decreases moves
  {
    if moves != [] {
      NextKeepsInv(c, sys, moves[0]);
      StuckStep(c, sys, moves[0]);
      StuckRun(c, Next(c, sys, moves[0]), moves[1..]);
    }
  }

  /** The deadlock of two proposals at once: from then on, whatever is delivered and
      whatever else is proposed, neither side installs anything. */
  lemma {:induction false} SimultaneousProposalsDeadlock(c: Setup, before: seq<Move>, after: seq<Move>)
    requires Stuck(RunAll(c, Init(c), before))
    ensures Frozen(RunAll(c, Init(c), before), RunAll(c, Init(c), before + after))
  {
    InitInv(c);
    RunKeepsInv(c, Init(c), before);
    RunJoin(c, Init(c), before, after);
    StuckRun(c, RunAll(c, Init(c), before), after);
  }

  // ----- Rejections -----

  /** Side `i` is active with nothing pending. */
  ghost predicate Idle(c: Setup, sys: Sys, i: PartIdx, st: ChState) {
    && SideOk(c, sys.sides[i], i) && sys.sides[i].inner.ActiveCh?
    && sys.sides[i].inner.pending.None? && sys.sides[i].inner.ch.state == st
  }

  /** Some payment can be computed, if only of nothing. */
  predicate CanPropose(st: ChState) { st.version + 1 < U64_LIMIT && NoOverflow(st.outcome) }

  function ProposeMove(i: PartIdx, isFinal: bool): Move { Move(i, UpdateEvent(0, isFinal)) }

  function RejectMove(i: PartIdx, id: Hash, v: u64): Move { Move(i, PeerEvent(ChannelUpdateRejected(id, v))) }

  function DeliverMove(c: Setup, i: PartIdx, s: ChState): Move { Move(i, PeerEvent(ProposalOf(c, 1 - i, s))) }

  /** A proposal that is rejected at once leaves nothing behind but the message. */
  lemma ProposeAndReject(c: Setup, sys: Sys, i: PartIdx, st: ChState, isFinal: bool, id: Hash, v: u64)
    requires Idle(c, sys, i, st) && CanPropose(st) && ChannelUpdateRejected(id, v) in sys.msgs
    ensures Next(c, Next(c, sys, ProposeMove(i, isFinal)), RejectMove(i, id, v))
         == Sys(sys.sides, sys.msgs + {ProposalOf(c, i, Paid(st, i, 0, isFinal))})
  {
    var side, ch := sys.sides[i], sys.sides[i].inner.ch;
    var s := Paid(st, i, 0, isFinal);
    PaymentValid(st, i, 0, isFinal);
    PaymentPanics(st, i, 0, isFinal);
    var mid := Next(c, sys, ProposeMove(i, isFinal));
    var e := OnUpdate(side.inner, 0, isFinal);
    assert e.inner == ActiveCh(ch, Some(Propose(ch, s).value)) && e.peers == [ProposalOf(c, i, s)];
    assert mid == Sys(sys.sides[i := Side(e.inner, side.hist)], sys.msgs + {ProposalOf(c, i, s)});
    var last := Next(c, mid, RejectMove(i, id, v));
    assert side == Side(ActiveCh(ch, None), side.hist);
    assert last.sides == sys.sides[i := Side(e.inner, side.hist)][i := side] == sys.sides;
    assert last.msgs == mid.msgs;
  }

  lemma DeliverInstalls(c: Setup, sys: Sys, i: PartIdx, st: ChState, s: ChState)
    requires Idle(c, sys, i, st) && ProposalOf(c, 1 - i, s) in sys.msgs
    requires ValidTransition(st, s) && !TransitionPanics(st, s)
    ensures var sys' := Next(c, sys, DeliverMove(c, i, s));
            sys'.sides[i].hist == sys.sides[i].hist + [s] && sys'.sides[1 - i] == sys.sides[1 - i] && sys.msgs <= sys'.msgs
  {
    var side, sig := sys.sides[i], Signature(Who(c, 1 - i), StateDigest(s));
    assert side.inner == ActiveCh(side.inner.ch, None);
    assert !HandlePanics(side.inner.ch, s, 1 - i, sig);
    assert OnPeerUpdate(side.inner.ch, s, 1 - i, sig).error.None?;
    PeerUpdateInstalls(c, side, i, s, 1 - i, sig);
  }

  /** Two different proposals for one version, each delivered to the other side. */
  lemma CrossDelivery(c: Setup, sys: Sys, st: ChState, s0: ChState, s1: ChState)
    requires Idle(c, sys, 0, st) && Idle(c, sys, 1, st) && s0 != s1
    requires ValidTransition(st, s0) && ValidTransition(st, s1) && !TransitionPanics(st, s0) && !TransitionPanics(st, s1)
    requires ProposalOf(c, 0, s0) in sys.msgs && ProposalOf(c, 1, s1) in sys.msgs
    ensures !Agreement(Next(c, Next(c, sys, DeliverMove(c, 0, s1)), DeliverMove(c, 1, s0)))
  {
    DeliverInstalls(c, sys, 0, st, s1);
    var mid := Next(c, sys, DeliverMove(c, 0, s1));
    DeliverInstalls(c, mid, 1, st, s0);
    var last := Next(c, mid, DeliverMove(c, 1, s0));
    Differ(last, sys.sides[0].hist, sys.sides[1].hist, s1, s0);
  }

  lemma Differ(sys: Sys, a: seq<ChState>, b: seq<ChState>, s: ChState, s': ChState)
    requires sys.sides[0].hist == a + [s] && sys.sides[1].hist == b + [s'] && |a| == |b| && s != s'
    ensures !Agreement(sys)
  {
    assert sys.sides[0].hist[|a|] == s && sys.sides[1].hist[|a|] == s';
  }

  /** The demo believes a rejection without looking at its id or version. When both
      sides have proposed and each gets a rejection, each installs the other's
      proposal. No money is needed: one proposes to close, the other not to. */
  lemma {:induction false} RejectionsBreakAgreement(c: Setup, sys: Sys, st: ChState, id: Hash, v: u64) returns (moves: seq<Move>)
    requires Idle(c, sys, 0, st) && Idle(c, sys, 1, st) && CanPropose(st) && ChannelUpdateRejected(id, v) in sys.msgs
    ensures !Agreement(RunAll(c, sys, moves))
  {
    var s0, s1 := Paid(st, 0, 0, true), Paid(st, 1, 0, false);
    ProposeAndReject(c, sys, 0, st, true, id, v);
    var sys1 := Sys(sys.sides, sys.msgs + {ProposalOf(c, 0, s0)});
    ProposeAndReject(c, sys1, 1, st, false, id, v);
    var sys2 := Sys(sys.sides, sys1.msgs + {ProposalOf(c, 1, s1)});
    ProposalsDiffer(st);
    CrossDelivery(c, sys2, st, s0, s1);
    moves := SixMoves(c, sys, ProposeMove(0, true), RejectMove(0, id, v), sys1, ProposeMove(1, false), RejectMove(1, id, v), sys2,
                      DeliverMove(c, 0, s1), DeliverMove(c, 1, s0));
  }

  lemma ProposalsDiffer(st: ChState)
    requires CanPropose(st) && !st.isFinal
    ensures var s0, s1 := Paid(st, 0, 0, true), Paid(st, 1, 0, false);
            && s0 != s1 && ValidTransition(st, s0) && ValidTransition(st, s1)
            && !TransitionPanics(st, s0) && !TransitionPanics(st, s1)
  {
    PaymentValid(st, 0, 0, true);
    PaymentValid(st, 1, 0, false);
    PaymentPanics(st, 0, 0, true);
    PaymentPanics(st, 1, 0, false);
  }

  lemma {:induction false} SixMoves(c: Setup, sys: Sys, m1: Move, m2: Move, sys1: Sys, m3: Move, m4: Move, sys2: Sys, m5: Move, m6: Move)
    returns (moves: seq<Move>)
    requires Next(c, Next(c, sys, m1), m2) == sys1 && Next(c, Next(c, sys1, m3), m4) == sys2
    ensures RunAll(c, sys, moves) == Next(c, Next(c, sys2, m5), m6)
  {
    var last := [m5] + ([m6] + []);
    var rest := [m3] + ([m4] + last);
    TwoMoves(c, sys2, m5, m6, [], Next(c, Next(c, sys2, m5), m6));
    TwoMoves(c, sys1, m3, m4, last, sys2);
    TwoMoves(c, sys, m1, m2, rest, sys1);
    moves := [m1] + ([m2] + rest);
  }

  lemma {:induction false} TwoMoves(c: Setup, sys: Sys, m: Move, m': Move, moves: seq<Move>, after: Sys)
    requires Next(c, Next(c, sys, m), m') == after
    ensures RunAll(c, sys, [m] + ([m'] + moves)) == RunAll(c, after, moves)
  {
    RunCons(c, sys, m, [m'] + moves);
    RunCons(c, Next(c, sys, m), m', moves);
  }

  lemma {:induction false} RunCons(c: Setup, sys: Sys, m: Move, moves: seq<Move>)
    ensures RunAll(c, sys, [m] + moves) == RunAll(c, Next(c, sys, m), moves)
  {
    assert ([m] + moves)[1..] == moves;
  }

  lemma {:induction false} RunJoin(c: Setup, sys: Sys, a: seq<Move>, b: seq<Move>)
    ensures RunAll(c, sys, a + b) == RunAll(c, RunAll(c, sys, a), b)
    decreases a
  {
    if a == [] {
      assert a + b == b;
    } else {
      assert (a + b)[1..] == a[1..] + b;
      RunJoin(c, Next(c, sys, a[0]), a[1..], b);
    }
  }

  // ----- The opening, in full -----

  function Receiver(c: Setup, i: PartIdx): Addr { if i == 0 then c.receivers.0 else c.receivers.1 }

  function InitialSig(c: Setup, i: PartIdx): Signature { Signature(Who(c, i), StateDigest(StateOf(c))) }

  /** Side `i` has agreed and signed; has both signatures; is active. */
  function AgreedSide(c: Setup, i: PartIdx): Side {
    Side(AgreedCh(AgreedUpon(i, Who(c, i), Receiver(c, i), c.proposal.fundingAgreement, StateOf(c), ParamsOf(c),
                             [None, None][i := Some(InitialSig(c, i))])), [])
  }

  function OpenChannel(c: Setup, i: PartIdx): Active {
    Active(i, Who(c, i), Receiver(c, i), ParamsOf(c), StateOf(c), [InitialSig(c, 0), InitialSig(c, 1)])
  }

  function SignedSide(c: Setup, i: PartIdx): Side { Side(SignedCh(OpenChannel(c, i), false, false), [StateOf(c)]) }

  function ActiveSide(c: Setup, i: PartIdx): Side { Side(ActiveCh(OpenChannel(c, i), None), [StateOf(c)]) }

  function AcceptanceOf(c: Setup, i: PartIdx): ParticipantMsg {
    ChannelUpdateAccepted(StateOf(c).id, 0, InitialSig(c, i))
  }

  lemma AgreeMove(c: Setup, sys: Sys)
    requires CanOpen(c) && sys.sides == Init(c).sides && ProposalAccepted(c.acc) in sys.msgs
    ensures var sys' := Next(c, sys, Move(0, PeerEvent(ProposalAccepted(c.acc))));
            && sys'.sides == [AgreedSide(c, 0), AgreedSide(c, 1)]
            && sys'.msgs == sys.msgs + {AcceptanceOf(c, 0)}
  {
    var p := sys.sides[0].inner.proposed;
    var e := OnProposalAccepted(c.h, p, c.acc);
    var a := BuildAgreed(c.h, p.(response := Some(c.acc))).value;
    assert a == AgreedSide(c, 0).inner.agreed.(sigs := [None, None]);
    assert e == Effect(AgreedSide(c, 0).inner, None, [AcceptanceOf(c, 0)], [], []);
    assert sys.sides[1].inner.agreed.sigs == AgreedSide(c, 1).inner.agreed.sigs;
    assert Advance(sys, 0, e).sides == [AgreedSide(c, 0), AgreedSide(c, 1)];
    assert Advance(sys, 0, e).msgs == sys.msgs + {AcceptanceOf(c, 0)};
  }

  lemma SignMove(c: Setup, sys: Sys, i: PartIdx)
    requires CanOpen(c) && sys.sides[i] == AgreedSide(c, i) && AcceptanceOf(c, 1 - i) in sys.msgs
    ensures var sys' := Next(c, sys, Move(i, PeerEvent(AcceptanceOf(c, 1 - i))));
            sys' == Sys(sys.sides[i := SignedSide(c, i)], sys.msgs)
  {
    var a, m := sys.sides[i].inner.agreed, AcceptanceOf(c, 1 - i);
    assert SlotOf(a.params, Who(c, 1 - i)) == Some(1 - i);
    var a' := AddSignature(a, m.channel, m.version, m.sig).value;
    assert a'.sigs == [Some(InitialSig(c, 0)), Some(InitialSig(c, 1))];
    assert Collect(a'.sigs).value == [InitialSig(c, 0), InitialSig(c, 1)];
    assert Record([], sys.sides[i].inner, SignedSide(c, i).inner) == [StateOf(c)];
  }

  lemma StartMoves(c: Setup, sys: Sys, i: PartIdx)
    requires sys.sides[i] == SignedSide(c, i)
    ensures Next(c, Next(c, sys, Move(i, WatcherEvent(Ack))), Move(i, FundedEvent)) == Sys(sys.sides[i := ActiveSide(c, i)], sys.msgs)
  {
  }

  lemma ActiveSideOk(c: Setup, i: PartIdx)
    requires CanOpen(c)
    ensures SideOk(c, ActiveSide(c, i), i)
  {
  }

  /** From any set of messages that holds those of `Init`, both sides become active, if
      the opening can be completed. */
  lemma {:induction false} OpeningRun(c: Setup, sys: Sys) returns (moves: seq<Move>)
    requires CanOpen(c) && sys.sides == Init(c).sides && Init(c).msgs <= sys.msgs
    ensures var sys' := RunAll(c, sys, moves);
            sys.msgs <= sys'.msgs && Idle(c, sys', 0, StateOf(c)) && Idle(c, sys', 1, StateOf(c))
  {
    AgreeMove(c, sys);
    var agree := Move(0, PeerEvent(ProposalAccepted(c.acc)));
    var sys1 := Next(c, sys, agree);
    SignMove(c, sys1, 0);
    var sign0, sign1 := Move(0, PeerEvent(AcceptanceOf(c, 1))), Move(1, PeerEvent(AcceptanceOf(c, 0)));
    var sys2 := Next(c, sys1, sign0);
    SignMove(c, sys2, 1);
    var sys3 := Next(c, sys2, sign1);
    StartMoves(c, sys3, 0);
    var sys4 := Sys(sys3.sides[0 := ActiveSide(c, 0)], sys3.msgs);
    StartMoves(c, sys4, 1);
    var tail := SixMoves(c, sys1, sign0, sign1, sys3, Move(0, WatcherEvent(Ack)), Move(0, FundedEvent), sys4,
                         Move(1, WatcherEvent(Ack)), Move(1, FundedEvent));
    RunCons(c, sys, agree, tail);
    moves := [agree] + tail;
    ActiveSideOk(c, 0);
    ActiveSideOk(c, 1);
  }

  // ----- The exact condition -----

  /** The start, with some rejections on the network besides. */
  function InitWith(c: Setup, rejections: set<ParticipantMsg>): Sys {
    Sys(Init(c).sides, Init(c).msgs + rejections)
  }

  /** What is so when the opening cannot be completed: side 0 stays before it, and
      side 1 installs nothing but the initial state. */
  ghost predicate Blocked(c: Setup, sys: Sys) {
    && BlockedSide0(c, sys.sides[0]) && BlockedSide1(c, sys.sides[1])
    && forall m :: m in sys.msgs ==> BlockedMsg(c, m)
  }

  ghost predicate BlockedSide0(c: Setup, side: Side) {
    && SideOk(c, side, 0) && (side.inner.ProposedCh? || (side.inner.AgreedCh? && Who(c, 0) == Who(c, 1)))
  }

  ghost predicate BlockedSide1(c: Setup, side: Side) {
    && Demo.Inv(c.h, side.inner) && !side.inner.ProposedCh?
    && side.hist <= [StateOf(c)]
    && match side.inner
       case AgreedCh(a) =>
         a.params == ParamsOf(c) && a.partIdx == 1 && a.signer == Who(c, 1) && a.initState == StateOf(c) && side.hist == []
       case SignedCh(ch, _, _) => OursIs(c, ch, 1) && ch.state == StateOf(c)
       case ActiveCh(ch, _) => OursIs(c, ch, 1) && ch.state == StateOf(c)
       case Closing(ch) => OursIs(c, ch, 1) && ch.state == StateOf(c)
       case _ => true
  }

  /** Only side 1 proposes, and only the initial state is accepted. */
  predicate BlockedMsg(c: Setup, m: ParticipantMsg) {
    match m
    case ChannelUpdateMsg(_, a, _) => a == 1
    case ChannelUpdateAccepted(_, _, sig) => sig.digest.state == StateOf(c)
    case ProposalAccepted(acc) => acc == c.acc
    case ChannelUpdateRejected(_, _) => true
    case _ => false
  }

  ghost predicate BlockedEffect(c: Setup, i: PartIdx, side: Side, e: Effect) {
    && (if i == 0 then BlockedSide0(c, Side(e.inner, Record(side.hist, side.inner, e.inner)))
        else BlockedSide1(c, Side(e.inner, Record(side.hist, side.inner, e.inner))))
    && forall m :: m in e.peers ==> BlockedMsg(c, m)
  }

  lemma BlockedAt0(c: Setup, side: Side, ev: Event)
    requires !CanOpen(c) && BlockedSide0(c, side) && Enabled(side.inner, ev) && (ev.PeerEvent? ==> BlockedMsg(c, ev.msg))
    ensures BlockedEffect(c, 0, side, On(c.h, side.inner, ev))
  {
    EventSound(c.h, side.inner, ev);
    match (side.inner, ev)
    case (ProposedCh(p), PeerEvent(ProposalAccepted(acc))) =>
      if acc.proposalId == p.proposal.proposalId {
        var a := BuildAgreed(c.h, p.(response := Some(acc))).value;
        assert OnProposalAccepted(c.h, p, acc).peers == [InitialAcceptance(a)];
      }
    case (AgreedCh(a), PeerEvent(ChannelUpdateAccepted(channel, v, sig))) =>
      assert SlotOf(a.params, sig.signer) != Some(1);
      assert AddSignature(a, channel, v, sig).Err?;
    case (_, _) =>
  }

  lemma BlockedUpdate(c: Setup, side: Side, amount: U256, isFinal: bool)
    requires BlockedSide1(c, side) && Enabled(side.inner, UpdateEvent(amount, isFinal))
    ensures BlockedEffect(c, 1, side, OnUpdate(side.inner, amount, isFinal))
  {
    UpdateSound(c.h, side.inner, amount, isFinal);
  }

  lemma BlockedSigning(c: Setup, side: Side, channel: Hash, version: u64, sig: Signature)
    requires BlockedSide1(c, side) && side.inner.AgreedCh?
    ensures BlockedEffect(c, 1, side, OnInitialAcceptance(side.inner.agreed, channel, version, sig))
  {
    var e := OnInitialAcceptance(side.inner.agreed, channel, version, sig);
    OpeningSound(c.h, side.inner.agreed, channel, version, sig);
    if e.error.None? {
      assert Record(side.hist, side.inner, e.inner) == [StateOf(c)];
    }
  }

  lemma BlockedMessage(c: Setup, side: Side, msg: ParticipantMsg)
    requires BlockedSide1(c, side) && BlockedMsg(c, msg) && !PeerPanics(side.inner, msg)
    ensures BlockedEffect(c, 1, side, OnPeer(c.h, side.inner, msg))
  {
    PeerSound(c.h, side.inner, msg);
    match (side.inner, msg)
    case (AgreedCh(a), ChannelUpdateAccepted(channel, v, sig)) => BlockedSigning(c, side, channel, v, sig);
    case (ActiveCh(ch, None), ChannelUpdateMsg(s, a, sig)) => NoStrandedAcceptance(c.h, ch, s, a, sig);
    case (ActiveCh(ch, Some(u)), ChannelUpdateAccepted(channel, v, sig)) =>
      AcceptanceApplies(c.h, ch, u, channel, v, sig);
      assert !SignedBy(sig, Who(c, 0), u.newState);
    case (_, _) =>
  }

  lemma BlockedAt1(c: Setup, side: Side, ev: Event)
    requires BlockedSide1(c, side) && Enabled(side.inner, ev) && (ev.PeerEvent? ==> BlockedMsg(c, ev.msg))
    ensures BlockedEffect(c, 1, side, On(c.h, side.inner, ev))
  {
    match ev
    case UpdateEvent(amount, isFinal) => BlockedUpdate(c, side, amount, isFinal);
    case PeerEvent(msg) => BlockedMessage(c, side, msg);
    case _ => EventSound(c.h, side.inner, ev);
  }

  lemma {:induction false} BlockedRun(c: Setup, sys: Sys, moves: seq<Move>)
    requires !CanOpen(c) && Blocked(c, sys)
    ensures Blocked(c, RunAll(c, sys, moves))
    decreases moves
  {
    if moves != [] {
      var m := moves[0];
      if Possible(sys, m) {
        assert m.ev.PeerEvent? ==> BlockedMsg(c, m.ev.msg);
        if m.i == 0 {
          BlockedAt0(c, sys.sides[0], m.ev);
        } else {
          BlockedAt1(c, sys.sides[1], m.ev);
        }
      }
      BlockedRun(c, Next(c, sys, m), moves[1..]);
    }
  }

  /** Agreement holds in every run if and only if there is no rejection on the
      network, or the opening cannot be completed, or the initial balances are so
      large that no update can be computed. */
  lemma {:induction false} AgreementExactly(c: Setup, rejections: set<ParticipantMsg>)
    requires forall m :: m in rejections ==> m.ChannelUpdateRejected?
    ensures (forall moves: seq<Move> :: Agreement(RunAll(c, InitWith(c, rejections), moves)))
            <==> rejections == {} || !CanOpen(c) || !NoOverflow(StateOf(c).outcome)
  {
    if rejections == {} || !NoOverflow(StateOf(c).outcome) {
      InitInv(c);
      InitWithInv(c, rejections);
      forall moves: seq<Move>
        ensures Agreement(RunAll(c, InitWith(c, rejections), moves))
      {
        RunKeepsInv(c, InitWith(c, rejections), moves);
      }
    } else if !CanOpen(c) {
      BlockedInit(c, rejections);
      forall moves: seq<Move>
        ensures Agreement(RunAll(c, InitWith(c, rejections), moves))
      {
        BlockedRun(c, InitWith(c, rejections), moves);
      }
    } else {
      var m :| m in rejections;
      var opening := OpeningRun(c, InitWith(c, rejections));
      var sys := RunAll(c, InitWith(c, rejections), opening);
      var rest := RejectionsBreakAgreement(c, sys, StateOf(c), m.id, m.version);
      RunJoin(c, InitWith(c, rejections), opening, rest);
      assert !Agreement(RunAll(c, InitWith(c, rejections), opening + rest));
    }
  }

  lemma BlockedInit(c: Setup, rejections: set<ParticipantMsg>)
    requires forall m :: m in rejections ==> m.ChannelUpdateRejected?
    ensures Blocked(c, InitWith(c, rejections))
  {
    InitInv(c);
    assert SideOk(c, Init(c).sides[0], 0);
  }

  lemma InitWithInv(c: Setup, rejections: set<ParticipantMsg>)
    requires SysInv(c, Init(c)) && forall m :: m in rejections ==> m.ChannelUpdateRejected?
    requires rejections == {} || !NoOverflow(StateOf(c).outcome)
    ensures SysInv(c, InitWith(c, rejections))
  {
    var sys := Init(c);
    forall i: PartIdx
      ensures AheadOk(c, InitWith(c, rejections), i)
    {
      assert AheadOk(c, sys, i);
    }
  }

  /** The deadlock is real: there is a run into it, whenever an update can be computed. */
  lemma DeadlockReachable(c: Setup) returns (moves: seq<Move>)
    requires CanOpen(c) && NoOverflow(StateOf(c).outcome)
    ensures var sys := RunAll(c, Init(c), moves);
            Stuck(sys) && forall i: PartIdx :: sys.sides[i].inner.ActiveCh? && sys.sides[i].hist == [StateOf(c)]
  {
    var opening := OpeningRun(c, Init(c));
    var sys := RunAll(c, Init(c), opening);
    OfferKeeps(c, sys, 0);
    var mid := Next(c, sys, ProposeMove(0, false));
    OfferKeeps(c, mid, 1);
    var m0, m1 := ProposeMove(0, false), ProposeMove(1, false);
    TwoMoves(c, sys, m0, m1, [], Next(c, mid, m1));
    RunJoin(c, Init(c), opening, [m0] + ([m1] + []));
    moves := opening + ([m0] + ([m1] + []));
  }

  /** An idle side that proposes stays at its state and is occupied. */
  lemma OfferKeeps(c: Setup, sys: Sys, i: PartIdx)
    requires Idle(c, sys, i, StateOf(c)) && NoOverflow(StateOf(c).outcome)
    ensures var sys' := Next(c, sys, ProposeMove(i, false));
            && sys'.sides[1 - i] == sys.sides[1 - i] && Occupied(sys'.sides[i].inner) && sys'.sides[i].inner.ActiveCh?
            && sys'.sides[i].hist == sys.sides[i].hist == [StateOf(c)]
  {
    PaymentPanics(StateOf(c), i, 0, false);
    PaymentValid(StateOf(c), i, 0, false);
    CurrentIsLast(c, sys.sides[i], i);
    ProposalSide(c, sys.sides[i], i, 0, false);
  }

  // ----- Progress -----

  /** Both sides have installed `s` on top. */
  ghost predicate BothInstalled(sys: Sys, sys': Sys, s: ChState) {
    forall j: PartIdx :: sys'.sides[j].hist == sys.sides[j].hist + [s]
  }

  /** A payment that can be computed goes through: proposed by one idle side, delivered
      and acknowledged, it is installed by both. */
  lemma PaymentGoesThrough(c: Setup, sys: Sys, i: PartIdx, st: ChState, amount: U256, isFinal: bool) returns (moves: seq<Move>)
    requires SysInv(c, sys) && Idle(c, sys, 0, st) && Idle(c, sys, 1, st)
    requires CanCompute(st, i, amount, isFinal) && amount <= Balance(st, 1)
    ensures BothInstalled(sys, RunAll(c, sys, moves), Paid(st, i, amount, isFinal))
  {
    var s := Paid(st, i, amount, isFinal);
    var sys1, first := MakeOffer(c, sys, i, st, amount, isFinal);
    var sys2, second := TakeOffer(c, sys1, i, st, s);
    var sys3, third := TakeAnswer(c, sys2, i, st, s);
    moves := first + (second + third);
    RunJoin(c, sys1, second, third);
    RunJoin(c, sys, first, second + third);
    ThreeStages(sys, sys1, sys2, sys3, i, s);
  }

  lemma ThreeStages(sys: Sys, sys1: Sys, sys2: Sys, sys3: Sys, i: PartIdx, s: ChState)
    requires sys1.sides[0].hist == sys.sides[0].hist && sys1.sides[1].hist == sys.sides[1].hist
    requires sys2.sides[1 - i].hist == sys1.sides[1 - i].hist + [s] && sys2.sides[i] == sys1.sides[i]
    requires sys3.sides[i].hist == sys2.sides[i].hist + [s] && sys3.sides[1 - i] == sys2.sides[1 - i]
    ensures BothInstalled(sys, sys3, s)
  {
    assert sys3.sides[i].hist == sys.sides[i].hist + [s];
    assert sys3.sides[1 - i].hist == sys.sides[1 - i].hist + [s];
  }

  lemma MakeOffer(c: Setup, sys: Sys, i: PartIdx, st: ChState, amount: U256, isFinal: bool) returns (sys': Sys, moves: seq<Move>)
    requires SysInv(c, sys) && Idle(c, sys, 0, st) && Idle(c, sys, 1, st)
    requires CanCompute(st, i, amount, isFinal) && amount <= Balance(st, 1)
    ensures RunAll(c, sys, moves) == sys' && Offering(c, sys', i, st, Paid(st, i, amount, isFinal))
    ensures sys'.sides[0].hist == sys.sides[0].hist && sys'.sides[1].hist == sys.sides[1].hist
  {
    var m := Move(i, UpdateEvent(amount, isFinal));
    sys', moves := Next(c, sys, m), [m] + [];
    Offered(c, sys, i, st, amount, isFinal);
    NextKeepsInv(c, sys, m);
    RunCons(c, sys, m, []);
  }

  /** Side `i` waits for `s`, and the other side has nothing else to do. */
  ghost predicate Offering(c: Setup, sys: Sys, i: PartIdx, st: ChState, s: ChState) {
    && SysInv(c, sys) && Waits(sys.sides[i], st, s) && Idle(c, sys, 1 - i, st) && ProposalOf(c, i, s) in sys.msgs
    && ValidTransition(st, s) && !TransitionPanics(st, s)
  }

  function AnswerTo(c: Setup, i: PartIdx, st: ChState, s: ChState): ParticipantMsg {
    ChannelUpdateAccepted(st.id, s.version, Signature(Who(c, 1 - i), StateDigest(s)))
  }

  /** The other side has installed `s` and answered. */
  ghost predicate Answered(c: Setup, sys: Sys, i: PartIdx, st: ChState, s: ChState) {
    SideOk(c, sys.sides[i], i) && Waits(sys.sides[i], st, s) && AnswerTo(c, i, st, s) in sys.msgs
  }

  lemma TakeOffer(c: Setup, sys: Sys, i: PartIdx, st: ChState, s: ChState) returns (sys': Sys, moves: seq<Move>)
    requires Offering(c, sys, i, st, s)
    ensures RunAll(c, sys, moves) == sys' && Answered(c, sys', i, st, s)
    ensures sys'.sides[1 - i].hist == sys.sides[1 - i].hist + [s] && sys'.sides[i] == sys.sides[i]
  {
    var m := DeliverMove(c, 1 - i, s);
    sys', moves := Next(c, sys, m), [m] + [];
    DeliverInstalls(c, sys, 1 - i, st, s);
    AcceptanceSent(c, sys, 1 - i, st, s);
    assert SideOk(c, sys.sides[i], i);
    RunCons(c, sys, m, []);
  }

  lemma TakeAnswer(c: Setup, sys: Sys, i: PartIdx, st: ChState, s: ChState) returns (sys': Sys, moves: seq<Move>)
    requires Answered(c, sys, i, st, s)
    ensures RunAll(c, sys, moves) == sys'
    ensures sys'.sides[i].hist == sys.sides[i].hist + [s] && sys'.sides[1 - i] == sys.sides[1 - i]
  {
    var m := Move(i, PeerEvent(AnswerTo(c, i, st, s)));
    sys', moves := Next(c, sys, m), [m] + [];
    Acknowledged(c, sys, i, st, s, AnswerTo(c, i, st, s));
    RunCons(c, sys, m, []);
  }

  /** The offering side keeps its channel and waits for `s`. */
  ghost predicate Waits(side: Side, st: ChState, s: ChState) {
    && side.inner.ActiveCh? && side.inner.ch.state == st
    && side.inner.pending.Some? && side.inner.pending.value.newState == s
  }

  lemma Offered(c: Setup, sys: Sys, i: PartIdx, st: ChState, amount: U256, isFinal: bool)
    requires Idle(c, sys, i, st) && CanCompute(st, i, amount, isFinal) && amount <= Balance(st, 1)
    ensures var s, sys' := Paid(st, i, amount, isFinal), Next(c, sys, Move(i, UpdateEvent(amount, isFinal)));
            && Waits(sys'.sides[i], st, s) && sys'.sides[i].hist == sys.sides[i].hist
            && sys'.sides[1 - i] == sys.sides[1 - i] && ProposalOf(c, i, s) in sys'.msgs
            && ValidTransition(st, s) && !TransitionPanics(st, s)
  {
    PaymentValid(st, i, amount, isFinal);
    var side := sys.sides[i];
    var e := OnUpdate(side.inner, amount, isFinal);
    assert e.peers == [ProposalOf(c, i, Paid(st, i, amount, isFinal))];
  }

  lemma AcceptanceSent(c: Setup, sys: Sys, i: PartIdx, st: ChState, s: ChState)
    requires Idle(c, sys, i, st) && ProposalOf(c, 1 - i, s) in sys.msgs
    requires ValidTransition(st, s) && !TransitionPanics(st, s)
    ensures ChannelUpdateAccepted(st.id, s.version, Signature(Who(c, i), StateDigest(s))) in Next(c, sys, DeliverMove(c, i, s)).msgs
  {
    var side, sig := sys.sides[i], Signature(Who(c, 1 - i), StateDigest(s));
    assert side.inner == ActiveCh(side.inner.ch, None);
    assert !HandlePanics(side.inner.ch, s, 1 - i, sig);
    assert OnPeerUpdate(side.inner.ch, s, 1 - i, sig).error.None?;
    PeerUpdateInstalls(c, side, i, s, 1 - i, sig);
  }

  lemma Acknowledged(c: Setup, sys: Sys, i: PartIdx, st: ChState, s: ChState, acceptance: ParticipantMsg)
    requires SideOk(c, sys.sides[i], i) && Waits(sys.sides[i], st, s) && acceptance in sys.msgs
    requires acceptance == ChannelUpdateAccepted(st.id, s.version, Signature(Who(c, 1 - i), StateDigest(s)))
    ensures var sys' := Next(c, sys, Move(i, PeerEvent(acceptance)));
            sys'.sides[i].hist == sys.sides[i].hist + [s] && sys'.sides[1 - i] == sys.sides[1 - i]
  {
    var side := sys.sides[i];
    var ch, u := side.inner.ch, side.inner.pending.value;
    assert side.inner == ActiveCh(ch, Some(u));
    AcceptanceApplies(c.h, ch, u, acceptance.channel, acceptance.version, acceptance.sig);
    PeerAcceptanceInstalls(c, side, i, acceptance.channel, acceptance.version, acceptance.sig);
  }

  /** So from the start both sides get past the initial state. */
  lemma ProgressPossible(c: Setup, i: PartIdx, amount: U256, isFinal: bool) returns (moves: seq<Move>)
    requires CanOpen(c) && CanCompute(StateOf(c), i, amount, isFinal) && amount <= Balance(StateOf(c), 1)
    ensures var sys := RunAll(c, Init(c), moves);
            forall j: PartIdx :: sys.sides[j].hist == [StateOf(c)] + [Paid(StateOf(c), i, amount, isFinal)]
  {
    var opening := OpeningRun(c, Init(c));
    var sys := RunAll(c, Init(c), opening);
    InitInv(c);
    RunKeepsInv(c, Init(c), opening);
    var rest := PaymentGoesThrough(c, sys, i, StateOf(c), amount, isFinal);
    RunJoin(c, Init(c), opening, rest);
    moves := opening + rest;
    OnTop(c, sys, RunAll(c, Init(c), moves), Paid(StateOf(c), i, amount, isFinal));
  }

  lemma OnTop(c: Setup, sys: Sys, sys': Sys, s: ChState)
    requires Idle(c, sys, 0, StateOf(c)) && Idle(c, sys, 1, StateOf(c)) && BothInstalled(sys, sys', s)
    ensures forall j: PartIdx :: sys'.sides[j].hist == [StateOf(c)] + [s]
  {
    CurrentIsLast(c, sys.sides[0], 0);
    CurrentIsLast(c, sys.sides[1], 1);
    assert sys.sides[0].hist == [StateOf(c)] && sys.sides[1].hist == [StateOf(c)];
  }

  // ----- What the funders are asked -----

  /** What side `i` asks of its funder in one move. */
  function AskedBy(c: Setup, sys: Sys, m: Move, i: PartIdx): seq<FunderReq> {
    if m.i == i && Possible(sys, m) then On(c.h, sys.sides[i].inner, m.ev).funder else []
  }

  /** What side `i` asks of its funder in a run. */
  function FunderOf(c: Setup, sys: Sys, moves: seq<Move>, i: PartIdx): seq<FunderReq>
    decreases |moves|
  {
    if moves == [] then [] else
    var n := |moves| - 1;
    FunderOf(c, sys, moves[..n], i) + AskedBy(c, RunAll(c, sys, moves[..n]), moves[n], i)
  }

  /** A request for our own share of the channel that was proposed, or for the
      registration of a state that we installed. */
  predicate RequestOk(c: Setup, hist: seq<ChState>, i: PartIdx, r: FunderReq) {
    match r
    case FundReq(_, _, _, _) => r == FundReq(i, c.proposal.fundingAgreement, ParamsOf(c), StateOf(c))
    case RegisterReq(adj) => adj.idx == i && adj.params == ParamsOf(c) && !adj.secondary && adj.state in hist
    case WithdrawReq(_) => false
  }

  lemma AskedCounts(c: Setup, sys: Sys, m: Move, i: PartIdx)
    requires SideOk(c, sys.sides[i], i)
    ensures var asked, before, after := AskedBy(c, sys, m, i), sys.sides[i].inner, Next(c, sys, m).sides[i].inner;
            && Rank(before) <= Rank(after)
            && DemoRuns.Fundings(asked) == (if Rank(before) < 2 <= Rank(after) then 1 else 0)
            && DemoRuns.Registers(asked) <= (if Rank(before) < 4 <= Rank(after) then 1 else 0)
  {
    var inner := sys.sides[i].inner;
    if m.i == i && Possible(sys, m) {
      assert AskedBy(c, sys, m, i) == DemoRuns.Asked(c.h, inner, m.ev);
      assert Next(c, sys, m).sides[i].inner == Step(c.h, inner, m.ev);
      DemoRuns.CountStep(c.h, inner, m.ev);
      DemoRuns.AskedExactly(c.h, inner, m.ev);
      StepSound(c.h, inner, m.ev);
    }
  }

  lemma AskedOk(c: Setup, sys: Sys, m: Move, i: PartIdx)
    requires SideOk(c, sys.sides[i], i)
    ensures forall r :: r in AskedBy(c, sys, m, i) ==> RequestOk(c, sys.sides[i].hist, i, r)
  {
    var side := sys.sides[i];
    if m.i == i && Possible(sys, m) {
      assert AskedBy(c, sys, m, i) == DemoRuns.Asked(c.h, side.inner, m.ev);
      DemoRuns.AskedExactly(c.h, side.inner, m.ev);
      assert side.inner.ActiveCh? ==> side.hist[side.inner.ch.state.version] == side.inner.ch.state;
    }
  }

  /** Funding is asked for exactly once, when both signatures are there, and at most one
      state is registered. */
  predicate AsksOk(c: Setup, side: Side, i: PartIdx, log: seq<FunderReq>) {
    && DemoRuns.Fundings(log) == (if Rank(side.inner) >= 2 then 1 else 0)
    && DemoRuns.Registers(log) <= (if Rank(side.inner) >= 4 then 1 else 0)
    && forall r :: r in log ==> RequestOk(c, side.hist, i, r)
  }

  lemma {:induction false} AsksStep(c: Setup, sys: Sys, m: Move, i: PartIdx, log: seq<FunderReq>)
    requires SideOk(c, sys.sides[i], i) && AsksOk(c, sys.sides[i], i, log)
    ensures AsksOk(c, Next(c, sys, m).sides[i], i, log + AskedBy(c, sys, m, i))
  {
    AskedCounts(c, sys, m, i);
    AskedOk(c, sys, m, i);
    DemoRuns.CountAppend(log, AskedBy(c, sys, m, i));
    RequestsKept(c, sys.sides[i].hist, Next(c, sys, m).sides[i].hist, i);
  }

  /** In every run each side asks for funding exactly once and registers at most once. It
      asks for its own share of the channel that was proposed, and registers a state that
      it installed. */
  lemma {:induction false} FundingExact(c: Setup, moves: seq<Move>, i: PartIdx)
    ensures AsksOk(c, RunAll(c, Init(c), moves).sides[i], i, FunderOf(c, Init(c), moves, i))
    decreases |moves|
  {
    if moves != [] {
      var n := |moves| - 1;
      var before := RunAll(c, Init(c), moves[..n]);
      FundingExact(c, moves[..n], i);
      InitInv(c);
      RunKeepsInv(c, Init(c), moves[..n]);
      AsksStep(c, before, moves[n], i, FunderOf(c, Init(c), moves[..n], i));
      RunLast(c, Init(c), moves);
    }
  }

  lemma {:induction false} RunLast(c: Setup, sys: Sys, moves: seq<Move>)
    requires moves != []
    ensures RunAll(c, sys, moves) == Next(c, RunAll(c, sys, moves[..|moves| - 1]), moves[|moves| - 1])
  {
    var n := |moves| - 1;
    assert moves[..n] + [moves[n]] == moves && [moves[n]] + [] == [moves[n]];
    RunJoin(c, sys, moves[..n], [moves[n]]);
    RunCons(c, RunAll(c, sys, moves[..n]), moves[n], []);
  }

  lemma RequestsKept(c: Setup, hist: seq<ChState>, hist': seq<ChState>, i: PartIdx)
    requires hist <= hist'
    ensures forall r :: RequestOk(c, hist, i, r) ==> RequestOk(c, hist', i, r)
  {
    assert forall s :: s in hist ==> s in hist';
  }

  /** The same channel under the same agreement, as proposed, and to each side its own
      share. */
  predicate SameFunding(c: Setup, mine: FunderReq, theirs: FunderReq) {
    mine.FundReq? && theirs.FundReq? ==>
      && mine.partIdx == 0 && theirs.partIdx == 1 && mine.agreement == theirs.agreement == c.proposal.fundingAgreement
      && mine.params == theirs.params && mine.params.participants == [c.proposal.participant, c.acc.participant]
      && mine.state == theirs.state && mine.state.version == 0
      && mine.state.outcome == Allocation([c.proposal.asset], c.proposal.initBals)
  }

  lemma {:induction false} FundingAgrees(c: Setup, moves: seq<Move>)
    ensures forall mine, theirs :: mine in FunderOf(c, Init(c), moves, 0) && theirs in FunderOf(c, Init(c), moves, 1) ==>
              SameFunding(c, mine, theirs)
  {
    FundingExact(c, moves, 0);
    FundingExact(c, moves, 1);
    forall mine, theirs | mine in FunderOf(c, Init(c), moves, 0) && theirs in FunderOf(c, Init(c), moves, 1)
      ensures SameFunding(c, mine, theirs)
    {
      assert RequestOk(c, RunAll(c, Init(c), moves).sides[0].hist, 0, mine);
      assert RequestOk(c, RunAll(c, Init(c), moves).sides[1].hist, 1, theirs);
    }
  }
}
