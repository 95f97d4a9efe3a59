/** The demo's channel: one object that runs through all phases, driven by local
    commands, by watcher and funder replies and by messages of the peer. */
module Demo {
  import opened Bytes
  import opened Wrappers
  import opened Payment
  import opened Channel
  import opened Opening

  datatype Inner =
    | ProposedCh(proposed: Proposed)
    | AgreedCh(agreed: Agreed)
    | SignedCh(ch: Active, watching: bool, funded: bool)
    | ActiveCh(ch: Active, pending: Option<Update>)
    | TemporaryInvalidState
    | Closing(ch: Active)
    | ForceClosing
    | Closed

  datatype DemoError =
    | InvalidState
    | Rejected
    | OpeningFailed(opening: OpeningError)
    | ChannelFailed(error: ChannelError)
    | NotEnoughFunds
    | ClosedError

  datatype WatcherReply = Ack | DisputeAck | DisputeNotification

  /** The new phase, the error if any, and everything that was sent. */
  datatype Effect = Effect(
    inner: Inner, error: Option<DemoError>,
    peers: seq<ParticipantMsg>, watcher: seq<WatchReq>, funder: seq<FunderReq>)

  function Goto(inner: Inner): Effect { Effect(inner, None, [], [], []) }

  function Refuse(inner: Inner, e: DemoError): Effect { Effect(inner, Some(e), [], [], []) }

  // ----- Commands -----

  function Balance(s: ChState, i: PartIdx): U256 { s.outcome.balances[0][i] }

  /** The state after paying `amount` to the other participant. */
  function Paid(s: ChState, payer: PartIdx, amount: U256, isFinal: bool): ChState
    requires s.version + 1 < U64_LIMIT
    requires amount <= Balance(s, payer) && Balance(s, 1 - payer) + amount < U256_LIMIT
  {
    var row := s.outcome.balances[0][1 - payer := Balance(s, 1 - payer) + amount][payer := Balance(s, payer) - amount];
    NextState(s).(outcome := s.outcome.(balances := [row]), isFinal := isFinal)
  }

  /** The checked arithmetic of `update` succeeds: of the payment, and of the check
      behind it. The guard always looks at the balance of participant 1, whoever pays. */
  predicate CanCompute(s: ChState, payer: PartIdx, amount: U256, isFinal: bool) {
    && s.version + 1 < U64_LIMIT
    && (amount <= Balance(s, 1) ==>
          && amount <= Balance(s, payer) && Balance(s, 1 - payer) + amount < U256_LIMIT
          && !TransitionPanics(s, Paid(s, payer, amount, isFinal)))
  }

  /** `Channel::update` */
  function OnUpdate(inner: Inner, amount: U256, isFinal: bool): Effect
    requires inner.ActiveCh? ==> CanCompute(inner.ch.state, inner.ch.partIdx, amount, isFinal)
  {
    match inner
    case ActiveCh(ch, _) =>
      if Balance(ch.state, 1) < amount then Refuse(inner, NotEnoughFunds)
      else
        var s := Paid(ch.state, ch.partIdx, amount, isFinal);
        (match Propose(ch, s)
         case Err(e) => Refuse(inner, ChannelFailed(e))
         case Ok(u) => Effect(ActiveCh(ch, Some(u)), None, [ProposalMsg(ch, s)], [], []))
    case _ => Refuse(inner, InvalidState)
  }

  /** `Channel::force_close` */
  function OnForceClose(inner: Inner): Effect {
    match inner
    case ActiveCh(ch, _) => Effect(ForceClosing, None, [], [], [RegisterReq(CurrentAdjudicatorReq(ch))])
    case _ => Refuse(inner, InvalidState)
  }

  // ----- Replies -----

  /** `Channel::process_watcher_reply` */
  function OnWatcher(inner: Inner, reply: WatcherReply): Effect {
    match (inner, reply)
    case (SignedCh(ch, _, funded), Ack) =>
      Goto(if funded then ActiveCh(ch, None) else SignedCh(ch, true, funded))
    case (ActiveCh(_, _), Ack) => Goto(inner)
    case (ActiveCh(_, _), DisputeNotification) => Goto(Closed)
    case (Closing(_), Ack) => Goto(Closed)
    case (Closing(_), DisputeNotification) => Goto(Closed)
    case (ForceClosing, DisputeAck) => Goto(Closed)
    case (ForceClosing, DisputeNotification) => Goto(inner)
    case (Closed, DisputeNotification) => Goto(inner)
    case (ForceClosing, _) => Refuse(inner, ClosedError)
    case (_, _) => Refuse(inner, InvalidState)
  }

  /** `Channel::process_funder_reply` */
  function OnFunded(inner: Inner): Effect {
    match inner
    case SignedCh(ch, watching, _) =>
      Goto(if watching then ActiveCh(ch, None) else SignedCh(ch, watching, true))
    case Closing(_) => Refuse(inner, ClosedError)
    case ForceClosing => Refuse(inner, ClosedError)
    case Closed => Refuse(inner, ClosedError)
    case _ => Refuse(inner, InvalidState)
  }

  // ----- Messages of the peer -----

  function Installed(ch: Active): Inner {
    if ch.state.isFinal then Closing(ch) else ActiveCh(ch, None)
  }

  function OnProposalAccepted(h: Hashes, p: Proposed, acc: ProposalAcc): Effect {
    match ProposalAcceptedBy(p, acc)
    case Err(e) => Refuse(ProposedCh(p), OpeningFailed(e))
    case Ok(p') =>
      match BuildAgreed(h, p')
      case Err(e) => Refuse(ProposedCh(p'), OpeningFailed(e))
      case Ok(a) =>
        match SignInitial(a)
        case Err(e) => Refuse(AgreedCh(a), OpeningFailed(e))
        case Ok(a') => Effect(AgreedCh(a'), None, [InitialAcceptance(a)], [], [])
  }

  function OnInitialAcceptance(a: Agreed, channel: Hash, version: u64, sig: Signature): Effect {
    match AddSignature(a, channel, version, sig)
    case Err(e) => Refuse(AgreedCh(a), OpeningFailed(e))
    case Ok(a') =>
      match BuildSigned(a')
      case Err(e) => Refuse(AgreedCh(a'), OpeningFailed(e))
      case Ok(ch) => Effect(SignedCh(ch, false, false), None, [], [CurrentWatchReq(ch)], [FundingRequest(a')])
  }

  /** An update of the peer: handled, accepted and applied in one go. */
  function OnPeerUpdate(ch: Active, s: ChState, actorIdx: nat, sig: Signature): Effect
    requires !HandlePanics(ch, s, actorIdx, sig)
  {
    match HandleUpdate(ch, s, actorIdx, sig)
    case Err(e) => Refuse(ActiveCh(ch, None), ChannelFailed(e))
    case Ok(u) =>
      match Accept(u, ch)
      case Err(e) => Refuse(ActiveCh(ch, None), ChannelFailed(e))
      case Ok(u') =>
        match Apply(u', ch)
        case Err(e) => Effect(ActiveCh(ch, None), Some(ChannelFailed(e)), [AcceptanceMsg(ch, u')], [], [])
        case Ok(ch') => Effect(Installed(ch'), None, [AcceptanceMsg(ch, u')], [CurrentWatchReq(ch')], [])
  }

  /** The peer's acceptance of our own pending update. */
  function OnPeerAcceptance(ch: Active, u: Update, channel: Hash, version: u64, sig: Signature): Effect {
    match ParticipantAccepted(u, ch, 1 - ch.partIdx, channel, version, sig)
    case Err(e) => Refuse(ActiveCh(ch, Some(u)), ChannelFailed(e))
    case Ok(u') =>
      match Apply(u', ch)
      case Err(e) => Refuse(ActiveCh(ch, Some(u')), ChannelFailed(e))
      case Ok(ch') => Effect(Installed(ch'), None, [], [CurrentWatchReq(ch')], [])
  }

  /** The message is an update that the original panics on. */
  predicate PeerPanics(inner: Inner, msg: ParticipantMsg) {
    && inner.ActiveCh? && inner.pending.None? && msg.ChannelUpdateMsg?
    && HandlePanics(inner.ch, msg.state, msg.actorIdx, msg.sig)
  }

  /** `Channel::process_participant_msg` */
  function OnPeer(h: Hashes, inner: Inner, msg: ParticipantMsg): Effect
    requires !PeerPanics(inner, msg)
  {
    match (inner, msg)
    case (ProposedCh(p), ProposalAccepted(acc)) => OnProposalAccepted(h, p, acc)
    case (ProposedCh(_), ProposalRejected(_)) => Refuse(inner, Rejected)
    case (AgreedCh(a), ChannelUpdateAccepted(c, v, sig)) => OnInitialAcceptance(a, c, v, sig)
    case (AgreedCh(_), ChannelUpdateRejected(_, _)) => Refuse(inner, Rejected)
    case (ActiveCh(ch, None), ChannelUpdateMsg(s, idx, sig)) => OnPeerUpdate(ch, s, idx, sig)
    case (ActiveCh(ch, Some(u)), ChannelUpdateAccepted(c, v, sig)) => OnPeerAcceptance(ch, u, c, v, sig)
    case (ActiveCh(ch, Some(_)), ChannelUpdateRejected(_, _)) => Goto(ActiveCh(ch, None))
    case (Closing(_), _) => Refuse(inner, ClosedError)
    case (ForceClosing, _) => Refuse(inner, ClosedError)
    case (Closed, _) => Refuse(inner, ClosedError)
    case (_, _) => Refuse(inner, InvalidState)
  }

  // ----- Events and runs -----

  datatype Event =
    | UpdateEvent(amount: U256, isFinal: bool)
    | ForceCloseEvent
    | WatcherEvent(reply: WatcherReply)
    | FundedEvent
    | PeerEvent(msg: ParticipantMsg)

  /** The call does not panic. */
  predicate Enabled(inner: Inner, ev: Event) {
    match ev
    case UpdateEvent(amount, isFinal) =>
      inner.ActiveCh? ==> CanCompute(inner.ch.state, inner.ch.partIdx, amount, isFinal)
    case PeerEvent(msg) => !PeerPanics(inner, msg)
    case _ => true
  }

  function On(h: Hashes, inner: Inner, ev: Event): Effect
    requires Enabled(inner, ev)
  {
    match ev
    case UpdateEvent(amount, isFinal) => OnUpdate(inner, amount, isFinal)
    case ForceCloseEvent => OnForceClose(inner)
    case WatcherEvent(reply) => OnWatcher(inner, reply)
    case FundedEvent => OnFunded(inner)
    case PeerEvent(msg) => OnPeer(h, inner, msg)
  }

  /** A panic in `update` changes nothing. A panic while a message is processed
      leaves the temporary phase behind, and nothing can be done with that. */
  function Step(h: Hashes, inner: Inner, ev: Event): Inner {
    if inner.TemporaryInvalidState? then inner
    else if Enabled(inner, ev) then On(h, inner, ev).inner
    else if ev.PeerEvent? then TemporaryInvalidState
    else inner
  }

  function Run(h: Hashes, inner: Inner, evs: seq<Event>): Inner
    decreases evs
  {
    if evs == [] then inner else Run(h, Step(h, inner, evs[0]), evs[1..])
  }

  /** Phases only move forward. */
  function Rank(inner: Inner): nat {
    match inner
    case ProposedCh(_) => 0
    case AgreedCh(_) => 1
    case SignedCh(_, _, _) => 2
    case ActiveCh(_, _) => 3
    case Closing(_) => 4
    case ForceClosing => 4
    case Closed => 5
    case TemporaryInvalidState => 6
  }

  // ----- The invariant of one demo channel -----
  // Nothing in it depends on our own slot, which is checked nowhere.

  /** Our own pending update: fully checked, signed by us and by nobody else yet. */
  ghost predicate PendingOk(ch: Active, u: Update) {
    && u.channelId == ch.state.id && ValidTransition(ch.state, u.newState)
    && u.sigs[ch.partIdx].Some? && u.sigs[1 - ch.partIdx].None?
    && SlotsPartlySigned(ch, u.sigs, u.newState)
  }

  ghost predicate Inv(h: Hashes, inner: Inner) {
    match inner
    case ProposedCh(p) => p.response.None?
    case AgreedCh(a) => AgreedInv(a) && a.sigs[a.partIdx].Some? && a.sigs[1 - a.partIdx].None?
    case SignedCh(ch, w, f) => SlotsSigned(ch) && !ch.state.isFinal && !(w && f)
    case ActiveCh(ch, pending) => SlotsSigned(ch) && !ch.state.isFinal && (pending.Some? ==> PendingOk(ch, pending.value))
    case Closing(ch) => SlotsSigned(ch) && ch.state.isFinal
    case ForceClosing => true
    case Closed => true
    case TemporaryInvalidState => false
  }

  /** What every call promises: the invariant, progress, and all or nothing. */
  ghost predicate Sound(h: Hashes, inner: Inner, e: Effect) {
    && Inv(h, e.inner)
    && Rank(inner) <= Rank(e.inner)
    && (e.error.Some? ==> e == Refuse(inner, e.error.value))
  }

  /** The apply that follows an acceptance in the same call always succeeds. */
  lemma NoStrandedAcceptance(h: Hashes, ch: Active, s: ChState, actorIdx: nat, sig: Signature)
    requires Inv(h, ActiveCh(ch, None)) && !HandlePanics(ch, s, actorIdx, sig)
    ensures var e := OnPeerUpdate(ch, s, actorIdx, sig);
            && Sound(h, ActiveCh(ch, None), e)
            && (e.peers != [] <==> e.error.None?)
            && (e.error.None? ==>
                  && (e.inner.ActiveCh? || e.inner.Closing?) && e.inner.ch.state == s
                  && ValidTransition(ch.state, s) && actorIdx == 1 - ch.partIdx
                  && e.peers == [ChannelUpdateAccepted(ch.state.id, s.version, Signature(ch.signer, StateDigest(s)))]
                  && e.watcher == [CurrentWatchReq(e.inner.ch)])
  {
  }

  /** A verified acceptance of our pending update always installs it. */
  lemma AcceptanceApplies(h: Hashes, ch: Active, u: Update, channel: Hash, version: u64, sig: Signature)
    requires Inv(h, ActiveCh(ch, Some(u)))
    ensures var e := OnPeerAcceptance(ch, u, channel, version, sig);
            && Sound(h, ActiveCh(ch, Some(u)), e)
            && (e.error.None? <==> SignedBy(sig, ch.params.participants[1 - ch.partIdx], u.newState)
                                   && channel == u.channelId && version == u.newState.version)
            && (e.error.None? ==> (e.inner.ActiveCh? || e.inner.Closing?) && e.inner.ch.state == u.newState)
  {
    var r := ParticipantAccepted(u, ch, 1 - ch.partIdx, channel, version, sig);
    if r.Ok? {
      CompletedApplies(ch, u, sig);
    }
  }

  /** With the peer's signature in its slot the update is complete. */
  lemma CompletedApplies(ch: Active, u: Update, sig: Signature)
    requires SlotsSigned(ch) && PendingOk(ch, u) && SignedBy(sig, ch.params.participants[1 - ch.partIdx], u.newState)
    ensures var r := Apply(u.(sigs := u.sigs[1 - ch.partIdx := Some(sig)]), ch);
            && r.Ok? && SlotsSigned(r.value) && r.value == ch.(state := u.newState, sigs := r.value.sigs)
  {
    var sigs := u.sigs[1 - ch.partIdx := Some(sig)];
    assert sigs[0].Some? && sigs[1].Some? && SlotsPartlySigned(ch, sigs, u.newState);
  }

  lemma OpeningSound(h: Hashes, a: Agreed, channel: Hash, version: u64, sig: Signature)
    requires Inv(h, AgreedCh(a))
    ensures Sound(h, AgreedCh(a), OnInitialAcceptance(a, channel, version, sig))
  {
    if AddSignature(a, channel, version, sig).Ok? {
      AddSignatureKeeps(a, channel, version, sig);
      SecondSignatureCompletes(a, channel, version, sig);
      BuildSignedFully(AddSignature(a, channel, version, sig).value);
    }
  }

  lemma ProposalSound(h: Hashes, p: Proposed, acc: ProposalAcc)
    requires Inv(h, ProposedCh(p))
    ensures Sound(h, ProposedCh(p), OnProposalAccepted(h, p, acc))
  {
  }

  lemma PeerSound(h: Hashes, inner: Inner, msg: ParticipantMsg)
    requires Inv(h, inner) && !PeerPanics(inner, msg)
    ensures Sound(h, inner, OnPeer(h, inner, msg))
  {
    match (inner, msg)
    case (ProposedCh(p), ProposalAccepted(acc)) => ProposalSound(h, p, acc);
    case (AgreedCh(a), ChannelUpdateAccepted(c, v, sig)) => OpeningSound(h, a, c, v, sig);
    case (ActiveCh(ch, None), ChannelUpdateMsg(s, idx, sig)) => NoStrandedAcceptance(h, ch, s, idx, sig);
    case (ActiveCh(ch, Some(u)), ChannelUpdateAccepted(c, v, sig)) => AcceptanceApplies(h, ch, u, c, v, sig);
    case (_, _) =>
  }

  lemma UpdateSound(h: Hashes, inner: Inner, amount: U256, isFinal: bool)
    requires Inv(h, inner) && Enabled(inner, UpdateEvent(amount, isFinal))
    ensures Sound(h, inner, OnUpdate(inner, amount, isFinal))
  {
  }

  lemma ReplySound(h: Hashes, inner: Inner, reply: WatcherReply)
    requires Inv(h, inner)
    ensures Sound(h, inner, OnWatcher(inner, reply)) && Sound(h, inner, OnFunded(inner))
    ensures Sound(h, inner, OnForceClose(inner))
  {
  }

  /** Whatever the peer, the watcher, the funder and the user do. */
  lemma EventSound(h: Hashes, inner: Inner, ev: Event)
    requires Inv(h, inner) && Enabled(inner, ev)
    ensures Sound(h, inner, On(h, inner, ev))
  {
    match ev
    case UpdateEvent(amount, isFinal) => UpdateSound(h, inner, amount, isFinal);
    case PeerEvent(msg) => PeerSound(h, inner, msg);
    case WatcherEvent(reply) => ReplySound(h, inner, reply);
    case _ => ReplySound(h, inner, Ack);
  }

  // ----- Every run -----

  /** Every run, whatever panics on the way. */
  lemma {:induction false} RunKeepsInv(h: Hashes, inner: Inner, evs: seq<Event>)
    requires Inv(h, inner) || inner.TemporaryInvalidState?
    ensures Inv(h, Run(h, inner, evs)) || Run(h, inner, evs).TemporaryInvalidState?
    decreases evs
  {
    if evs != [] {
      StepSound(h, inner, evs[0]);
      RunKeepsInv(h, Step(h, inner, evs[0]), evs[1..]);
    }
  }

  lemma StepSound(h: Hashes, inner: Inner, ev: Event)
    requires Inv(h, inner) || inner.TemporaryInvalidState?
    ensures var next := Step(h, inner, ev);
            && (Inv(h, next) || next.TemporaryInvalidState?)
            && Rank(inner) <= Rank(next) && (inner.Closed? ==> next.Closed?)
            && (next.TemporaryInvalidState? <==> inner.TemporaryInvalidState? || (ev.PeerEvent? && PeerPanics(inner, ev.msg)))
  {
    if !inner.TemporaryInvalidState? && Enabled(inner, ev) {
      EventSound(h, inner, ev);
    }
  }

  lemma {:induction false} RunAppend(h: Hashes, inner: Inner, evs: seq<Event>, ev: Event)
    ensures Run(h, inner, evs + [ev]) == Step(h, Run(h, inner, evs), ev)
    decreases evs
  {
    if evs == [] {
      assert evs + [ev] == [ev] && [ev][1..] == [];
    } else {
      assert (evs + [ev])[1..] == evs[1..] + [ev];
      RunAppend(h, Step(h, inner, evs[0]), evs[1..], ev);
    }
  }

  /** The temporary phase is left behind exactly when some message was an update
      that panics on arrival. */
  lemma {:induction false} TemporaryExactly(h: Hashes, inner: Inner, evs: seq<Event>)
    requires Inv(h, inner)
    ensures Run(h, inner, evs).TemporaryInvalidState? <==>
              exists k :: 0 <= k < |evs| && evs[k].PeerEvent? && PeerPanics(Run(h, inner, evs[..k]), evs[k].msg)
    decreases |evs|
  {
    if evs != [] {
      var n := |evs| - 1;
      var before := Run(h, inner, evs[..n]);
      RunKeepsInv(h, inner, evs[..n]);
      assert evs[..n] + [evs[n]] == evs;
      RunAppend(h, inner, evs[..n], evs[n]);
      StepSound(h, before, evs[n]);
      TemporaryExactly(h, inner, evs[..n]);
      assert forall k :: 0 <= k < n ==> evs[..n][..k] == evs[..k] && evs[..n][k] == evs[k];
    }
  }

  /** The phase never goes back; a closed channel stays closed. */
  lemma {:induction false} LifecycleForward(h: Hashes, inner: Inner, evs: seq<Event>)
    requires Inv(h, inner) || inner.TemporaryInvalidState?
    ensures Rank(inner) <= Rank(Run(h, inner, evs))
    ensures inner.Closed? ==> Run(h, inner, evs).Closed?
    decreases evs
  {
    if evs != [] {
      StepSound(h, inner, evs[0]);
      LifecycleForward(h, Step(h, inner, evs[0]), evs[1..]);
    }
  }

  /** Our own slot holds our signer's address, or will. */
  predicate OwnSlotOurs(inner: Inner) {
    match inner
    case ProposedCh(p) => p.partIdx == 0 && p.proposal.participant == p.signer
    case AgreedCh(a) => a.params.participants[a.partIdx] == a.signer
    case SignedCh(ch, _, _) => OwnSlot(ch)
    case ActiveCh(ch, _) => OwnSlot(ch)
    case Closing(ch) => OwnSlot(ch)
    case _ => true
  }

  ghost predicate AllSigned(inner: Inner) {
    inner.SignedCh? || inner.ActiveCh? || inner.Closing? ==> OwnSlot(inner.ch) && FullySigned(inner.ch)
  }

  lemma OwnSlotStep(h: Hashes, inner: Inner, ev: Event)
    requires OwnSlotOurs(inner)
    ensures OwnSlotOurs(Step(h, inner, ev))
  {
    match ev
    case PeerEvent(msg) =>
      if !inner.TemporaryInvalidState? && !PeerPanics(inner, msg) {
        OwnSlotPeer(h, inner, msg);
      }
    case _ =>
  }

  lemma OwnSlotPeer(h: Hashes, inner: Inner, msg: ParticipantMsg)
    requires OwnSlotOurs(inner) && !PeerPanics(inner, msg)
    ensures OwnSlotOurs(OnPeer(h, inner, msg).inner)
  {
    match (inner, msg)
    case (ProposedCh(p), ProposalAccepted(acc)) => assert OwnSlotOurs(OnProposalAccepted(h, p, acc).inner);
    case (AgreedCh(a), ChannelUpdateAccepted(c, v, sig)) => assert OwnSlotOurs(OnInitialAcceptance(a, c, v, sig).inner);
    case (ActiveCh(ch, None), ChannelUpdateMsg(s, idx, sig)) => assert OwnSlotOurs(OnPeerUpdate(ch, s, idx, sig).inner);
    case (ActiveCh(ch, Some(u)), ChannelUpdateAccepted(c, v, sig)) => assert OwnSlotOurs(OnPeerAcceptance(ch, u, c, v, sig).inner);
    case (_, _) =>
  }

  /** In every run of a channel whose own slot is ours all stored signatures are the
      participants' own on the stored state. */
  lemma {:induction false} RunFullySigned(h: Hashes, inner: Inner, evs: seq<Event>)
    requires Inv(h, inner) && OwnSlotOurs(inner)
    ensures AllSigned(Run(h, inner, evs))
  {
    RunKeepsInv(h, inner, evs);
    RunKeepsOwnSlot(h, inner, evs);
  }

  lemma {:induction false} RunKeepsOwnSlot(h: Hashes, inner: Inner, evs: seq<Event>)
    requires OwnSlotOurs(inner)
    ensures OwnSlotOurs(Run(h, inner, evs))
    decreases evs
  {
    if evs != [] {
      OwnSlotStep(h, inner, evs[0]);
      RunKeepsOwnSlot(h, Step(h, inner, evs[0]), evs[1..]);
    }
  }

  /** What a run from `inner` must still contain before the channel is active. */
  predicate NeedsAck(inner: Inner) { Rank(inner) < 2 || (inner.SignedCh? && !inner.watching) }

  predicate NeedsFunding(inner: Inner) { Rank(inner) < 2 || (inner.SignedCh? && !inner.funded) }

  /** A channel becomes active only after both a watcher acknowledgement and a
      funder reply. */
  lemma {:induction false} ActiveNeedsBoth(h: Hashes, inner: Inner, evs: seq<Event>)
    requires Inv(h, inner) || inner.TemporaryInvalidState?
    requires Rank(Run(h, inner, evs)) >= 3
    ensures NeedsAck(inner) ==> WatcherEvent(Ack) in evs
    ensures NeedsFunding(inner) ==> FundedEvent in evs
    decreases evs
  {
    if evs != [] {
      StepSound(h, inner, evs[0]);
      NeedsStep(h, inner, evs[0]);
      ActiveNeedsBoth(h, Step(h, inner, evs[0]), evs[1..]);
    }
  }

  lemma PeerNeeds(h: Hashes, inner: Inner, msg: ParticipantMsg)
    requires Inv(h, inner) && !PeerPanics(inner, msg)
    ensures NeedsAck(inner) ==> NeedsAck(OnPeer(h, inner, msg).inner)
    ensures NeedsFunding(inner) ==> NeedsFunding(OnPeer(h, inner, msg).inner)
  {
    match (inner, msg)
    case (ProposedCh(p), ProposalAccepted(acc)) => assert Rank(OnProposalAccepted(h, p, acc).inner) < 2;
    case (AgreedCh(a), ChannelUpdateAccepted(c, v, sig)) =>
      var next := OnInitialAcceptance(a, c, v, sig).inner;
      assert next.AgreedCh? || (next.SignedCh? && !next.watching && !next.funded);
    case (_, _) =>
  }

  lemma NeedsStep(h: Hashes, inner: Inner, ev: Event)
    requires Inv(h, inner) || inner.TemporaryInvalidState?
    ensures NeedsAck(inner) && ev != WatcherEvent(Ack) ==> NeedsAck(Step(h, inner, ev))
    ensures NeedsFunding(inner) && ev != FundedEvent ==> NeedsFunding(Step(h, inner, ev))
  {
    match ev
    case PeerEvent(msg) =>
      if !inner.TemporaryInvalidState? && !PeerPanics(inner, msg) {
        PeerNeeds(h, inner, msg);
      }
    case _ =>
  }

  // ----- Payments -----

  /** Paying keeps the total, so a payment is a valid transition unless the
      channel is final. */
  lemma PaymentValid(s: ChState, payer: PartIdx, amount: U256, isFinal: bool)
    requires s.version + 1 < U64_LIMIT
    requires amount <= Balance(s, payer) && Balance(s, 1 - payer) + amount < U256_LIMIT
    ensures CheckTransition(s, Paid(s, payer, amount, isFinal)) == if s.isFinal then Some(CurrentStateIsFinal) else None
    ensures Balance(Paid(s, payer, amount, isFinal), 1 - payer) == Balance(s, 1 - payer) + amount
    ensures Balance(Paid(s, payer, amount, isFinal), payer) == Balance(s, payer) - amount
    ensures var s' := Paid(s, payer, amount, isFinal);
            && s'.id == s.id && s'.version == s.version + 1 && s'.isFinal == isFinal
            && s'.outcome.assets == s.outcome.assets
  {
    var s' := Paid(s, payer, amount, isFinal);
    SumOfTwo(s.outcome.balances[0]);
    SumOfTwo(s'.outcome.balances[0]);
    assert Totals(s'.outcome) == Totals(s.outcome);
  }

  lemma {:induction false} SumOfTwo(row: seq<U256>)
    requires |row| == 2
    ensures Sum(row) == (row[0] as int) + row[1]
  {
    assert row[..1] == [row[0]] && [row[0]][..0] == [];
    assert Sum([row[0]]) == Sum([]) + row[0];
  }

  /** When a payment panics in a channel that is not final: when versions have run
      out, or when the guard lets it through and participant 0 pays more than it has
      or the totals are out of range. */
  lemma PaymentPanics(s: ChState, payer: PartIdx, amount: U256, isFinal: bool)
    requires !s.isFinal
    ensures !CanCompute(s, payer, amount, isFinal) <==>
              || s.version + 1 == U64_LIMIT
              || (amount <= Balance(s, 1) && ((payer == 0 && Balance(s, 0) < amount) || !NoOverflow(s.outcome)))
  {
    SumOfTwo(s.outcome.balances[0]);
    if s.version + 1 < U64_LIMIT && amount <= Balance(s, payer) && Balance(s, 1 - payer) + amount < U256_LIMIT {
      PaymentValid(s, payer, amount, isFinal);
      SumOfTwo(Paid(s, payer, amount, isFinal).outcome.balances[0]);
    }
  }

  // ----- Panics on messages -----

  /** The totals the phase works with are in range. */
  predicate TotalsFit(inner: Inner) {
    match inner
    case ProposedCh(p) => NoOverflow(Allocation([p.proposal.asset], p.proposal.initBals))
    case AgreedCh(a) => NoOverflow(a.initState.outcome)
    case SignedCh(ch, _, _) => NoOverflow(ch.state.outcome)
    case ActiveCh(ch, _) => NoOverflow(ch.state.outcome)
    case Closing(ch) => NoOverflow(ch.state.outcome)
    case _ => true
  }

  /** Totals that fit in the beginning fit for ever, because they are conserved. */
  lemma {:induction false} RunKeepsTotals(h: Hashes, inner: Inner, evs: seq<Event>)
    requires (Inv(h, inner) || inner.TemporaryInvalidState?) && TotalsFit(inner)
    ensures TotalsFit(Run(h, inner, evs))
    decreases evs
  {
    if evs != [] {
      StepSound(h, inner, evs[0]);
      StepKeepsTotals(h, inner, evs[0]);
      RunKeepsTotals(h, Step(h, inner, evs[0]), evs[1..]);
    }
  }

  lemma StepKeepsTotals(h: Hashes, inner: Inner, ev: Event)
    requires (Inv(h, inner) || inner.TemporaryInvalidState?) && TotalsFit(inner)
    ensures TotalsFit(Step(h, inner, ev))
  {
    match ev
    case PeerEvent(msg) =>
      if !inner.TemporaryInvalidState? && !PeerPanics(inner, msg) {
        PeerKeepsTotals(h, inner, msg);
      }
    case _ =>
  }

  lemma ConservedTotalsFit(s: ChState, s': ChState)
    requires Totals(s'.outcome) == Totals(s.outcome) && NoOverflow(s.outcome)
    ensures NoOverflow(s'.outcome)
  {
    assert Totals(s'.outcome)[0] == Totals(s.outcome)[0];
  }

  lemma UpdateKeepsTotals(h: Hashes, ch: Active, s: ChState, actorIdx: nat, sig: Signature)
    requires Inv(h, ActiveCh(ch, None)) && NoOverflow(ch.state.outcome) && !HandlePanics(ch, s, actorIdx, sig)
    ensures TotalsFit(OnPeerUpdate(ch, s, actorIdx, sig).inner)
  {
    NoStrandedAcceptance(h, ch, s, actorIdx, sig);
    if ValidTransition(ch.state, s) {
      ConservedTotalsFit(ch.state, s);
    }
  }

  lemma AcceptanceKeepsTotals(h: Hashes, ch: Active, u: Update, channel: Hash, version: u64, sig: Signature)
    requires Inv(h, ActiveCh(ch, Some(u))) && NoOverflow(ch.state.outcome)
    ensures TotalsFit(OnPeerAcceptance(ch, u, channel, version, sig).inner)
  {
    AcceptanceApplies(h, ch, u, channel, version, sig);
    ConservedTotalsFit(ch.state, u.newState);
  }

  lemma PeerKeepsTotals(h: Hashes, inner: Inner, msg: ParticipantMsg)
    requires Inv(h, inner) && TotalsFit(inner) && !PeerPanics(inner, msg)
    ensures TotalsFit(OnPeer(h, inner, msg).inner)
  {
    match (inner, msg)
    case (ActiveCh(ch, None), ChannelUpdateMsg(s, idx, sig)) => UpdateKeepsTotals(h, ch, s, idx, sig);
    case (ActiveCh(ch, Some(u)), ChannelUpdateAccepted(c, v, sig)) => AcceptanceKeepsTotals(h, ch, u, c, v, sig);
    case (_, _) =>
  }

  /** Which messages panic, in a reachable channel with totals in range: an update
      with the right id, version and assets whose own total is out of range; one that
      is valid and properly signed by someone but names no actor; and any update for
      this channel once versions have run out. */
  lemma UpdatePanics(h: Hashes, inner: Inner, msg: ParticipantMsg)
    requires Inv(h, inner) && TotalsFit(inner)
    ensures PeerPanics(inner, msg) <==>
              && inner.ActiveCh? && inner.pending.None? && msg.ChannelUpdateMsg?
              && var cur, s := inner.ch.state, msg.state;
                 var total := (Balance(s, 0) as int) + Balance(s, 1);
                 && s.id == cur.id
                 && (cur.version + 1 == U64_LIMIT
                     || (s.version == cur.version + 1 && s.outcome.assets == cur.outcome.assets
                         && (total >= U256_LIMIT
                             || (total == (Balance(cur, 0) as int) + Balance(cur, 1)
                                 && Recover(StateDigest(s), msg.sig).Some? && msg.actorIdx >= 2))))
  {
    if inner.ActiveCh? && msg.ChannelUpdateMsg? {
      var o, o' := inner.ch.state.outcome, msg.state.outcome;
      SumOfTwo(o.balances[0]);
      SumOfTwo(o'.balances[0]);
      assert Totals(o') == Totals(o) <==> Totals(o')[0] == Totals(o)[0];
    }
  }
}
