/** What each operation answers, refusals included, said of the fields involved. */
module Verdicts {
  import opened Wrappers
  import opened Payment
  import opened Channel
  import opened Opening
  import opened Demo

  // ----- Transitions and updates -----

  function Total(s: ChState): nat { (Balance(s, 0) as int) + Balance(s, 1) }

  /** Which reason goes with which refusal. */
  lemma TransitionVerdict(cur: ChState, next: ChState)
    ensures CheckTransition(cur, next) == Some(InvalidChannelID) <==> next.id != cur.id
    ensures CheckTransition(cur, next) == Some(CurrentStateIsFinal) <==> next.id == cur.id && cur.isFinal
    ensures CheckTransition(cur, next) == Some(InvalidVersionNumber) <==>
              next.id == cur.id && !cur.isFinal && next.version != cur.version + 1
    ensures CheckTransition(cur, next) == Some(AssetsMismatch) <==>
              (next.id == cur.id && !cur.isFinal && next.version == cur.version + 1 && next.outcome.assets != cur.outcome.assets)
    ensures CheckTransition(cur, next) == Some(TotalAllocationAmountMismatch) <==>
              (next.id == cur.id && !cur.isFinal && next.version == cur.version + 1
               && next.outcome.assets == cur.outcome.assets && Total(next) != Total(cur))
    ensures CheckTransition(cur, next) == None <==>
              (next.id == cur.id && !cur.isFinal && next.version == cur.version + 1
               && next.outcome.assets == cur.outcome.assets && Total(next) == Total(cur))
  {
    SumOfTwo(cur.outcome.balances[0]);
    SumOfTwo(next.outcome.balances[0]);
    assert Totals(next.outcome) == Totals(cur.outcome) <==> Totals(next.outcome)[0] == Totals(cur.outcome)[0];
  }

  lemma ProposeVerdict(ch: Active, s: ChState)
    requires !TransitionPanics(ch.state, s)
    ensures match CheckTransition(ch.state, s)
            case Some(e) => Propose(ch, s) == Err(InvalidUpdateError(e))
            case None => Propose(ch, s).Ok?
                         && var u := Propose(ch, s).value;
                            u.channelId == ch.state.id && u.newState == s
                            && u.sigs[ch.partIdx] == Some(Signature(ch.signer, StateDigest(s))) && u.sigs[1 - ch.partIdx] == None
  {
  }

  lemma HandleVerdict(ch: Active, s: ChState, idx: nat, sig: Signature)
    requires !HandlePanics(ch, s, idx, sig)
    ensures var r := HandleUpdate(ch, s, idx, sig);
            match CheckTransition(ch.state, s)
            case Some(e) => r == Err(InvalidUpdateError(e))
            case None =>
              && (r == Err(RecoveryFailed) <==> sig.digest != StateDigest(s))
              && (r == Err(InvalidSignature(sig.signer)) <==>
                    sig.digest == StateDigest(s) && ch.params.participants[idx] != sig.signer)
              && (r.Ok? <==> sig.digest == StateDigest(s) && ch.params.participants[idx] == sig.signer)
              && (r.Ok? ==> r.value.channelId == ch.state.id && r.value.newState == s
                            && r.value.sigs[idx] == Some(sig) && r.value.sigs[1 - idx] == None)
  {
  }

  lemma AcceptVerdict(u: Update, ch: Active)
    ensures var r := Accept(u, ch);
            && (r == Err(WrongVersion) <==> u.newState.version != ch.state.version + 1)
            && (r == Err(WrongChannelId) <==> u.newState.version == ch.state.version + 1 && u.channelId != ch.state.id)
            && (r == Err(AlreadyAccepted) <==>
                  (u.newState.version == ch.state.version + 1 && u.channelId == ch.state.id && u.sigs[ch.partIdx].Some?))
            && (r.Ok? <==> u.newState.version == ch.state.version + 1 && u.channelId == ch.state.id && u.sigs[ch.partIdx].None?)
            && (r.Ok? ==> r.value.channelId == u.channelId && r.value.newState == u.newState
                          && r.value.sigs[ch.partIdx] == Some(Signature(ch.signer, StateDigest(u.newState)))
                          && r.value.sigs[1 - ch.partIdx] == u.sigs[1 - ch.partIdx])
  {
  }

  /** The checks in their order, each with its own refusal. */
  lemma ParticipantVerdict(u: Update, ch: Active, idx: PartIdx, channel: Hash, version: u64, sig: Signature)
    ensures var r := ParticipantAccepted(u, ch, idx, channel, version, sig);
            if u.newState.version != ch.state.version + 1 then r == Err(WrongVersion)
            else if u.channelId != ch.state.id then r == Err(WrongChannelId)
            else if channel != u.channelId then r == Err(MismatchedChannelID)
            else if version != u.newState.version then r == Err(MismatchedVersion)
            else if sig.digest != StateDigest(u.newState) then r == Err(RecoveryFailed)
            else if ch.params.participants[idx] != sig.signer then r == Err(InvalidSignature(sig.signer))
            else if u.sigs[idx].Some? then r == Err(AlreadySigned)
            else r.Ok? && r.value.channelId == u.channelId && r.value.newState == u.newState
                 && r.value.sigs[idx] == Some(sig) && r.value.sigs[1 - idx] == u.sigs[1 - idx]
  {
  }

  lemma ApplyVerdict(u: Update, ch: Active)
    ensures var r := Apply(u, ch);
            if u.newState.version != ch.state.version + 1 then r == Err(WrongVersion)
            else if u.channelId != ch.state.id then r == Err(WrongChannelId)
            else if u.sigs[0].None? then r == Err(MissingSignature(0))
            else if u.sigs[1].None? then r == Err(MissingSignature(1))
            else r.Ok? && r.value.state == u.newState && r.value.sigs == [u.sigs[0].value, u.sigs[1].value]
                 && r.value.params == ch.params && r.value.partIdx == ch.partIdx && r.value.signer == ch.signer
                 && r.value.receiver == ch.receiver
  {
  }

  // ----- Opening -----

  lemma AnswerVerdict(p: Proposed, acc: ProposalAcc)
    ensures var r := ProposalAcceptedBy(p, acc);
            && (r == Err(InvalidProposalID) <==> acc.proposalId != p.proposal.proposalId)
            && (r == Err(AlreadyAcceptedProposal) <==> acc.proposalId == p.proposal.proposalId && p.response.Some?)
            && (r.Ok? <==> acc.proposalId == p.proposal.proposalId && p.response.None?)
            && (r.Ok? ==> r.value == Proposed(p.partIdx, p.signer, p.receiver, p.proposal, Some(acc)))
  {
  }

  lemma SignVerdict(a: Agreed)
    ensures var r := SignInitial(a);
            && (r == Err(SigError(AlreadySigned)) <==> a.sigs[a.partIdx].Some?)
            && (r.Ok? <==> a.sigs[a.partIdx].None?)
            && (r.Ok? ==> Unsigned(r.value) == Unsigned(a) && r.value.agreement == a.agreement
                          && r.value.sigs[a.partIdx] == Some(Signature(a.signer, StateDigest(a.initState)))
                          && r.value.sigs[1 - a.partIdx] == a.sigs[1 - a.partIdx])
  {
  }

  /** The signer's first slot takes the signature. */
  lemma AddVerdict(a: Agreed, channel: Hash, version: u64, sig: Signature)
    ensures var r := AddSignature(a, channel, version, sig);
            var slot := if a.params.participants[0] == sig.signer then 0 else 1;
            if channel != a.initState.id then r == Err(SigError(MismatchedChannelID))
            else if version != 0 then r == Err(SigError(MismatchedVersion))
            else if sig.digest != StateDigest(a.initState) then r == Err(SigError(RecoveryFailed))
            else if a.params.participants[slot] != sig.signer then r == Err(SigError(InvalidSignature(sig.signer)))
            else if a.sigs[slot].Some? then r == Err(SigError(AlreadySigned))
            else r.Ok? && Unsigned(r.value) == Unsigned(a) && r.value.agreement == a.agreement
                 && r.value.sigs[slot] == Some(sig) && r.value.sigs[1 - slot] == a.sigs[1 - slot]
  {
  }

  lemma BuiltVerdict(a: Agreed)
    ensures var r := BuildSigned(a);
            if a.sigs[0].None? then r == Err(MissingSignatureResponse(0))
            else if a.sigs[1].None? then r == Err(MissingSignatureResponse(1))
            else r == Ok(Active(a.partIdx, a.signer, a.receiver, a.params, a.initState, [a.sigs[0].value, a.sigs[1].value]))
    ensures FundingRequest(a) == FundReq(a.partIdx, a.agreement, a.params, a.initState)
  {
    if a.sigs[0].Some? && a.sigs[1].Some? {
      assert Collect(a.sigs).value == [a.sigs[0].value, a.sigs[1].value];
    }
  }

  // ----- The demo: commands -----

  /** The proposal that a payment of `amount` sends: the next version, in which our
      balance is smaller by the amount and the other one larger. */
  predicate PaymentMsg(ch: Active, amount: U256, isFinal: bool, m: ParticipantMsg) {
    && m.ChannelUpdateMsg? && m.actorIdx == ch.partIdx && m.sig == Signature(ch.signer, StateDigest(m.state))
    && m.state.id == ch.state.id && m.state.version == ch.state.version + 1 && m.state.isFinal == isFinal
    && m.state.outcome.assets == ch.state.outcome.assets
    && Balance(m.state, ch.partIdx) == Balance(ch.state, ch.partIdx) - amount
    && Balance(m.state, 1 - ch.partIdx) == Balance(ch.state, 1 - ch.partIdx) + amount
  }

  /** Whatever was pending is overwritten by a payment that is proposed. */
  lemma PaymentVerdict(ch: Active, pending: Option<Update>, amount: U256, isFinal: bool)
    requires CanCompute(ch.state, ch.partIdx, amount, isFinal)
    ensures var before, e := ActiveCh(ch, pending), OnUpdate(ActiveCh(ch, pending), amount, isFinal);
            if Balance(ch.state, 1) < amount then e == Effect(before, Some(NotEnoughFunds), [], [], [])
            else if ch.state.isFinal then
              e == Effect(before, Some(ChannelFailed(InvalidUpdateError(CurrentStateIsFinal))), [], [], [])
            else
              && e.error.None? && e.watcher == [] && e.funder == []
              && |e.peers| == 1 && PaymentMsg(ch, amount, isFinal, e.peers[0])
              && e.inner.ActiveCh? && e.inner.ch == ch && e.inner.pending.Some?
              && var u := e.inner.pending.value;
                 && u.newState == e.peers[0].state && u.channelId == ch.state.id
                 && u.sigs[ch.partIdx] == Some(e.peers[0].sig) && u.sigs[1 - ch.partIdx].None?
  {
    if amount <= Balance(ch.state, 1) {
      PaymentValid(ch.state, ch.partIdx, amount, isFinal);
    }
  }

  /** Only an active channel takes commands. */
  lemma CommandVerdict(inner: Inner, amount: U256, isFinal: bool)
    requires !inner.ActiveCh?
    ensures OnUpdate(inner, amount, isFinal) == Effect(inner, Some(InvalidState), [], [], [])
    ensures OnForceClose(inner) == Effect(inner, Some(InvalidState), [], [], [])
  {
  }

  // ----- The demo: replies -----

  predicate WatcherReplyFits(inner: Inner, reply: WatcherReply) {
    || (inner.SignedCh? && reply.Ack?)
    || ((inner.ActiveCh? || inner.Closing?) && !reply.DisputeAck?)
    || (inner.ForceClosing? && !reply.Ack?)
    || (inner.Closed? && reply.DisputeNotification?)
  }

  /** What each reply of the watcher does, and which refusal it meets. */
  lemma WatcherVerdict(inner: Inner, reply: WatcherReply)
    ensures var e := OnWatcher(inner, reply);
            && e.peers == [] && e.watcher == [] && e.funder == []
            && (e.error.None? <==> WatcherReplyFits(inner, reply))
            && (e.error == Some(ClosedError) <==> inner.ForceClosing? && reply.Ack?)
            && (e.error == Some(InvalidState) <==> !WatcherReplyFits(inner, reply) && !inner.ForceClosing?)
            && (e.inner.Closed? <==>
                  || inner.Closed? || (inner.ActiveCh? && reply.DisputeNotification?)
                  || (inner.Closing? && !reply.DisputeAck?) || (inner.ForceClosing? && reply.DisputeAck?))
            && (inner.SignedCh? && reply.Ack? ==>
                  e.inner == if inner.funded then ActiveCh(inner.ch, None) else SignedCh(inner.ch, true, false))
            && (!e.inner.Closed? && !inner.SignedCh? ==> e.inner == inner)
  {
  }

  /** The funder may answer before the watcher does. */
  lemma FundedVerdict(inner: Inner)
    ensures var e := OnFunded(inner);
            && e.peers == [] && e.watcher == [] && e.funder == []
            && (e.error.None? <==> inner.SignedCh?)
            && (e.error == Some(ClosedError) <==> inner.Closing? || inner.ForceClosing? || inner.Closed?)
            && (e.error == Some(InvalidState) <==>
                  inner.ProposedCh? || inner.AgreedCh? || inner.ActiveCh? || inner.TemporaryInvalidState?)
            && (inner.SignedCh? ==>
                  e.inner == if inner.watching then ActiveCh(inner.ch, None) else SignedCh(inner.ch, false, true))
            && (!inner.SignedCh? ==> e.inner == inner)
  {
  }

  // ----- The demo: messages of the peer -----

  /** The messages a phase works with. */
  predicate PeerMsgFits(inner: Inner, msg: ParticipantMsg) {
    match inner
    case ProposedCh(_) => msg.ProposalAccepted?
    case AgreedCh(_) => msg.ChannelUpdateAccepted?
    case ActiveCh(_, None) => msg.ChannelUpdateMsg?
    case ActiveCh(_, Some(_)) => msg.ChannelUpdateAccepted? || msg.ChannelUpdateRejected?
    case _ => false
  }

  predicate PeerRejects(inner: Inner, msg: ParticipantMsg) {
    (inner.ProposedCh? && msg.ProposalRejected?) || (inner.AgreedCh? && msg.ChannelUpdateRejected?)
  }

  /** Which message is refused in which phase, and with what; a rejection gives up the
      pending update whatever it names. */
  lemma PeerVerdict(h: Hashes, inner: Inner, msg: ParticipantMsg)
    requires !PeerPanics(inner, msg)
    ensures var e, over := OnPeer(h, inner, msg), inner.Closing? || inner.ForceClosing? || inner.Closed?;
            && (!PeerMsgFits(inner, msg) ==>
                  e == Effect(inner, Some(if over then ClosedError else if PeerRejects(inner, msg) then Rejected else InvalidState), [], [], []))
            && (PeerMsgFits(inner, msg) ==> e.error.None? || e.error.value.OpeningFailed? || e.error.value.ChannelFailed?)
            && (inner.ActiveCh? && inner.pending.Some? && msg.ChannelUpdateRejected? ==>
                  e == Effect(ActiveCh(inner.ch, None), None, [], [], []))
  {
    match (inner, msg)
    case (ProposedCh(p), ProposalAccepted(acc)) =>
      var e := OnProposalAccepted(h, p, acc).error;
      assert e.None? || e.value.OpeningFailed?;
    case (AgreedCh(a), ChannelUpdateAccepted(c, v, sig)) =>
      var e := OnInitialAcceptance(a, c, v, sig).error;
      assert e.None? || e.value.OpeningFailed?;
    case (ActiveCh(ch, None), ChannelUpdateMsg(s, idx, sig)) =>
      var e := OnPeerUpdate(ch, s, idx, sig).error;
      assert e.None? || e.value.ChannelFailed?;
    case (ActiveCh(ch, Some(u)), ChannelUpdateAccepted(c, v, sig)) =>
      var e := OnPeerAcceptance(ch, u, c, v, sig).error;
      assert e.None? || e.value.ChannelFailed?;
    case (_, _) =>
  }

  /** The channel after `s` is installed with our signature and that of the peer. */
  function Next(ch: Active, s: ChState, ours: Signature, theirs: Signature): Active {
    Active(ch.partIdx, ch.signer, ch.receiver, ch.params, s, if ch.partIdx == 0 then [ours, theirs] else [theirs, ours])
  }

  /** All that an installed state sets off: we go on or close, and the watcher gets it. */
  predicate Installs(e: Effect, ch: Active, peers: seq<ParticipantMsg>) {
    e == Effect(if ch.state.isFinal then Closing(ch) else ActiveCh(ch, None), None, peers,
                [WatchReq(ch.params, ch.state, ch.sigs)], [])
  }

  lemma AnsweredVerdict(h: Hashes, ch: Active, s: ChState, idx: nat, sig: Signature)
    requires Inv(h, ActiveCh(ch, None)) && !HandlePanics(ch, s, idx, sig)
    ensures var e, ours := OnPeerUpdate(ch, s, idx, sig), Signature(ch.signer, StateDigest(s));
            && (e.error.None? <==> ValidTransition(ch.state, s) && idx == 1 - ch.partIdx
                                   && SignedBy(sig, ch.params.participants[1 - ch.partIdx], s))
            && (e.error.None? ==> Installs(e, Next(ch, s, ours, sig), [ChannelUpdateAccepted(ch.state.id, s.version, ours)]))
            && (e.error.Some? ==> e.inner == ActiveCh(ch, None) && e.peers == [] && e.watcher == [] && e.funder == [])
  {
    NoStrandedAcceptance(h, ch, s, idx, sig);
    var e, ours := OnPeerUpdate(ch, s, idx, sig), Signature(ch.signer, StateDigest(s));
    if e.error.None? {
      var both := [None, None][idx := Some(sig)][ch.partIdx := Some(ours)];
      BothCollected(both, ch.partIdx, ours, sig);
    }
  }

  lemma {:induction false} BothCollected(slots: seq<Option<Signature>>, i: PartIdx, ours: Signature, theirs: Signature)
    requires |slots| == 2 && slots[i] == Some(ours) && slots[1 - i] == Some(theirs)
    ensures Collect(slots) == Ok(if i == 0 then [ours, theirs] else [theirs, ours])
  {
    var sigs := Collect(slots).value;
    assert sigs == [sigs[0], sigs[1]];
  }

  lemma InstalledVerdict(h: Hashes, ch: Active, u: Update, channel: Hash, version: u64, sig: Signature)
    requires Inv(h, ActiveCh(ch, Some(u)))
    ensures var e := OnPeerAcceptance(ch, u, channel, version, sig);
            && (e.error.None? ==> Installs(e, Next(ch, u.newState, u.sigs[ch.partIdx].value, sig), []))
            && (e.error.Some? ==> e.inner == ActiveCh(ch, Some(u)) && e.peers == [] && e.watcher == [] && e.funder == [])
  {
    AcceptanceApplies(h, ch, u, channel, version, sig);
    if OnPeerAcceptance(ch, u, channel, version, sig).error.None? {
      BothCollected(u.sigs[1 - ch.partIdx := Some(sig)], ch.partIdx, u.sigs[ch.partIdx].value, sig);
    }
  }

  /** The signature that completes the opening: the watcher gets the initial state with
      both signatures, the funder is asked for our share. */
  lemma OpenedVerdict(h: Hashes, a: Agreed, channel: Hash, version: u64, sig: Signature)
    requires Inv(h, AgreedCh(a))
    ensures var e, i := OnInitialAcceptance(a, channel, version, sig), a.partIdx;
            && (e.error.None? <==> channel == a.initState.id && version == 0 && SignedBy(sig, a.params.participants[1 - i], a.initState)
                                   && SlotOf(a.params, sig.signer) == Some(1 - i))
            && (e.error.None? ==>
                  && e.inner.SignedCh? && !e.inner.watching && !e.inner.funded
                  && e.inner.ch == Active(i, a.signer, a.receiver, a.params, a.initState,
                                          if i == 0 then [a.sigs[i].value, sig] else [sig, a.sigs[i].value])
                  && e.watcher == [WatchReq(a.params, a.initState, e.inner.ch.sigs)]
                  && e.funder == [FundReq(i, a.agreement, a.params, a.initState)] && e.peers == [])
            && (e.error.Some? ==> e.inner == AgreedCh(a) && e.watcher == [] && e.funder == [] && e.peers == [])
  {
    OpeningSound(h, a, channel, version, sig);
    AddVerdict(a, channel, version, sig);
    if AddSignature(a, channel, version, sig).Ok? {
      BothCollected(a.sigs[1 - a.partIdx := Some(sig)], a.partIdx, a.sigs[a.partIdx].value, sig);
    }
  }
}
