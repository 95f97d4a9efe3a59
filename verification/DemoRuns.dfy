/** When runs of the demo's channel reach each phase, and what they ask of the funder. */
module DemoRuns {
  import opened Wrappers
  import opened Channel
  import opened Opening
  import opened Demo

  // ----- Becoming active -----

  /** What moves a signed channel, and what does not. */
  lemma SignedStep(h: Hashes, ch: Active, watching: bool, funded: bool, ev: Event)
    requires !(watching && funded)
    ensures Step(h, SignedCh(ch, watching, funded), ev) ==
            if ev == WatcherEvent(Ack) then (if funded then ActiveCh(ch, None) else SignedCh(ch, true, funded))
            else if ev == FundedEvent then (if watching then ActiveCh(ch, None) else SignedCh(ch, watching, true))
            else SignedCh(ch, watching, funded)
  {
  }

  /** A signed channel becomes active exactly when both replies have come, in either
      order and however often. */
  lemma {:induction false} ActiveExactly(h: Hashes, ch: Active, watching: bool, funded: bool, evs: seq<Event>)
    requires Inv(h, SignedCh(ch, watching, funded))
    ensures Rank(Run(h, SignedCh(ch, watching, funded), evs)) >= 3 <==>
              (watching || WatcherEvent(Ack) in evs) && (funded || FundedEvent in evs)
    decreases evs
  {
    if evs != [] {
      var ev, next := evs[0], Step(h, SignedCh(ch, watching, funded), evs[0]);
      SignedStep(h, ch, watching, funded, ev);
      StepSound(h, SignedCh(ch, watching, funded), ev);
      if next.SignedCh? {
        ActiveExactly(h, ch, next.watching, next.funded, evs[1..]);
      } else {
        LifecycleForward(h, next, evs[1..]);
      }
    }
  }

  // ----- Closing -----

  /** The replies that close a channel. */
  predicate Closes(inner: Inner, ev: Event) {
    || (inner.ActiveCh? && ev == WatcherEvent(DisputeNotification))
    || (inner.Closing? && (ev == WatcherEvent(Ack) || ev == WatcherEvent(DisputeNotification)))
    || (inner.ForceClosing? && ev == WatcherEvent(DisputeAck))
  }

  lemma StepClosed(h: Hashes, inner: Inner, ev: Event)
    requires Inv(h, inner) || inner.TemporaryInvalidState?
    ensures Step(h, inner, ev).Closed? <==> inner.Closed? || Closes(inner, ev)
  {
    match ev
    case PeerEvent(msg) =>
      if !inner.TemporaryInvalidState? && !PeerPanics(inner, msg) {
        PeerNotClosed(h, inner, msg);
      }
    case _ =>
  }

  lemma PeerNotClosed(h: Hashes, inner: Inner, msg: ParticipantMsg)
    requires Inv(h, inner) && !PeerPanics(inner, msg)
    ensures OnPeer(h, inner, msg).inner.Closed? <==> inner.Closed?
    ensures OnPeer(h, inner, msg).inner.ForceClosing? <==> inner.ForceClosing?
  {
    match (inner, msg)
    case (ProposedCh(p), ProposalAccepted(acc)) => assert Rank(OnProposalAccepted(h, p, acc).inner) < 2;
    case (AgreedCh(a), ChannelUpdateAccepted(c, v, sig)) => assert Rank(OnInitialAcceptance(a, c, v, sig).inner) <= 2;
    case (ActiveCh(ch, None), ChannelUpdateMsg(s, idx, sig)) => NoStrandedAcceptance(h, ch, s, idx, sig);
    case (ActiveCh(ch, Some(u)), ChannelUpdateAccepted(c, v, sig)) => AcceptanceApplies(h, ch, u, c, v, sig);
    case (_, _) =>
  }

  /** A run ends closed exactly when it started closed or some reply in it closed the
      channel. */
  lemma {:induction false} ClosedExactly(h: Hashes, inner: Inner, evs: seq<Event>)
    requires Inv(h, inner)
    ensures Run(h, inner, evs).Closed? <==>
              inner.Closed? || exists k :: 0 <= k < |evs| && Closes(Run(h, inner, evs[..k]), evs[k])
    decreases |evs|
  {
    if evs != [] {
      var n := |evs| - 1;
      RunKeepsInv(h, inner, evs[..n]);
      assert evs[..n] + [evs[n]] == evs;
      RunAppend(h, inner, evs[..n], evs[n]);
      StepClosed(h, Run(h, inner, evs[..n]), evs[n]);
      ClosedExactly(h, inner, evs[..n]);
      assert forall k :: 0 <= k < n ==> evs[..n][..k] == evs[..k] && evs[..n][k] == evs[k];
    }
  }

  /** An agreed final state closes the channel as soon as the watcher says anything but
      a dispute acknowledgement, and only then. */
  lemma {:induction false} ClosingEnds(h: Hashes, ch: Active, evs: seq<Event>)
    requires Inv(h, Closing(ch))
    ensures Run(h, Closing(ch), evs) ==
            if WatcherEvent(Ack) in evs || WatcherEvent(DisputeNotification) in evs then Closed else Closing(ch)
    decreases evs
  {
    if evs != [] {
      if evs[0] == WatcherEvent(Ack) || evs[0] == WatcherEvent(DisputeNotification) {
        StaysClosed(h, evs[1..]);
      } else {
        assert Step(h, Closing(ch), evs[0]) == Closing(ch);
        ClosingEnds(h, ch, evs[1..]);
      }
    }
  }

  lemma {:induction false} StaysClosed(h: Hashes, evs: seq<Event>)
    ensures Run(h, Closed, evs) == Closed
    decreases evs
  {
    if evs != [] {
      StaysClosed(h, evs[1..]);
    }
  }

  /** A dispute is over exactly when it is acknowledged. */
  lemma {:induction false} ForceClosingEnds(h: Hashes, evs: seq<Event>)
    ensures Run(h, ForceClosing, evs) == if WatcherEvent(DisputeAck) in evs then Closed else ForceClosing
    decreases evs
  {
    if evs != [] {
      if evs[0] == WatcherEvent(DisputeAck) {
        StaysClosed(h, evs[1..]);
      } else {
        ForceClosingEnds(h, evs[1..]);
      }
    }
  }

  // ----- Requests to the funder -----

  /** What one event makes us ask of the funder. */
  function Asked(h: Hashes, inner: Inner, ev: Event): seq<FunderReq> {
    if inner.TemporaryInvalidState? || !Enabled(inner, ev) then [] else On(h, inner, ev).funder
  }

  /** Everything the funder is asked in a run. */
  function FunderLog(h: Hashes, inner: Inner, evs: seq<Event>): seq<FunderReq>
    decreases |evs|
  {
    if evs == [] then [] else
    var n := |evs| - 1;
    FunderLog(h, inner, evs[..n]) + Asked(h, Run(h, inner, evs[..n]), evs[n])
  }

  /** Exactly two events ask: a force close registers the current transaction, and the
      signature that completes the opening asks for our share. */
  lemma AskedExactly(h: Hashes, inner: Inner, ev: Event)
    requires Inv(h, inner) || inner.TemporaryInvalidState?
    ensures Asked(h, inner, ev) ==
            if inner.ActiveCh? && ev.ForceCloseEvent? then
              [RegisterReq(AdjudicatorReq(inner.ch.params, inner.ch.receiver, inner.ch.state, inner.ch.sigs, inner.ch.partIdx, false))]
            else if inner.AgreedCh? && Step(h, inner, ev).SignedCh? then
              [FundReq(inner.agreed.partIdx, inner.agreed.agreement, inner.agreed.params, inner.agreed.initState)]
            else []
    ensures Step(h, inner, ev).ForceClosing? <==>
              (inner.ActiveCh? && ev.ForceCloseEvent?) || (inner.ForceClosing? && ev != WatcherEvent(DisputeAck))
  {
    match ev
    case PeerEvent(msg) =>
      if !inner.TemporaryInvalidState? && !PeerPanics(inner, msg) {
        PeerAsks(h, inner, msg);
        PeerNotClosed(h, inner, msg);
      }
    case _ =>
  }

  lemma PeerAsks(h: Hashes, inner: Inner, msg: ParticipantMsg)
    requires Inv(h, inner) && !PeerPanics(inner, msg)
    ensures OnPeer(h, inner, msg).funder ==
            if inner.AgreedCh? && OnPeer(h, inner, msg).inner.SignedCh? then
              [FundReq(inner.agreed.partIdx, inner.agreed.agreement, inner.agreed.params, inner.agreed.initState)]
            else []
  {
    match (inner, msg)
    case (ProposedCh(p), ProposalAccepted(acc)) => assert OnProposalAccepted(h, p, acc).funder == [];
    case (AgreedCh(a), ChannelUpdateAccepted(c, v, sig)) =>
      var e := OnInitialAcceptance(a, c, v, sig);
      assert e.inner.SignedCh? ==>
        e.funder == [FundReq(a.partIdx, a.agreement, a.params, a.initState)];
      assert !e.inner.SignedCh? ==> e.funder == [];
    case (ActiveCh(ch, None), ChannelUpdateMsg(s, idx, sig)) => assert OnPeerUpdate(ch, s, idx, sig).funder == [];
    case (ActiveCh(ch, Some(u)), ChannelUpdateAccepted(c, v, sig)) => assert OnPeerAcceptance(ch, u, c, v, sig).funder == [];
    case (_, _) =>
  }

  function Registers(log: seq<FunderReq>): nat {
    if log == [] then 0 else (if log[0].RegisterReq? then 1 else 0) + Registers(log[1..])
  }

  function Fundings(log: seq<FunderReq>): nat {
    if log == [] then 0 else (if log[0].FundReq? then 1 else 0) + Fundings(log[1..])
  }

  lemma {:induction false} CountAppend(a: seq<FunderReq>, b: seq<FunderReq>)
    ensures Registers(a + b) == Registers(a) + Registers(b) && Fundings(a + b) == Fundings(a) + Fundings(b)
  {
    if a == [] {
      assert a + b == b;
    } else {
      CountAppend(a[1..], b);
      assert (a + b)[0] == a[0] && (a + b)[1..] == a[1..] + b;
    }
  }

  lemma OneEach(r: FunderReq)
    ensures Registers([r]) == (if r.RegisterReq? then 1 else 0) && Fundings([r]) == (if r.FundReq? then 1 else 0)
  {
    assert [r][1..] == [];
  }

  lemma CountStep(h: Hashes, inner: Inner, ev: Event)
    requires Inv(h, inner) || inner.TemporaryInvalidState?
    ensures Registers(Asked(h, inner, ev)) == (if inner.ActiveCh? && ev.ForceCloseEvent? then 1 else 0)
    ensures Fundings(Asked(h, inner, ev)) == (if Rank(inner) < 2 <= Rank(Step(h, inner, ev)) then 1 else 0)
    ensures forall r :: r in Asked(h, inner, ev) ==> !r.WithdrawReq?
  {
    AskedExactly(h, inner, ev);
    StepSound(h, inner, ev);
    SignedOnlyNext(h, inner, ev);
    if Asked(h, inner, ev) != [] {
      OneEach(Asked(h, inner, ev)[0]);
      assert Asked(h, inner, ev) == [Asked(h, inner, ev)[0]];
    }
  }

  /** The step out of the opening leads from an agreed-upon channel to a signed one. */
  lemma SignedOnlyNext(h: Hashes, inner: Inner, ev: Event)
    requires Inv(h, inner) || inner.TemporaryInvalidState?
    ensures Rank(inner) < 2 <= Rank(Step(h, inner, ev)) <==> inner.AgreedCh? && Step(h, inner, ev).SignedCh?
  {
    match ev
    case PeerEvent(msg) =>
      if !inner.TemporaryInvalidState? && !PeerPanics(inner, msg) {
        match (inner, msg) {
          case (ProposedCh(p), ProposalAccepted(acc)) => assert Rank(OnProposalAccepted(h, p, acc).inner) < 2;
          case (AgreedCh(a), ChannelUpdateAccepted(c, v, sig)) =>
            assert OnInitialAcceptance(a, c, v, sig).inner.AgreedCh? || OnInitialAcceptance(a, c, v, sig).inner.SignedCh?;
          case (_, _) =>
        }
      }
    case _ =>
  }

  /** Over a whole run: funding is asked for once, when the channel is signed; nothing is
      ever withdrawn; and at most one transaction is registered. */
  lemma {:induction false} FunderLogCounts(h: Hashes, inner: Inner, evs: seq<Event>)
    requires Inv(h, inner)
    ensures var log, end := FunderLog(h, inner, evs), Run(h, inner, evs);
            && Fundings(log) == (if Rank(inner) < 2 <= Rank(end) then 1 else 0)
            && Registers(log) <= (if Rank(inner) < 4 <= Rank(end) then 1 else 0)
            && forall r :: r in log ==> !r.WithdrawReq?
    decreases |evs|
  {
    if evs != [] {
      var n := |evs| - 1;
      var before := Run(h, inner, evs[..n]);
      RunKeepsInv(h, inner, evs[..n]);
      LifecycleForward(h, inner, evs[..n]);
      assert evs[..n] + [evs[n]] == evs;
      RunAppend(h, inner, evs[..n], evs[n]);
      FunderLogCounts(h, inner, evs[..n]);
      CountStep(h, before, evs[n]);
      StepSound(h, before, evs[n]);
      CountAppend(FunderLog(h, inner, evs[..n]), Asked(h, before, evs[n]));
      assert before.ActiveCh? && evs[n].ForceCloseEvent? ==> Rank(Run(h, inner, evs)) == 4;
    }
  }

  /** Call `k` of the run force closes the channel and registers `r`: the transaction
      that was current then. */
  predicate ForcedWith(h: Hashes, inner: Inner, evs: seq<Event>, k: nat, r: FunderReq)
    requires k < |evs|
  {
    var now := Run(h, inner, evs[..k]);
    evs[k].ForceCloseEvent? && now.ActiveCh? && r == RegistrationOf(now.ch)
  }

  function RegistrationOf(ch: Active): FunderReq {
    RegisterReq(AdjudicatorReq(ch.params, ch.receiver, ch.state, ch.sigs, ch.partIdx, false))
  }

  ghost predicate ForcedBy(h: Hashes, inner: Inner, evs: seq<Event>, r: FunderReq) {
    exists k: nat :: k < |evs| && ForcedWith(h, inner, evs, k, r)
  }

  /** What is registered in a run is exactly what some force close in it registers. */
  lemma {:induction false} RegisteredExactly(h: Hashes, inner: Inner, evs: seq<Event>, r: FunderReq)
    requires Inv(h, inner) && r.RegisterReq?
    ensures r in FunderLog(h, inner, evs) <==> ForcedBy(h, inner, evs, r)
    decreases |evs|
  {
    if evs != [] {
      var front := evs[..|evs| - 1];
      RegisteredExactly(h, inner, front, r);
      LastRegisters(h, inner, evs, r);
      ForcedLater(h, inner, evs, r);
    }
  }

  lemma {:induction false} LastRegisters(h: Hashes, inner: Inner, evs: seq<Event>, r: FunderReq)
    requires Inv(h, inner) && r.RegisterReq? && evs != []
    ensures var n := |evs| - 1;
            r in Asked(h, Run(h, inner, evs[..n]), evs[n]) <==> ForcedWith(h, inner, evs, n, r)
  {
    var n := |evs| - 1;
    RunKeepsInv(h, inner, evs[..n]);
    AskedExactly(h, Run(h, inner, evs[..n]), evs[n]);
  }

  lemma {:induction false} ForcedLater(h: Hashes, inner: Inner, evs: seq<Event>, r: FunderReq)
    requires evs != []
    ensures var n := |evs| - 1;
            ForcedBy(h, inner, evs, r) <==> ForcedBy(h, inner, evs[..n], r) || ForcedWith(h, inner, evs, n, r)
  {
    var front := evs[..|evs| - 1];
    assert forall k: nat :: k < |front| ==> front[..k] == evs[..k] && front[k] == evs[k];
    if ForcedBy(h, inner, evs, r) && !ForcedWith(h, inner, evs, |front|, r) {
      var k: nat :| k < |evs| && ForcedWith(h, inner, evs, k, r);
      assert ForcedWith(h, inner, front, k, r);
    }
    if ForcedBy(h, inner, front, r) {
      var k: nat :| k < |front| && ForcedWith(h, inner, front, k, r);
      assert ForcedWith(h, inner, evs, k, r);
    }
  }
}
