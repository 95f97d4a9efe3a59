/** The demo's channel object on top of the library's objects. Its `inner` phase owns
    one of them; it is moved out before a transition and written back after it. */
module DemoObjects {
  import opened Wrappers
  import opened Payment
  import opened Channel
  import opened ChannelObjects
  import opened Opening
  import opened OpeningObjects
  import opened Demo

  /** A phase with the object it owns. */
  datatype Phase =
    | ProposedPhase(proposed: ProposedChannel)
    | AgreedPhase(agreed: AgreedUponChannel)
    | SignedPhase(ch: ActiveChannel, watching: bool, funded: bool)
    | ActivePhase(ch: ActiveChannel, pending: Option<ChannelUpdate>)
    | TemporaryPhase
    | ClosingPhase(ch: ActiveChannel)
    | ForceClosingPhase
    | ClosedPhase

  ghost function Owns(phase: Phase): set<object> {
    match phase
    case ProposedPhase(p) => {p, p.responses}
    case AgreedPhase(a) => {a, a.signatures}
    case SignedPhase(ch, _, _) => {ch}
    case ActivePhase(ch, None) => {ch}
    case ActivePhase(ch, Some(u)) => {ch, u, u.signatures}
    case ClosingPhase(ch) => {ch}
    case _ => {}
  }

  /** The owned object is well-formed and talks on this bus. */
  ghost predicate WellFormed(phase: Phase, h: Hashes, bus: Bus) {
    match phase
    case ProposedPhase(p) => p.Valid() && p.h == h && p.bus == bus
    case AgreedPhase(a) => a.Valid() && a.bus == bus
    case SignedPhase(ch, _, _) => ch.bus == bus
    case ActivePhase(ch, None) => ch.bus == bus
    case ActivePhase(ch, Some(u)) => ch.bus == bus && u.Valid()
    case ClosingPhase(ch) => ch.bus == bus
    case _ => true
  }

  ghost function ViewOf(phase: Phase, h: Hashes, bus: Bus): Inner
    requires WellFormed(phase, h, bus)
    reads Owns(phase)
  {
    match phase
    case ProposedPhase(p) => ProposedCh(p.View())
    case AgreedPhase(a) => AgreedCh(a.View())
    case SignedPhase(ch, w, f) => SignedCh(ch.View(), w, f)
    case ActivePhase(ch, None) => ActiveCh(ch.View(), None)
    case ActivePhase(ch, Some(u)) => ActiveCh(ch.View(), Some(u.View()))
    case TemporaryPhase => TemporaryInvalidState
    case ClosingPhase(ch) => Closing(ch.View())
    case ForceClosingPhase => ForceClosing
    case ClosedPhase => Closed
  }

  function Then<T>(log: seq<T>, sent: seq<T>): (r: seq<T>)
    ensures sent == [] ==> r == log
  {
    log + sent
  }

  class DemoChannel {
    const h: Hashes
    const bus: Bus
    var inner: Phase

    constructor (h: Hashes, bus: Bus, proposed: ProposedChannel)
      requires WellFormed(ProposedPhase(proposed), h, bus)
      ensures this.h == h && this.bus == bus && inner == ProposedPhase(proposed)
    {
      this.h, this.bus, this.inner := h, bus, ProposedPhase(proposed);
    }

    constructor NewAgreedUpon(h: Hashes, bus: Bus, agreed: AgreedUponChannel)
      requires WellFormed(AgreedPhase(agreed), h, bus)
      ensures this.h == h && this.bus == bus && inner == AgreedPhase(agreed)
    {
      this.h, this.bus, this.inner := h, bus, AgreedPhase(agreed);
    }

    ghost predicate Owned()
      reads this
    {
      WellFormed(inner, h, bus)
    }

    ghost function View(): Inner
      requires Owned()
      reads this, Owns(inner)
    {
      ViewOf(inner, h, bus)
    }

    /** Between calls the phase is never the temporary one. */
    ghost predicate Valid()
      reads this, Owns(inner)
    {
      Owned() && Inv(h, View())
    }

    /** Exactly `e` has happened since. */
    twostate predicate Did(new e: Effect)
      requires Owned()
      reads this, Owns(inner), bus
    {
      && View() == e.inner
      && bus.toPeers == Then(old(bus.toPeers), e.peers)
      && bus.toWatcher == Then(old(bus.toWatcher), e.watcher)
      && bus.toFunder == Then(old(bus.toFunder), e.funder)
    }

    /** A call either succeeds, or changes and sends nothing; the phase only moves
        forward. */
    twostate predicate Atomic(new error: Option<DemoError>)
      requires Owned() && old(Owned())
      reads this, Owns(inner), bus
    {
      && Rank(old(View())) <= Rank(View())
      && (error.Some? ==> View() == old(View()) && bus.toPeers == old(bus.toPeers)
                          && bus.toWatcher == old(bus.toWatcher) && bus.toFunder == old(bus.toFunder))
    }

    twostate lemma Conclude(new e: Effect)
      requires Owned() && old(Owned()) && Did(e) && Sound(h, old(View()), e)
      ensures Valid() && Atomic(e.error)
    {
    }

    method IsClosed() returns (r: bool)
      requires Owned()
      ensures r <==> View() == Closed
    {
      r := inner.ClosedPhase?;
    }

    // ----- Commands -----

    /** Works on the phase in place, without moving it out. */
    method Update(amount: U256, isFinal: bool) returns (error: Option<DemoError>)
      requires Valid() && Enabled(View(), UpdateEvent(amount, isFinal))
      modifies this, bus`toPeers
      ensures Valid() && fresh(Owns(inner) - old(Owns(inner)))
      ensures Did(OnUpdate(old(View()), amount, isFinal)) && Atomic(error)
      ensures error == OnUpdate(old(View()), amount, isFinal).error
    {
      UpdateSound(h, View(), amount, isFinal);
      if inner.ActivePhase? {
        error := ProposePayment(inner.ch, amount, isFinal);
      } else {
        error := Some(InvalidState);
      }
      Conclude(OnUpdate(old(View()), amount, isFinal));
    }

    method ProposePayment(ch: ActiveChannel, amount: U256, isFinal: bool) returns (error: Option<DemoError>)
      requires Owned() && inner.ActivePhase? && inner.ch == ch
      requires CanCompute(ch.state, ch.partIdx, amount, isFinal)
      modifies this, bus`toPeers
      ensures Owned() && fresh(Owns(inner) - old(Owns(inner)))
      ensures Did(OnUpdate(old(View()), amount, isFinal)) && error == OnUpdate(old(View()), amount, isFinal).error
    {
      if Balance(ch.state, 1) < amount {
        return Some(NotEnoughFunds);
      }
      var newState := Paid(ch.state, ch.partIdx, amount, isFinal);
      var r := ch.Update(newState);
      if r.Err? {
        return Some(ChannelFailed(r.error));
      }
      inner := ActivePhase(ch, Some(r.value));
      return None;
    }

    method ForceClose() returns (error: Option<DemoError>)
      requires Valid()
      modifies this, bus`toFunder
      ensures Valid() && Owns(inner) <= old(Owns(inner))
      ensures Did(OnForceClose(old(View()))) && Atomic(error)
      ensures error == OnForceClose(old(View())).error
    {
      ReplySound(h, View(), Ack);
      var was := inner;
      inner := TemporaryPhase;
      if was.ActivePhase? {
        was.ch.ForceClose();
        inner, error := ForceClosingPhase, None;
      } else {
        inner, error := was, Some(InvalidState);
      }
      Conclude(OnForceClose(old(View())));
    }

    // ----- Replies -----

    method ProcessWatcherReply(reply: WatcherReply) returns (error: Option<DemoError>)
      requires Valid()
      modifies this
      ensures Valid() && Owns(inner) <= old(Owns(inner))
      ensures Did(OnWatcher(old(View()), reply)) && Atomic(error)
      ensures error == OnWatcher(old(View()), reply).error
    {
      ReplySound(h, View(), reply);
      error := WatcherTransition(reply);
      Conclude(OnWatcher(old(View()), reply));
    }

    method WatcherTransition(reply: WatcherReply) returns (error: Option<DemoError>)
      requires Owned()
      modifies this
      ensures Owned() && Owns(inner) <= old(Owns(inner))
      ensures Did(OnWatcher(old(View()), reply)) && error == OnWatcher(old(View()), reply).error
    {
      var was := inner;
      inner := TemporaryPhase;
      error := None;
      match (was, reply)
      case (SignedPhase(ch, _, funded), Ack) =>
        inner := if funded then ActivePhase(ch, None) else SignedPhase(ch, true, funded);
      case (ActivePhase(_, _), Ack) => inner := was;
      case (ActivePhase(_, _), DisputeNotification) => inner := ClosedPhase;
      case (ClosingPhase(_), Ack) => inner := ClosedPhase;
      case (ClosingPhase(_), DisputeNotification) => inner := ClosedPhase;
      case (ForceClosingPhase, DisputeAck) => inner := ClosedPhase;
      case (ForceClosingPhase, DisputeNotification) => inner := was;
      case (ClosedPhase, DisputeNotification) => inner := was;
      case (ForceClosingPhase, _) => inner, error := was, Some(ClosedError);
      case (_, _) => inner, error := was, Some(InvalidState);
    }

    method ProcessFunderReply() returns (error: Option<DemoError>)
      requires Valid()
      modifies this
      ensures Valid() && Owns(inner) <= old(Owns(inner))
      ensures Did(OnFunded(old(View()))) && Atomic(error)
      ensures error == OnFunded(old(View())).error
    {
      ReplySound(h, View(), Ack);
      error := FunderTransition();
      Conclude(OnFunded(old(View())));
    }

    method FunderTransition() returns (error: Option<DemoError>)
      requires Owned()
      modifies this
      ensures Owned() && Owns(inner) <= old(Owns(inner))
      ensures Did(OnFunded(old(View()))) && error == OnFunded(old(View())).error
    {
      var was := inner;
      inner := TemporaryPhase;
      error := None;
      match was
      case SignedPhase(ch, watching, _) =>
        inner := if watching then ActivePhase(ch, None) else SignedPhase(ch, watching, true);
      case ClosingPhase(_) => inner, error := was, Some(ClosedError);
      case ForceClosingPhase => inner, error := was, Some(ClosedError);
      case ClosedPhase => inner, error := was, Some(ClosedError);
      case _ => inner, error := was, Some(InvalidState);
    }

    // ----- Messages of the peer -----

    method ProcessParticipantMsg(msg: ParticipantMsg) returns (error: Option<DemoError>)
      requires Valid() && Enabled(View(), PeerEvent(msg))
      modifies this, Owns(inner), bus
      ensures Valid() && fresh(Owns(inner) - old(Owns(inner)))
      ensures Did(OnPeer(h, old(View()), msg)) && Atomic(error)
      ensures error == OnPeer(h, old(View()), msg).error
    {
      PeerSound(h, View(), msg);
      error := PeerTransition(msg);
      Conclude(OnPeer(h, old(View()), msg));
    }

    method PeerTransition(msg: ParticipantMsg) returns (error: Option<DemoError>)
      requires Owned() && !PeerPanics(View(), msg)
      modifies this, Owns(inner), bus
      ensures Owned() && fresh(Owns(inner) - old(Owns(inner)))
      ensures Did(OnPeer(h, old(View()), msg)) && error == OnPeer(h, old(View()), msg).error
    {
      var was := inner;
      inner := TemporaryPhase;
      if was.ProposedPhase? && msg.ProposalAccepted? {
        error := OpenProposal(was.proposed, msg);
      } else if was.AgreedPhase? && msg.ChannelUpdateAccepted? {
        error := CompleteSignatures(was.agreed, msg);
      } else if was.ActivePhase? && was.pending.None? && msg.ChannelUpdateMsg? {
        error := AnswerUpdate(was.ch, msg);
      } else if was.ActivePhase? && was.pending.Some? && msg.ChannelUpdateAccepted? {
        error := CompleteUpdate(was.ch, was.pending.value, msg);
      } else {
        error := OtherMessage(was, msg);
      }
    }

    /** Rejections, and whatever does not belong to the phase. */
    method OtherMessage(was: Phase, msg: ParticipantMsg) returns (error: Option<DemoError>)
      requires WellFormed(was, h, bus) && !PeerPanics(ViewOf(was, h, bus), msg)
      requires !(was.ProposedPhase? && msg.ProposalAccepted?) && !(was.AgreedPhase? && msg.ChannelUpdateAccepted?)
      requires was.ActivePhase? ==> !(if was.pending.None? then msg.ChannelUpdateMsg? else msg.ChannelUpdateAccepted?)
      modifies this
      ensures Owned() && Owns(inner) <= Owns(was)
      ensures Did(OnPeer(h, old(ViewOf(was, h, bus)), msg)) && error == OnPeer(h, old(ViewOf(was, h, bus)), msg).error
    {
      inner := was;
      match was
      case ProposedPhase(_) => error := Some(if msg.ProposalRejected? then Rejected else InvalidState);
      case AgreedPhase(_) => error := Some(if msg.ChannelUpdateRejected? then Rejected else InvalidState);
      case ActivePhase(ch, pending) =>
        if pending.Some? && msg.ChannelUpdateRejected? {
          inner, error := ActivePhase(ch, None), None;
        } else {
          error := Some(InvalidState);
        }
      case ClosingPhase(_) => error := Some(ClosedError);
      case ForceClosingPhase => error := Some(ClosedError);
      case ClosedPhase => error := Some(ClosedError);
      case _ => error := Some(InvalidState);
    }

    method OpenProposal(p: ProposedChannel, msg: ParticipantMsg) returns (error: Option<DemoError>)
      requires WellFormed(ProposedPhase(p), h, bus) && msg.ProposalAccepted?
      modifies this, p.responses, bus`toPeers
      ensures Owned() && fresh(Owns(inner) - {p, p.responses})
      ensures Did(OnPeer(h, ProposedCh(old(p.View())), msg)) && error == OnPeer(h, ProposedCh(old(p.View())), msg).error
    {
      var refused := p.ParticipantAccepted(1, msg.acc);
      if refused.Some? {
        inner := ProposedPhase(p);
        return Some(OpeningFailed(refused.value));
      }
      var built := p.Build();
      assert built.Ok?;  // the only answer is there
      var a := built.value;
      var failed := a.Sign();
      inner := AgreedPhase(a);
      return None;
    }

    method CompleteSignatures(a: AgreedUponChannel, msg: ParticipantMsg) returns (error: Option<DemoError>)
      requires WellFormed(AgreedPhase(a), h, bus) && msg.ChannelUpdateAccepted?
      modifies this, a.signatures, bus`toWatcher, bus`toFunder
      ensures Owned() && fresh(Owns(inner) - {a, a.signatures})
      ensures Did(OnPeer(h, AgreedCh(old(a.View())), msg)) && error == OnPeer(h, AgreedCh(old(a.View())), msg).error
    {
      var refused := a.AddSignature(msg.channel, msg.version, msg.sig);
      if refused.Some? {
        inner := AgreedPhase(a);
        return Some(OpeningFailed(refused.value));
      }
      var built := a.Build();
      if built.Err? {
        inner := AgreedPhase(a);
        return Some(OpeningFailed(built.error));
      }
      inner := SignedPhase(built.value, false, false);
      return None;
    }

    method AnswerUpdate(ch: ActiveChannel, msg: ParticipantMsg) returns (error: Option<DemoError>)
      requires ch.bus == bus && msg.ChannelUpdateMsg? && !PeerPanics(ActiveCh(ch.View(), None), msg)
      modifies this, ch, bus`toPeers, bus`toWatcher
      ensures Owned() && Owns(inner) == {ch}
      ensures Did(OnPeer(h, ActiveCh(old(ch.View()), None), msg))
      ensures error == OnPeer(h, ActiveCh(old(ch.View()), None), msg).error
    {
      var handled := ch.HandleUpdate(msg.state, msg.actorIdx, msg.sig);
      if handled.Err? {
        inner := ActivePhase(ch, None);
        return Some(ChannelFailed(handled.error));
      }
      var update := handled.value;
      var refused := update.Accept(ch);
      if refused.Some? {
        inner := ActivePhase(ch, None);
        return Some(ChannelFailed(refused.value));
      }
      var failed := update.Apply(ch);
      assert failed.None?;  // both signatures are there
      inner := if update.newState.isFinal then ClosingPhase(ch) else ActivePhase(ch, None);
      return None;
    }

    method CompleteUpdate(ch: ActiveChannel, u: ChannelUpdate, msg: ParticipantMsg) returns (error: Option<DemoError>)
      requires WellFormed(ActivePhase(ch, Some(u)), h, bus) && msg.ChannelUpdateAccepted?
      modifies this, ch, u.signatures, bus`toWatcher
      ensures Owned() && Owns(inner) <= {ch, u, u.signatures}
      ensures Did(OnPeer(h, ActiveCh(old(ch.View()), Some(old(u.View()))), msg))
      ensures error == OnPeer(h, ActiveCh(old(ch.View()), Some(old(u.View()))), msg).error
    {
      var refused := u.ParticipantAccepted(ch, 1 - ch.partIdx, msg.channel, msg.version, msg.sig);
      if refused.Some? {
        inner := ActivePhase(ch, Some(u));
        return Some(ChannelFailed(refused.value));
      }
      assert Channel.ParticipantAccepted(old(u.View()), ch.View(), 1 - ch.partIdx, msg.channel, msg.version, msg.sig) == Ok(u.View());
      error := ApplyPending(ch, u);
    }

    method ApplyPending(ch: ActiveChannel, u: ChannelUpdate) returns (error: Option<DemoError>)
      requires WellFormed(ActivePhase(ch, Some(u)), h, bus)
      modifies this, ch, bus`toWatcher
      ensures Owned() && Owns(inner) <= {ch, u, u.signatures} && u.View() == old(u.View())
      ensures match Apply(old(u.View()), old(ch.View()))
              case Ok(next) => error.None? && Did(Effect(Installed(next), None, [], [CurrentWatchReq(next)], []))
              case Err(e) => error == Some(ChannelFailed(e)) && Did(Goto(ActiveCh(old(ch.View()), Some(u.View()))))
    {
      var failed := u.Apply(ch);
      if failed.Some? {
        inner := ActivePhase(ch, Some(u));
        return Some(ChannelFailed(failed.value));
      }
      inner := if u.newState.isFinal then ClosingPhase(ch) else ActivePhase(ch, None);
      return None;
    }
  }
}
