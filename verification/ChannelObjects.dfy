/** The channel objects as the library has them: an active channel whose state is
    overwritten, pending updates whose signature slots fill up, and the message
    bus. Each method is tied to the function of the same name on values. */
module ChannelObjects {
  import opened Bytes
  import opened Wrappers
  import opened Payment
  import opened Channel

  class Bus {
    var toPeers: seq<ParticipantMsg>
    var toWatcher: seq<WatchReq>
    var toFunder: seq<FunderReq>

    constructor ()
      ensures toPeers == [] && toWatcher == [] && toFunder == []
    {
      toPeers, toWatcher, toFunder := [], [], [];
    }
  }

  /** `Allocation::total_assets` */
  method TotalAssets(o: Allocation) returns (totals: seq<U256>)
    requires NoOverflow(o)
    ensures totals == Totals(o)
  {
    totals := [];
    for a := 0 to |o.balances|
      invariant |totals| == a && forall k :: 0 <= k < a ==> totals[k] == Sum(o.balances[k])
    {
      var bals := o.balances[a];
      var total: U256 := 0;
      for p := 0 to |bals|
        invariant total == Sum(bals[..p])
      {
        assert bals[..p + 1][..p] == bals[..p];
        PartialSum(bals, p + 1);
        total := total + bals[p];
      }
      assert bals[..|bals|] == bals;
      totals := totals + [total];
    }
  }

  lemma {:induction false} PartialSum(amounts: seq<U256>, k: nat)
    requires k <= |amounts|
    ensures Sum(amounts[..k]) <= Sum(amounts)
    decreases |amounts| - k
  {
    if k == |amounts| {
      assert amounts[..k] == amounts;
    } else {
      PartialSum(amounts, k + 1);
      assert amounts[..k + 1][..k] == amounts[..k];
    }
  }

  class ActiveChannel {
    const bus: Bus
    const partIdx: PartIdx
    const signer: Addr
    const receiver: Addr
    const params: ChParams
    var state: ChState
    var signatures: seq<Signature>

    constructor (bus: Bus, partIdx: PartIdx, signer: Addr, receiver: Addr, params: ChParams,
                 initState: ChState, signatures: seq<Signature>)
      ensures this.bus == bus && View() == Active(partIdx, signer, receiver, params, initState, signatures)
    {
      this.bus, this.partIdx, this.signer, this.receiver, this.params := bus, partIdx, signer, receiver, params;
      this.state, this.signatures := initState, signatures;
    }

    ghost function View(): Active
      reads this
    {
      Active(partIdx, signer, receiver, params, state, signatures)
    }

    method CheckValidTransition(newState: ChState) returns (e: Option<InvalidUpdate>)
      requires !TransitionPanics(state, newState)
      ensures e == CheckTransition(state, newState)
    {
      if newState.id != state.id {
        return Some(InvalidChannelID);
      } else if state.isFinal {
        return Some(CurrentStateIsFinal);
      } else if newState.version != state.version + 1 {
        return Some(InvalidVersionNumber);
      } else if newState.outcome.assets != state.outcome.assets {
        return Some(AssetsMismatch);
      }
      var newTotals := TotalAssets(newState.outcome);
      var totals := TotalAssets(state.outcome);
      return if newTotals != totals then Some(TotalAllocationAmountMismatch) else None;
    }

    method Update(newState: ChState) returns (r: Result<ChannelUpdate, ChannelError>)
      requires !TransitionPanics(state, newState)
      modifies bus`toPeers
      ensures match Propose(View(), newState)
              case Ok(u) => r.Ok? && fresh(r.value) && fresh(r.value.signatures) && r.value.Valid() && r.value.View() == u
                            && bus.toPeers == old(bus.toPeers) + [ProposalMsg(View(), newState)]
              case Err(e) => r == Err(e) && bus.toPeers == old(bus.toPeers)
    {
      var invalid := CheckValidTransition(newState);
      if invalid.Some? {
        return Err(InvalidUpdateError(invalid.value));
      }
      var sig := Signature(signer, StateDigest(newState));
      bus.toPeers := bus.toPeers + [ChannelUpdateMsg(newState, partIdx, sig)];
      var u := new ChannelUpdate(this, newState, partIdx, sig);
      r := Ok(u);
    }

    method HandleUpdate(newState: ChState, actorIdx: nat, sig: Signature) returns (r: Result<ChannelUpdate, ChannelError>)
      requires !HandlePanics(View(), newState, actorIdx, sig)
      ensures match Channel.HandleUpdate(View(), newState, actorIdx, sig)
              case Ok(u) => r.Ok? && fresh(r.value) && fresh(r.value.signatures) && r.value.Valid() && r.value.View() == u
              case Err(e) => r == Err(e)
    {
      var invalid := CheckValidTransition(newState);
      if invalid.Some? {
        return Err(InvalidUpdateError(invalid.value));
      }
      var who := Recover(StateDigest(newState), sig);
      if who.None? {
        return Err(RecoveryFailed);
      }
      if params.participants[actorIdx] != who.value {
        return Err(InvalidSignature(who.value));
      }
      var u := new ChannelUpdate(this, newState, actorIdx, sig);
      r := Ok(u);
    }

    method ForceUpdate(newState: ChState, sigs: seq<Signature>)
      modifies this, bus`toWatcher
      ensures View() == old(View()).(state := newState, sigs := sigs)
      ensures bus.toWatcher == old(bus.toWatcher) + [CurrentWatchReq(View())]
    {
      state := newState;
      signatures := sigs;
      SendCurrentStateToWatcher();
    }

    method SendCurrentStateToWatcher()
      modifies bus`toWatcher
      ensures bus.toWatcher == old(bus.toWatcher) + [CurrentWatchReq(View())]
    {
      bus.toWatcher := bus.toWatcher + [WatchReq(params, state, signatures)];
    }

    /** The next state, unchanged but final. Offered with the same balances, it is
        refused only when the channel is final already. */
    method CloseNormal() returns (r: Result<ChannelUpdate, ChannelError>)
      requires state.version + 1 < U64_LIMIT && (state.isFinal || NoOverflow(state.outcome))
      modifies bus`toPeers
      ensures r.Ok? <==> !state.isFinal
      ensures r.Err? ==> r.error == InvalidUpdateError(CurrentStateIsFinal)
      ensures r.Ok? ==> fresh(r.value) && fresh(r.value.signatures) && r.value.Valid()
                        && r.value.View().newState == NextState(state).(isFinal := true)
      ensures bus.toPeers == old(bus.toPeers)
                             + if r.Ok? then [ProposalMsg(View(), NextState(state).(isFinal := true))] else []
    {
      var newState: ChState := NextState(state).(isFinal := true);
      r := Update(newState);
    }

    method ForceClose()
      modifies bus`toFunder
      ensures bus.toFunder == old(bus.toFunder) + [RegisterReq(CurrentAdjudicatorReq(View()))]
    {
      bus.toFunder := bus.toFunder + [RegisterReq(AdjudicatorReq(params, receiver, state, signatures, partIdx, false))];
    }

    method Withdraw()
      modifies bus`toFunder
      ensures bus.toFunder == old(bus.toFunder) + [WithdrawReq(CurrentAdjudicatorReq(View()))]
    {
      bus.toFunder := bus.toFunder + [WithdrawReq(AdjudicatorReq(params, receiver, state, signatures, partIdx, false))];
    }
  }

  class ChannelUpdate {
    const channelId: Hash
    const newState: ChState
    const signatures: array<Option<Signature>>

    ghost predicate Valid() {
      signatures.Length == 2
    }

    ghost function View(): Channel.Update
      requires Valid()
      reads signatures
    {
      Update(channelId, newState, signatures[..])
    }

    constructor (ch: ActiveChannel, newState: ChState, idx: PartIdx, sig: Signature)
      ensures Valid() && fresh(signatures) && View() == NewUpdate(ch.View(), newState, idx, sig)
    {
      channelId := ch.state.id;
      this.newState := newState;
      var slots := new Option<Signature>[2](_ => None);
      slots[idx] := Some(sig);
      signatures := slots;
      new;
      assert signatures[..] == [None, None][idx := Some(sig)];
    }

    method EnsureValid(ch: ActiveChannel) returns (e: Option<ChannelError>)
      requires Valid()
      ensures e == EnsureValidChannel(View(), ch.View())
    {
      if newState.version != ch.state.version + 1 {
        return Some(WrongVersion);
      } else if channelId != ch.state.id {
        return Some(WrongChannelId);
      }
      return None;
    }

    method Accept(ch: ActiveChannel) returns (e: Option<ChannelError>)
      requires Valid()
      modifies signatures, ch.bus`toPeers
      ensures match Channel.Accept(old(View()), old(ch.View()))
              case Ok(u) => e.None? && View() == u
                            && ch.bus.toPeers == old(ch.bus.toPeers) + [AcceptanceMsg(ch.View(), View())]
              case Err(err) => e == Some(err) && View() == old(View()) && ch.bus.toPeers == old(ch.bus.toPeers)
    {
      e := EnsureValid(ch);
      if e.Some? {
        return;
      }
      if signatures[ch.partIdx].Some? {
        return Some(AlreadyAccepted);
      }
      var sig := Signature(ch.signer, StateDigest(newState));
      signatures[ch.partIdx] := Some(sig);
      ch.bus.toPeers := ch.bus.toPeers + [ChannelUpdateAccepted(channelId, newState.version, sig)];
    }

    method ParticipantAccepted(ch: ActiveChannel, idx: PartIdx, channel: Hash, version: u64, sig: Signature)
      returns (e: Option<ChannelError>)
      requires Valid()
      modifies signatures
      ensures match Channel.ParticipantAccepted(old(View()), old(ch.View()), idx, channel, version, sig)
              case Ok(u) => e.None? && View() == u
              case Err(err) => e == Some(err) && View() == old(View())
    {
      e := EnsureValid(ch);
      if e.Some? {
        return;
      }
      if channel != channelId {
        return Some(MismatchedChannelID);
      }
      if version != newState.version {
        return Some(MismatchedVersion);
      }
      var who := Recover(StateDigest(newState), sig);
      if who.None? {
        return Some(RecoveryFailed);
      }
      if ch.params.participants[idx] != who.value {
        return Some(InvalidSignature(who.value));
      }
      if signatures[idx].Some? {
        return Some(AlreadySigned);
      }
      signatures[idx] := Some(sig);
    }

    method Signatures() returns (r: Result<seq<Signature>, ChannelError>)
      requires Valid()
      ensures r == Collect(View().sigs)
    {
      r := CollectSlots(signatures[..]);
    }

    method Apply(ch: ActiveChannel) returns (e: Option<ChannelError>)
      requires Valid()
      modifies ch, ch.bus`toWatcher
      ensures View() == old(View())
      ensures match Channel.Apply(old(View()), old(ch.View()))
              case Ok(next) => e.None? && ch.View() == next
                               && ch.bus.toWatcher == old(ch.bus.toWatcher) + [CurrentWatchReq(ch.View())]
              case Err(err) => e == Some(err) && ch.View() == old(ch.View()) && ch.bus.toWatcher == old(ch.bus.toWatcher)
    {
      e := EnsureValid(ch);
      if e.Some? {
        return;
      }
      var sigs := Signatures();
      if sigs.Err? {
        return Some(sigs.error);
      }
      ch.ForceUpdate(newState, sigs.value);
    }
  }

  /** The loop shared by pending updates and agreed-upon channels: all signatures,
      or the index of the first one that is missing. */
  method CollectSlots(slots: seq<Option<Signature>>) returns (r: Result<seq<Signature>, ChannelError>)
    ensures r == Collect(slots)
  {
    var sigs := [];
    for k := 0 to |slots|
      invariant Collect(slots[..k]) == Ok(sigs)
    {
      assert slots[..k + 1][..k] == slots[..k];
      if slots[k].None? {
        CollectStops(slots, k + 1);
        return Err(MissingSignature(k));
      }
      sigs := sigs + [slots[k].value];
    }
    assert slots[..|slots|] == slots;
    r := Ok(sigs);
  }

  lemma {:induction false} CollectStops(slots: seq<Option<Signature>>, k: nat)
    requires k <= |slots| && Collect(slots[..k]).Err?
    ensures Collect(slots) == Collect(slots[..k])
    decreases |slots| - k
  {
    if k == |slots| {
      assert slots[..k] == slots;
    } else {
      assert slots[..k + 1][..k] == slots[..k];
      CollectStops(slots, k + 1);
    }
  }
}
