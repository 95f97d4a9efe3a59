/** The objects of the opening phases: a proposal whose responses are filled in and
    an agreed-upon channel whose signatures are filled in. Each method is tied to
    the function on values that the invariants are proved about. */
module OpeningObjects {
  import opened Bytes
  import opened Wrappers
  import opened Payment
  import opened Channel
  import opened ChannelObjects
  import opened Opening

  class ProposedChannel {
    const h: Hashes
    const bus: Bus
    const partIdx: PartIdx
    const signer: Addr
    const receiver: Addr
    const proposal: Proposal
    /** One slot for every participant but the proposer. */
    const responses: array<Option<ProposalAcc>>

    ghost predicate Valid() { responses.Length == 1 }

    ghost function View(): Proposed
      requires Valid()
      reads responses
    {
      Proposed(partIdx, signer, receiver, proposal, responses[0])
    }

    constructor (h: Hashes, bus: Bus, partIdx: PartIdx, signer: Addr, receiver: Addr, proposal: Proposal)
      ensures Valid() && fresh(responses) && this.h == h && this.bus == bus
      ensures View() == Proposed(partIdx, signer, receiver, proposal, None)
    {
      this.h, this.bus, this.partIdx, this.signer, this.receiver := h, bus, partIdx, signer, receiver;
      this.proposal := proposal;
      responses := new Option<ProposalAcc>[1](_ => None);
    }

    /** The proposer itself cannot accept: the original leaves the array there. An
        earlier answer is overwritten. */
    method Accept(nonceShare: Hash, address: Addr)
      requires Valid() && partIdx >= 1
      modifies responses, bus`toPeers
      ensures View() == old(View()).(response := Some(ProposalAcc(proposal.proposalId, nonceShare, address)))
      ensures bus.toPeers == old(bus.toPeers) + [ProposalAccepted(View().response.value)]
    {
      var acc := ProposalAcc(proposal.proposalId, nonceShare, address);
      responses[partIdx - 1] := Some(acc);
      bus.toPeers := bus.toPeers + [ProposalAccepted(acc)];
    }

    method ParticipantAccepted(idx: PartIdx, acc: ProposalAcc) returns (e: Option<OpeningError>)
      requires Valid() && idx >= 1
      modifies responses
      ensures match ProposalAcceptedBy(old(View()), acc)
              case Ok(p) => e.None? && View() == p
              case Err(err) => e == Some(err) && View() == old(View())
    {
      if acc.proposalId != proposal.proposalId {
        return Some(InvalidProposalID);
      }
      var index := idx - 1;
      if responses[index].Some? {
        return Some(AlreadyAcceptedProposal);
      }
      responses[index] := Some(acc);
      return None;
    }

    /** Goes through the responses, collecting the participants and hashing the
        nonce shares in order. */
    method Build() returns (r: Result<AgreedUponChannel, OpeningError>)
      requires Valid()
      ensures match BuildAgreed(h, View())
              case Ok(a) => r.Ok? && fresh(r.value) && fresh(r.value.signatures) && r.value.Valid() && r.value.View() == a
                            && r.value.bus == bus
              case Err(e) => r == Err(e)
    {
      var participants := [proposal.participant, Fill(0, 20)];
      var hasher := [proposal.nonceShare];
      for index := 0 to responses.Length
        invariant |participants| == 2 && participants[0] == proposal.participant
        invariant |hasher| == index + 1 && hasher[0] == proposal.nonceShare
        invariant forall k :: 0 <= k < index ==>
          (responses[k].Some? && participants[k + 1] == responses[k].value.participant
           && hasher[k + 1] == responses[k].value.nonceShare)
      {
        if responses[index].None? {
          return Err(MissingAccResponse(index + 1));
        }
        participants := participants[index + 1 := responses[index].value.participant];
        hasher := hasher + [responses[index].value.nonceShare];
      }
      var nonce := h.nonce(hasher[0], hasher[1]);
      assert participants == [proposal.participant, responses[0].value.participant];
      var params: ChParams := Params(proposal.challengeDuration, nonce, participants, Fill(0, 20), true, false);
      var initState := InitialState(h, params, proposal.asset, proposal.initBals);
      var a := new AgreedUponChannel(bus, proposal.fundingAgreement, partIdx, signer, receiver, initState, params);
      r := Ok(a);
    }
  }

  class AgreedUponChannel {
    const bus: Bus
    const partIdx: PartIdx
    const signer: Addr
    const receiver: Addr
    const agreement: Balances
    const initState: ChState
    const params: ChParams
    const signatures: array<Option<Signature>>

    ghost predicate Valid() { signatures.Length == 2 }

    ghost function View(): Agreed
      requires Valid()
      reads signatures
    {
      AgreedUpon(partIdx, signer, receiver, agreement, initState, params, signatures[..])
    }

    constructor (bus: Bus, agreement: Balances, partIdx: PartIdx, signer: Addr, receiver: Addr, initState: ChState, params: ChParams)
      ensures Valid() && fresh(signatures) && this.bus == bus
      ensures View() == AgreedUpon(partIdx, signer, receiver, agreement, initState, params, [None, None])
    {
      this.bus, this.partIdx, this.signer, this.receiver := bus, partIdx, signer, receiver;
      this.agreement, this.initState, this.params := agreement, initState, params;
      signatures := new Option<Signature>[2](_ => None);
      new;
      assert signatures[..] == [None, None];
    }

    method Sign() returns (e: Option<OpeningError>)
      requires Valid()
      modifies signatures, bus`toPeers
      ensures match SignInitial(old(View()))
              case Ok(a) => e.None? && View() == a && bus.toPeers == old(bus.toPeers) + [InitialAcceptance(a)]
              case Err(err) => e == Some(err) && View() == old(View()) && bus.toPeers == old(bus.toPeers)
    {
      if signatures[partIdx].Some? {
        return Some(SigError(AlreadySigned));
      }
      var sig := Signature(signer, StateDigest(initState));
      signatures[partIdx] := Some(sig);
      bus.toPeers := bus.toPeers + [ChannelUpdateAccepted(initState.id, initState.version, sig)];
      return None;
    }

    method FindParticipant(who: Addr) returns (slot: Option<PartIdx>)
      ensures slot == SlotOf(params, who)
    {
      for k := 0 to 2
        invariant forall j :: 0 <= j < k ==> params.participants[j] != who
      {
        if params.participants[k] == who {
          return Some(k);
        }
      }
      return None;
    }

    method AddSignature(channel: Hash, version: u64, sig: Signature) returns (e: Option<OpeningError>)
      requires Valid()
      modifies signatures
      ensures match Opening.AddSignature(old(View()), channel, version, sig)
              case Ok(a) => e.None? && View() == a
              case Err(err) => e == Some(err) && View() == old(View())
    {
      if channel != initState.id {
        return Some(SigError(MismatchedChannelID));
      }
      if version != 0 {
        return Some(SigError(MismatchedVersion));
      }
      var who := Recover(StateDigest(initState), sig);
      if who.None? {
        return Some(SigError(RecoveryFailed));
      }
      var slot := FindParticipant(who.value);
      if slot.None? {
        return Some(SigError(InvalidSignature(who.value)));
      }
      if signatures[slot.value].Some? {
        return Some(SigError(AlreadySigned));
      }
      signatures[slot.value] := Some(sig);
      return None;
    }

    method Build() returns (r: Result<ActiveChannel, OpeningError>)
      requires Valid()
      modifies bus`toWatcher, bus`toFunder
      ensures match BuildSigned(View())
              case Ok(ch) => r.Ok? && fresh(r.value) && r.value.View() == ch && r.value.bus == bus
                             && bus.toWatcher == old(bus.toWatcher) + [CurrentWatchReq(ch)]
                             && bus.toFunder == old(bus.toFunder) + [FundingRequest(View())]
              case Err(e) => r == Err(e) && bus.toWatcher == old(bus.toWatcher) && bus.toFunder == old(bus.toFunder)
    {
      var sigs := CollectSlots(signatures[..]);
      if sigs.Err? {
        return Err(MissingSignatureResponse(sigs.error.idx));
      }
      bus.toWatcher := bus.toWatcher + [WatchReq(params, initState, sigs.value)];
      bus.toFunder := bus.toFunder + [FundReq(partIdx, agreement, params, initState)];
      var ch := new ActiveChannel(bus, partIdx, signer, receiver, params, initState, sigs.value);
      r := Ok(ch);
    }
  }
}
