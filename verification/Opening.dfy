/** The phases before a channel is active: a proposal collects acceptances, an
    agreed-upon channel collects signatures on the initial state. */
module Opening {
  import opened Bytes
  import opened Wrappers
  import opened Payment
  import opened Channel

  type Balances = b: seq<seq<U256>> | |b| == 1 && |b[0]| == 2 witness [[0, 0]]

  datatype Proposal = Proposal(
    proposalId: Hash, challengeDuration: u64, nonceShare: Hash, asset: Addr, initBals: Balances,
    fundingAgreement: Balances, participant: Addr)

  /** How the channel id comes from the parameters and the nonce from the shares:
      any two functions. */
  datatype Hashes = Hashes(id: ChParams -> Hash, nonce: (Hash, Hash) -> U256)

  datatype Proposed = Proposed(
    partIdx: PartIdx, signer: Addr, receiver: Addr, proposal: Proposal, response: Option<ProposalAcc>)

  datatype RawAgreed = AgreedUpon(
    partIdx: PartIdx, signer: Addr, receiver: Addr, agreement: Balances,
    initState: ChState, params: ChParams, sigs: seq<Option<Signature>>)
  type Agreed = a: RawAgreed | |a.sigs| == 2
    witness AgreedUpon(0, Fill(0, 20), Fill(0, 20), [[0, 0]],
                       State(Fill(0, 32), 0, Allocation([Fill(0, 20)], [[0, 0]]), false),
                       Params(0, 0, [Fill(0, 20), Fill(0, 20)], Fill(0, 20), false, false), [None, None])

  datatype OpeningError =
    | InvalidProposalID
    | AlreadyAcceptedProposal
    | MissingAccResponse(idx: nat)
    | MissingSignatureResponse(idx: nat)
    | SigError(error: ChannelError)

  function InitialParams(h: Hashes, p: Proposal, acc: ProposalAcc): ChParams {
    Params(p.challengeDuration, h.nonce(p.nonceShare, acc.nonceShare), [p.participant, acc.participant],
           Fill(0, 20), true, false)
  }

  /** `State::new` */
  function InitialState(h: Hashes, params: ChParams, asset: Addr, bals: Balances): ChState {
    State(h.id(params), 0, Allocation([asset], bals), false)
  }

  /** `ProposedChannel::participant_accepted` with index 1 */
  function ProposalAcceptedBy(p: Proposed, acc: ProposalAcc): Result<Proposed, OpeningError> {
    if acc.proposalId != p.proposal.proposalId then Err(InvalidProposalID)
    else if p.response.Some? then Err(AlreadyAcceptedProposal)
    else Ok(p.(response := Some(acc)))
  }

  /** `ProposedChannel::build` */
  function BuildAgreed(h: Hashes, p: Proposed): Result<Agreed, OpeningError> {
    match p.response
    case None => Err(MissingAccResponse(1))
    case Some(acc) =>
      var params := InitialParams(h, p.proposal, acc);
      Ok(AgreedUpon(p.partIdx, p.signer, p.receiver, p.proposal.fundingAgreement,
                    InitialState(h, params, p.proposal.asset, p.proposal.initBals), params, [None, None]))
  }

  function InitialSignature(a: Agreed): Signature {
    Signature(a.signer, StateDigest(a.initState))
  }

  function InitialAcceptance(a: Agreed): ParticipantMsg {
    ChannelUpdateAccepted(a.initState.id, a.initState.version, InitialSignature(a))
  }

  /** `AgreedUponChannel::sign` */
  function SignInitial(a: Agreed): Result<Agreed, OpeningError> {
    if a.sigs[a.partIdx].Some? then Err(SigError(AlreadySigned))
    else Ok(a.(sigs := a.sigs[a.partIdx := Some(InitialSignature(a))]))
  }

  /** The first participant with this address. */
  function SlotOf(params: ChParams, who: Addr): Option<PartIdx> {
    if params.participants[0] == who then Some(0)
    else if params.participants[1] == who then Some(1)
    else None
  }

  /** `AgreedUponChannel::add_signature` */
  function AddSignature(a: Agreed, channel: Hash, version: u64, sig: Signature): Result<Agreed, OpeningError> {
    if channel != a.initState.id then Err(SigError(MismatchedChannelID))
    else if version != 0 then Err(SigError(MismatchedVersion))
    else
      match Recover(StateDigest(a.initState), sig)
      case None => Err(SigError(RecoveryFailed))
      case Some(who) =>
        match SlotOf(a.params, who)
        case None => Err(SigError(InvalidSignature(who)))
        case Some(slot) =>
          if a.sigs[slot].Some? then Err(SigError(AlreadySigned))
          else Ok(a.(sigs := a.sigs[slot := Some(sig)]))
  }

  /** `AgreedUponChannel::build`; the caller also sends the two requests below. */
  function BuildSigned(a: Agreed): Result<Active, OpeningError> {
    match Collect(a.sigs)
    case Err(e) => Err(MissingSignatureResponse(e.idx))
    case Ok(sigs) => Ok(Active(a.partIdx, a.signer, a.receiver, a.params, a.initState, sigs))
  }

  function FundingRequest(a: Agreed): FunderReq {
    FundReq(a.partIdx, a.agreement, a.params, a.initState)
  }

  /** Field by field, what an answered proposal becomes. */
  lemma BuiltFields(h: Hashes, p: Proposed)
    ensures p.response.None? ==> BuildAgreed(h, p) == Err(MissingAccResponse(1))
    ensures p.response.Some? ==> BuildAgreed(h, p).Ok? && FromProposal(h, p, BuildAgreed(h, p).value)
  {
  }

  /** The terms that were proposed and answered: the proposer first, the nonce shares in
      this order, and to each participant exactly its initial balance. */
  predicate FromProposal(h: Hashes, p: Proposed, a: Agreed)
    requires p.response.Some?
  {
    var prop, acc := p.proposal, p.response.value;
    && a.partIdx == p.partIdx && a.signer == p.signer && a.receiver == p.receiver
    && a.agreement == prop.fundingAgreement && a.sigs == [None, None]
    && a.params.participants == [prop.participant, acc.participant]
    && a.params.challengeDuration == prop.challengeDuration
    && a.params.nonce == h.nonce(prop.nonceShare, acc.nonceShare)
    && a.params.app == Fill(0, 20) && a.params.ledgerChannel && !a.params.virtualChannel
    && a.initState.id == h.id(a.params) && a.initState.version == 0 && !a.initState.isFinal
    && a.initState.outcome.assets == [prop.asset] && a.initState.outcome.balances == prop.initBals
  }

  /** The channel as it would be built, but for the signatures. */
  function Unsigned(a: Agreed): Active {
    Active(a.partIdx, a.signer, a.receiver, a.params, a.initState, [])
  }

  /** The collected signatures belong to their slots: to the participants or, in our
      own slot, to us. */
  ghost predicate AgreedInv(a: Agreed) {
    && a.initState.version == 0 && !a.initState.isFinal
    && SlotsPartlySigned(Unsigned(a), a.sigs, a.initState)
  }

  /** Nothing checks that our own slot holds our signer's address. That equation
      is exactly what makes our own signature valid. */
  lemma OwnSlotDecides(a: Agreed)
    requires PartlySigned(a.sigs, a.params, a.initState) && SignInitial(a).Ok?
    ensures PartlySigned(SignInitial(a).value.sigs, a.params, a.initState)
            <==> a.params.participants[a.partIdx] == a.signer
  {
    var a' := SignInitial(a).value;
    assert a'.sigs[a.partIdx] == Some(InitialSignature(a));
  }

  lemma AddSignatureKeeps(a: Agreed, channel: Hash, version: u64, sig: Signature)
    requires AgreedInv(a) && AddSignature(a, channel, version, sig).Ok?
    ensures AgreedInv(AddSignature(a, channel, version, sig).value)
  {
    var a' := AddSignature(a, channel, version, sig).value;
    assert Unsigned(a') == Unsigned(a);
  }

  lemma SignKeeps(a: Agreed)
    requires AgreedInv(a) && SignInitial(a).Ok?
    ensures AgreedInv(SignInitial(a).value)
  {
    assert Unsigned(SignInitial(a).value) == Unsigned(a);
  }

  // ----- Any order of signing and adding -----

  datatype OpeningStep = SignStep | AddStep(channel: Hash, version: u64, sig: Signature)

  /** A step that fails changes nothing. */
  function OpeningNext(a: Agreed, step: OpeningStep): Agreed {
    var r := match step
             case SignStep => SignInitial(a)
             case AddStep(channel, version, sig) => AddSignature(a, channel, version, sig);
    if r.Ok? then r.value else a
  }

  function OpeningRun(a: Agreed, steps: seq<OpeningStep>): Agreed
    decreases steps
  {
    if steps == [] then a else OpeningRun(OpeningNext(a, steps[0]), steps[1..])
  }

  lemma {:induction false} OpeningRunKeeps(a: Agreed, steps: seq<OpeningStep>)
    requires AgreedInv(a)
    ensures var a' := OpeningRun(a, steps);
            AgreedInv(a') && Unsigned(a') == Unsigned(a) && a'.agreement == a.agreement
    decreases steps
  {
    if steps != [] {
      match steps[0] {
        case SignStep =>
          if SignInitial(a).Ok? {
            SignKeeps(a);
          }
        case AddStep(channel, version, sig) =>
          if AddSignature(a, channel, version, sig).Ok? {
            AddSignatureKeeps(a, channel, version, sig);
          }
      }
      OpeningRunKeeps(OpeningNext(a, steps[0]), steps[1..]);
    }
  }

  /** Once we have signed, the first signature that is added completes the channel. */
  lemma SecondSignatureCompletes(a: Agreed, channel: Hash, version: u64, sig: Signature)
    requires a.sigs[a.partIdx].Some? && AddSignature(a, channel, version, sig).Ok?
    ensures BuildSigned(AddSignature(a, channel, version, sig).value).Ok?
  {
    var a' := AddSignature(a, channel, version, sig).value;
    assert a'.sigs[0].Some? && a'.sigs[1].Some?;
  }

  /** A channel that comes out of the opening phases is signed in every slot, and by
      everyone if our own slot is ours. */
  lemma BuildSignedFully(a: Agreed)
    requires AgreedInv(a) && BuildSigned(a).Ok?
    ensures var ch := BuildSigned(a).value;
            SlotsSigned(ch) && (OwnSlot(ch) ==> FullySigned(ch)) && ch.state == a.initState
  {
    var ch := BuildSigned(a).value;
    assert forall i: PartIdx :: a.sigs[i] == Some(ch.sigs[i]) && SlotSigned(Unsigned(a), i, ch.sigs[i], a.initState);
  }
}
