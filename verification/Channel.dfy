/** The two-party payment channel on values: active channels, pending updates,
    the messages they exchange, and what every operation computes. */
module Channel {
  import opened Bytes
  import opened Wrappers
  import Passes
  import opened Payment

  /** One asset, two participants. */
  type ChState = s: State | Shape(s, 1, 2)
    witness State(Fill(0, 32), 0, Allocation([Fill(0, 20)], [[0, 0]]), false)
  type ChParams = p: Params | |p.participants| == 2
    witness Params(0, 0, [Fill(0, 20), Fill(0, 20)], Fill(0, 20), false, false)
  type PartIdx = i: nat | i < 2

  lemma ChStateEncodable(s: ChState)
    ensures Encodable(s)
  {
    Pow256Grows(2, Passes.USIZE_BYTES);
  }

  // ----- Ideal signatures -----

  /** An unforgeable signature: it recovers to its signer, over its own digest only. */
  datatype Signature = Signature(signer: Addr, digest: Digest)

  function Recover(digest: Digest, sig: Signature): Option<Addr> {
    if sig.digest == digest then Some(sig.signer) else None
  }

  /** `sig` is `who`'s signature on `s`. */
  predicate SignedBy(sig: Signature, who: Addr, s: ChState) {
    Recover(StateDigest(s), sig) == Some(who)
  }

  // ----- Messages -----

  datatype ParticipantMsg =
    | ChannelUpdateMsg(state: ChState, actorIdx: nat, sig: Signature)
    | ChannelUpdateAccepted(channel: Hash, version: u64, sig: Signature)
    | ChannelUpdateRejected(id: Hash, version: u64)
    | ProposalAccepted(acc: ProposalAcc)
    | ProposalRejected(proposalId: Hash)
    | OtherMsg

  datatype ProposalAcc = ProposalAcc(proposalId: Hash, nonceShare: Hash, participant: Addr)

  datatype WatchReq = WatchReq(params: ChParams, state: ChState, sigs: seq<Signature>)

  datatype AdjudicatorReq = AdjudicatorReq(
    params: ChParams, acc: Addr, state: ChState, sigs: seq<Signature>, idx: PartIdx, secondary: bool)

  datatype FunderReq =
    | FundReq(partIdx: PartIdx, agreement: seq<seq<U256>>, params: ChParams, state: ChState)
    | RegisterReq(adj: AdjudicatorReq)
    | WithdrawReq(adj: AdjudicatorReq)

  // ----- Transitions -----

  function Sum(amounts: seq<U256>): nat {
    if amounts == [] then 0 else Sum(amounts[..|amounts| - 1]) + amounts[|amounts| - 1]
  }

  /** Sum over the participants, per asset. */
  function Totals(o: Allocation): (r: seq<nat>)
    ensures |r| == |o.balances| && forall k :: 0 <= k < |r| ==> r[k] == Sum(o.balances[k])
  {
    seq(|o.balances|, k requires 0 <= k < |o.balances| => Sum(o.balances[k]))
  }

  /** Every total stays within 256 bits; the original panics otherwise. */
  predicate NoOverflow(o: Allocation) {
    forall k :: 0 <= k < |o.balances| ==> Sum(o.balances[k]) < U256_LIMIT
  }

  datatype InvalidUpdate =
    | InvalidChannelID
    | InvalidVersionNumber
    | CurrentStateIsFinal
    | AssetsMismatch
    | TotalAllocationAmountMismatch

  /** The full check an update has to pass when it is created. */
  function CheckTransition(cur: ChState, next: ChState): Option<InvalidUpdate> {
    if next.id != cur.id then Some(InvalidChannelID)
    else if cur.isFinal then Some(CurrentStateIsFinal)
    else if next.version != cur.version + 1 then Some(InvalidVersionNumber)
    else if next.outcome.assets != cur.outcome.assets then Some(AssetsMismatch)
    else if Totals(next.outcome) != Totals(cur.outcome) then Some(TotalAllocationAmountMismatch)
    else None
  }

  /** The check panics: it gets as far as the next version number, which does not
      exist, or as far as the totals, one of which is out of range. */
  predicate TransitionPanics(cur: ChState, next: ChState) {
    && next.id == cur.id && !cur.isFinal
    && (cur.version + 1 == U64_LIMIT
        || (next.version == cur.version + 1 && next.outcome.assets == cur.outcome.assets
            && !(NoOverflow(next.outcome) && NoOverflow(cur.outcome))))
  }

  predicate ValidTransition(cur: ChState, next: ChState) {
    CheckTransition(cur, next).None?
  }

  /** `make_next_state`: the same state under the next version. */
  function NextState(s: ChState): ChState
    requires s.version + 1 < U64_LIMIT
  {
    s.(version := s.version + 1)
  }

  // ----- Active channels and pending updates, as values -----

  datatype Active = Active(
    partIdx: PartIdx, signer: Addr, receiver: Addr, params: ChParams, state: ChState, sigs: seq<Signature>)

  datatype RawUpdate = Update(channelId: Hash, newState: ChState, sigs: seq<Option<Signature>>)
  type Update = u: RawUpdate | |u.sigs| == 2
    witness Update(Fill(0, 32), State(Fill(0, 32), 0, Allocation([Fill(0, 20)], [[0, 0]]), false), [None, None])

  datatype ChannelError =
    | InvalidUpdateError(reason: InvalidUpdate)
    | RecoveryFailed
    | InvalidSignature(signer: Addr)
    | AlreadySigned
    | AlreadyAccepted
    | MissingSignature(idx: nat)
    | MismatchedChannelID
    | MismatchedVersion
    | WrongVersion
    | WrongChannelId

  function NewUpdate(ch: Active, newState: ChState, idx: PartIdx, sig: Signature): Update {
    Update(ch.state.id, newState, [None, None][idx := Some(sig)])
  }

  function ProposalMsg(ch: Active, newState: ChState): ParticipantMsg {
    ChannelUpdateMsg(newState, ch.partIdx, Signature(ch.signer, StateDigest(newState)))
  }

  /** `ActiveChannel::update` */
  function Propose(ch: Active, newState: ChState): Result<Update, ChannelError>
    requires !TransitionPanics(ch.state, newState)
  {
    match CheckTransition(ch.state, newState)
    case Some(e) => Err(InvalidUpdateError(e))
    case None => Ok(NewUpdate(ch, newState, ch.partIdx, Signature(ch.signer, StateDigest(newState))))
  }

  /** Handling an update panics: in the check, or because a state that passed it and
      whose signature can be recovered names an actor that does not exist. */
  predicate HandlePanics(ch: Active, state: ChState, actorIdx: nat, sig: Signature) {
    || TransitionPanics(ch.state, state)
    || (ValidTransition(ch.state, state) && Recover(StateDigest(state), sig).Some? && actorIdx >= 2)
  }

  /** `ActiveChannel::handle_update` */
  function HandleUpdate(ch: Active, state: ChState, actorIdx: nat, sig: Signature): Result<Update, ChannelError>
    requires !HandlePanics(ch, state, actorIdx, sig)
  {
    match CheckTransition(ch.state, state)
    case Some(e) => Err(InvalidUpdateError(e))
    case None =>
      match Recover(StateDigest(state), sig)
      case None => Err(RecoveryFailed)
      case Some(who) =>
        if ch.params.participants[actorIdx] != who then Err(InvalidSignature(who))
        else Ok(NewUpdate(ch, state, actorIdx, sig))
  }

  /** The weak check: only the version and the channel id. */
  function EnsureValidChannel(u: Update, ch: Active): Option<ChannelError> {
    if u.newState.version != ch.state.version + 1 then Some(WrongVersion)
    else if u.channelId != ch.state.id then Some(WrongChannelId)
    else None
  }

  function AcceptanceMsg(ch: Active, u: Update): ParticipantMsg {
    ChannelUpdateAccepted(u.channelId, u.newState.version, Signature(ch.signer, StateDigest(u.newState)))
  }

  /** `ChannelUpdate::accept` */
  function Accept(u: Update, ch: Active): Result<Update, ChannelError>
  {
    match EnsureValidChannel(u, ch)
    case Some(e) => Err(e)
    case None =>
      if u.sigs[ch.partIdx].Some? then Err(AlreadyAccepted)
      else Ok(u.(sigs := u.sigs[ch.partIdx := Some(Signature(ch.signer, StateDigest(u.newState)))]))
  }

  /** `ChannelUpdate::participant_accepted` */
  function ParticipantAccepted(u: Update, ch: Active, idx: PartIdx, channel: Hash, version: u64, sig: Signature)
    : Result<Update, ChannelError>
  {
    match EnsureValidChannel(u, ch)
    case Some(e) => Err(e)
    case None =>
      if channel != u.channelId then Err(MismatchedChannelID)
      else if version != u.newState.version then Err(MismatchedVersion)
      else
        match Recover(StateDigest(u.newState), sig)
        case None => Err(RecoveryFailed)
        case Some(who) =>
          if ch.params.participants[idx] != who then Err(InvalidSignature(who))
          else if u.sigs[idx].Some? then Err(AlreadySigned)
          else Ok(u.(sigs := u.sigs[idx := Some(sig)]))
  }

  /** `ChannelUpdate::signatures`: all of them, or the first that is missing. */
  function Collect(sigs: seq<Option<Signature>>): (r: Result<seq<Signature>, ChannelError>)
    ensures r.Ok? <==> forall k :: 0 <= k < |sigs| ==> sigs[k].Some?
    ensures r.Ok? ==> |r.value| == |sigs| && forall k :: 0 <= k < |sigs| ==> sigs[k] == Some(r.value[k])
    ensures r.Err? ==> r.error.MissingSignature? && r.error.idx < |sigs| && sigs[r.error.idx].None?
                       && forall k :: 0 <= k < r.error.idx ==> sigs[k].Some?
  {
    if sigs == [] then Ok([]) else
    var last := |sigs| - 1;
    match Collect(sigs[..last])
    case Err(e) => Err(e)
    case Ok(front) => if sigs[last].Some? then Ok(front + [sigs[last].value]) else Err(MissingSignature(last))
  }

  /** `ChannelUpdate::apply`, with `force_update` behind it. */
  function Apply(u: Update, ch: Active): Result<Active, ChannelError> {
    match EnsureValidChannel(u, ch)
    case Some(e) => Err(e)
    case None =>
      match Collect(u.sigs)
      case Err(e) => Err(e)
      case Ok(sigs) => Ok(ch.(state := u.newState, sigs := sigs))
  }

  function CurrentWatchReq(ch: Active): WatchReq {
    WatchReq(ch.params, ch.state, ch.sigs)
  }

  function CurrentAdjudicatorReq(ch: Active): AdjudicatorReq {
    AdjudicatorReq(ch.params, ch.receiver, ch.state, ch.sigs, ch.partIdx, false)
  }

  // ----- Signature invariants -----

  /** Every stored signature recovers to the participant of its slot. */
  ghost predicate FullySigned(ch: Active) {
    |ch.sigs| == 2 && forall i: PartIdx :: SignedBy(ch.sigs[i], ch.params.participants[i], ch.state)
  }

  ghost predicate PartlySigned(sigs: seq<Option<Signature>>, params: ChParams, s: ChState) {
    |sigs| == 2 && forall i: PartIdx :: sigs[i].Some? ==> SignedBy(sigs[i].value, params.participants[i], s)
  }

  /** Our slot in the participant list holds our signer's address. */
  predicate OwnSlot(ch: Active) {
    ch.params.participants[ch.partIdx] == ch.signer
  }

  // ----- The same, when nothing is known about our own slot -----

  /** What slot `i` can hold: a signature of its participant or, in our own slot, ours. */
  predicate SlotSigned(ch: Active, i: PartIdx, sig: Signature, s: ChState) {
    SignedBy(sig, ch.params.participants[i], s) || (i == ch.partIdx && SignedBy(sig, ch.signer, s))
  }

  ghost predicate SlotsSigned(ch: Active) {
    |ch.sigs| == 2 && forall i: PartIdx :: SlotSigned(ch, i, ch.sigs[i], ch.state)
  }

  ghost predicate SlotsPartlySigned(ch: Active, sigs: seq<Option<Signature>>, s: ChState) {
    |sigs| == 2 && forall i: PartIdx :: sigs[i].Some? ==> SlotSigned(ch, i, sigs[i].value, s)
  }
}
