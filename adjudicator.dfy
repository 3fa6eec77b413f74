/**
  The on-chain channel adjudicator: one dispute record per channel, created
  and advanced by `disputeChannel` during the consensus phase and consumed by
  `defundChannel` during the defund phase, which pays out every asset of the
  disputed state.
 */
module Adjudicator {
  import opened Wrappers
  import opened ChannelState

  /** Every way a call can revert; `Reason` gives the revert string. */
  datatype AdjudicatorError =
    | ChannelMismatch
    | InvalidAliceSignature
    | InvalidBobSignature
    | NotAllowedInDefundPhase
    | NonceTooSmall
    | NotInDefundPhase
    | HashMismatch
    | AlreadyDefunded
    | BalanceIndexOutOfRange

  function Reason(e: AdjudicatorError): (r: string)
  {
    match e
    case ChannelMismatch => "CMCAdjudicator: Mismatch between given core channel state and channel we are at"
    case InvalidAliceSignature => "Invalid alice signature"
    case InvalidBobSignature => "Invalid bob signature"
    case NotAllowedInDefundPhase => "CMCAdjudicator disputeChannel: Not allowed in defund phase"
    case NonceTooSmall => "CMCAdjudicator disputeChannel: New nonce smaller than stored one"
    case NotInDefundPhase => "CMCAdjudicator defundChannel: Not in defund phase"
    case HashMismatch => "CMCAdjudicator defundChannel: Hash of core channel state does not match stored hash"
    case AlreadyDefunded => "CMCAdjudicator defundChannel: channel already defunded"
    // an out-of-range array access reverts without a reason string
    case BalanceIndexOutOfRange => ""
  }

  /** The stored dispute: a commitment to the disputed state and its two deadlines. */
  datatype ChannelDispute = ChannelDispute(
    channelStateHash: Digest,
    nonce: nat,
    merkleRoot: Digest,
    consensusExpiry: nat,
    defundExpiry: nat,
    defundNonce: Uint256
  )

  /** What one asset pays out to each participant on defund. */
  datatype Payout = Payout(assetId: Address, toAlice: nat, toBob: nat)

  /** A higher-nonce state may still replace the disputed one. */
  predicate InConsensusPhase(stored: Option<ChannelDispute>, block: nat)
  {
    stored.Some? && block < stored.value.consensusExpiry
  }

  /** The disputed state is frozen and may be defunded. */
  predicate InDefundPhase(stored: Option<ChannelDispute>, block: nat)
  {
    stored.Some? && stored.value.consensusExpiry <= block < stored.value.defundExpiry
  }

  /**
    The record `disputeChannel` leaves when it accepts `s` at `block`, or the
    reason it reverts. `aliceSigOk` and `bobSigOk` say whether each
    participant's signature verifies against `hash(s)`.
   */
  function DisputeStep(hash: CoreChannelState -> Digest, id: ChannelIdentity, stored: Option<ChannelDispute>,
                       s: CoreChannelState, aliceSigOk: bool, bobSigOk: bool, block: nat)
    : (r: Result<ChannelDispute, AdjudicatorError>)
    // the identity gate comes first, then alice's signature, then bob's
    ensures !Matches(id, s) ==> r == Failure(ChannelMismatch)
    ensures Matches(id, s) && !aliceSigOk ==> r == Failure(InvalidAliceSignature)
    ensures Matches(id, s) && aliceSigOk && !bobSigOk ==> r == Failure(InvalidBobSignature)
    // a signed state of this channel is refused once the defund phase has begun ...
    ensures Matches(id, s) && aliceSigOk && bobSigOk && InDefundPhase(stored, block)
            ==> r == Failure(NotAllowedInDefundPhase)
    // ... and when it does not advance the stored nonce
    ensures Matches(id, s) && aliceSigOk && bobSigOk && !InDefundPhase(stored, block)
            && stored.Some? && s.nonce <= stored.value.nonce
            ==> r == Failure(NonceTooSmall)
    ensures r.Success? <==>
              Matches(id, s) && aliceSigOk && bobSigOk && !InDefundPhase(stored, block)
              && (stored.Some? ==> stored.value.nonce < s.nonce)
    // an accepted state replaces the commitment
    ensures r.Success? ==>
              && r.value.channelStateHash == hash(s)
              && r.value.nonce == s.nonce
              && r.value.merkleRoot == s.merkleRoot
              && r.value.defundNonce == PredUint256(s.defundNonce)
    // advancing a running dispute keeps the deadlines of its first call
    ensures r.Success? && InConsensusPhase(stored, block) ==>
              r.value.consensusExpiry == stored.value.consensusExpiry
              && r.value.defundExpiry == stored.value.defundExpiry
    // a new dispute opens both windows at this block
    ensures r.Success? && !InConsensusPhase(stored, block) ==>
              r.value.consensusExpiry == block + s.timeout
              && r.value.defundExpiry == block + 2 * s.timeout
  {
    if !Matches(id, s) then Failure(ChannelMismatch)
    else if !aliceSigOk then Failure(InvalidAliceSignature)
    else if !bobSigOk then Failure(InvalidBobSignature)
    else if InDefundPhase(stored, block) then Failure(NotAllowedInDefundPhase)
    else if stored.Some? && s.nonce <= stored.value.nonce then Failure(NonceTooSmall)
    else
      var (consensusExpiry, defundExpiry) :=
        if InConsensusPhase(stored, block)
        then (stored.value.consensusExpiry, stored.value.defundExpiry)
        else (block + s.timeout, block + s.timeout * 2);
      Success(ChannelDispute(hash(s), s.nonce, s.merkleRoot, consensusExpiry, defundExpiry,
                             PredUint256(s.defundNonce)))
  }

  /**
    The record `defundChannel` leaves when it accepts `s` at `block`, or the
    reason it reverts.
   */
  function DefundStep(hash: CoreChannelState -> Digest, id: ChannelIdentity, stored: Option<ChannelDispute>,
                      s: CoreChannelState, block: nat)
    : (r: Result<ChannelDispute, AdjudicatorError>)
    ensures !Matches(id, s) ==> r == Failure(ChannelMismatch)
    // too early, too late, or nothing disputed
    ensures Matches(id, s) && !InDefundPhase(stored, block) ==> r == Failure(NotInDefundPhase)
    ensures Matches(id, s) && InDefundPhase(stored, block) && hash(s) != stored.value.channelStateHash
            ==> r == Failure(HashMismatch)
    ensures Matches(id, s) && InDefundPhase(stored, block) && hash(s) == stored.value.channelStateHash
            && s.defundNonce <= stored.value.defundNonce
            ==> r == Failure(AlreadyDefunded)
    ensures r.Success? <==>
              Matches(id, s) && InDefundPhase(stored, block)
              && hash(s) == stored.value.channelStateHash
              && stored.value.defundNonce < s.defundNonce
              && |s.assetIds| <= |s.balances|
    // a defund only stores the state's defund nonce, so a replay of it fails
    ensures r.Success? ==>
              r.value == stored.value.(defundNonce := s.defundNonce)
  {
    if !Matches(id, s) then Failure(ChannelMismatch)
    else if !InDefundPhase(stored, block) then Failure(NotInDefundPhase)
    else if hash(s) != stored.value.channelStateHash then Failure(HashMismatch)
    else if !(stored.value.defundNonce < s.defundNonce) then Failure(AlreadyDefunded)
    else if |s.balances| < |s.assetIds| then Failure(BalanceIndexOutOfRange)
    else Success(stored.value.(defundNonce := s.defundNonce))
  }

  /**
    `payouts` pays, for every asset index of `s` and for that asset alone, each
    participant their signed balance plus their unreconciled deposit.
   */
  ghost predicate PaysOut(s: CoreChannelState, unprocessedAlice: seq<nat>, unprocessedBob: seq<nat>,
                          payouts: seq<Payout>)
  {
    && |s.assetIds| <= |s.balances|
    && |payouts| == |s.assetIds|
    && forall i :: 0 <= i < |payouts| ==>
         && payouts[i].assetId == s.assetIds[i]
         && payouts[i].toAlice == s.balances[i].amountAlice + UnprocessedAt(unprocessedAlice, i)
         && payouts[i].toBob == s.balances[i].amountBob + UnprocessedAt(unprocessedBob, i)
  }

  /** Walks the assets of `s` in order and computes what each one pays out. */
  method ComputePayouts(s: CoreChannelState, unprocessedAlice: seq<nat>, unprocessedBob: seq<nat>)
    returns (payouts: seq<Payout>)
    requires |s.assetIds| <= |s.balances|
    ensures PaysOut(s, unprocessedAlice, unprocessedBob, payouts)
  {
    payouts := [];
    var i := 0;
    while i < |s.assetIds|
      invariant 0 <= i <= |s.assetIds|
      invariant |payouts| == i
      invariant forall k :: 0 <= k < i ==>
                  && payouts[k].assetId == s.assetIds[k]
                  && payouts[k].toAlice == s.balances[k].amountAlice + UnprocessedAt(unprocessedAlice, k)
                  && payouts[k].toBob == s.balances[k].amountBob + UnprocessedAt(unprocessedBob, k)
    {
      var balance := s.balances[i];
      var toAlice := balance.amountAlice + UnprocessedAt(unprocessedAlice, i);
      var toBob := balance.amountBob + UnprocessedAt(unprocessedBob, i);
      payouts := payouts + [Payout(s.assetIds[i], toAlice, toBob)];
      i := i + 1;
    }
  }

  /**
    One channel contract: its fixed identity, the state hash it checks
    against, and its dispute record (none until the first dispute).
   */
  class Channel {
    const channelAddress: Address
    const alice: Address
    const bob: Address
    const hash: CoreChannelState -> Digest
    var dispute: Option<ChannelDispute>

    function Identity(): (r: ChannelIdentity)
    {
      ChannelIdentity(channelAddress, alice, bob)
    }

    constructor (channelAddress: Address, alice: Address, bob: Address, hash: CoreChannelState -> Digest)
      ensures this.channelAddress == channelAddress && this.alice == alice && this.bob == bob
      ensures this.hash == hash && dispute == None
    {
      this.channelAddress := channelAddress;
      this.alice := alice;
      this.bob := bob;
      this.hash := hash;
      dispute := None;
    }

    /** `disputeChannel(state, aliceSignature, bobSignature)` mined at `block`. */
    method DisputeChannel(s: CoreChannelState, aliceSigOk: bool, bobSigOk: bool, block: nat)
      returns (r: Outcome<AdjudicatorError>)
      modifies this
      ensures var step := DisputeStep(hash, Identity(), old(dispute), s, aliceSigOk, bobSigOk, block);
              && (step.Success? ==> r == Pass && dispute == Some(step.value))
              && (step.Failure? ==> r == Fail(step.error) && dispute == old(dispute))
    {
      if !Matches(Identity(), s) {
        return Fail(ChannelMismatch);
      }
      if !aliceSigOk {
        return Fail(InvalidAliceSignature);
      }
      if !bobSigOk {
        return Fail(InvalidBobSignature);
      }
      if InDefundPhase(dispute, block) {
        return Fail(NotAllowedInDefundPhase);
      }
      if dispute.Some? && s.nonce <= dispute.value.nonce {
        return Fail(NonceTooSmall);
      }
      var consensusExpiry, defundExpiry := block + s.timeout, block + s.timeout * 2;
      if InConsensusPhase(dispute, block) {
        consensusExpiry, defundExpiry := dispute.value.consensusExpiry, dispute.value.defundExpiry;
      }
      dispute := Some(ChannelDispute(hash(s), s.nonce, s.merkleRoot, consensusExpiry, defundExpiry,
                                     PredUint256(s.defundNonce)));
      r := Pass;
    }

    /**
      `defundChannel(state)` mined at `block`; the unreconciled deposits of
      each participant, per asset index, are given by the ledger.
     */
    method DefundChannel(s: CoreChannelState, unprocessedAlice: seq<nat>, unprocessedBob: seq<nat>, block: nat)
      returns (r: Result<seq<Payout>, AdjudicatorError>)
      modifies this
      ensures var step := DefundStep(hash, Identity(), old(dispute), s, block);
              && (step.Success? ==> r.Success? && dispute == Some(step.value)
                                    && PaysOut(s, unprocessedAlice, unprocessedBob, r.value))
              && (step.Failure? ==> r == Failure(step.error) && dispute == old(dispute))
    {
      if !Matches(Identity(), s) {
        return Failure(ChannelMismatch);
      }
      if !InDefundPhase(dispute, block) {
        return Failure(NotInDefundPhase);
      }
      var stored := dispute.value;
      if hash(s) != stored.channelStateHash {
        return Failure(HashMismatch);
      }
      if !(stored.defundNonce < s.defundNonce) {
        return Failure(AlreadyDefunded);
      }
      if |s.balances| < |s.assetIds| {
        return Failure(BalanceIndexOutOfRange);
      }
      dispute := Some(stored.(defundNonce := s.defundNonce));
      var payouts := ComputePayouts(s, unprocessedAlice, unprocessedBob);
      r := Success(payouts);
    }
  }
}
