/**
  Properties of the adjudicator over single calls and over any sequence of
  calls the ledger may order against one channel.
 */
module AdjudicatorProperties {
  import opened Wrappers
  import opened ChannelState
  import opened Adjudicator

  /** A call to the channel contract, mined at `block`. */
  datatype Call =
    | DisputeCall(state: CoreChannelState, aliceSigOk: bool, bobSigOk: bool, block: nat)
    | DefundCall(state: CoreChannelState, block: nat)

  /** The dispute record after one call; a reverted call leaves it as it was. */
  function Apply(hash: CoreChannelState -> Digest, id: ChannelIdentity, stored: Option<ChannelDispute>, c: Call)
    : (r: Option<ChannelDispute>)
  {
    var step := match c
      case DisputeCall(s, aliceSigOk, bobSigOk, block) => DisputeStep(hash, id, stored, s, aliceSigOk, bobSigOk, block)
      case DefundCall(s, block) => DefundStep(hash, id, stored, s, block);
    if step.Success? then Some(step.value) else stored
  }

  /** The dispute record after the calls, in ledger order. */
  function Run(hash: CoreChannelState -> Digest, id: ChannelIdentity, stored: Option<ChannelDispute>, calls: seq<Call>)
    : (r: Option<ChannelDispute>)
    decreases |calls|
  {
    if calls == [] then stored else Run(hash, id, Apply(hash, id, stored, calls[0]), calls[1..])
  }

  /** Two records commit to the same disputed state. */
  predicate SameCommitment(d: ChannelDispute, e: ChannelDispute)
  {
    d.channelStateHash == e.channelStateHash && d.nonce == e.nonce && d.merkleRoot == e.merkleRoot
  }

  /** Call `k` disputed a state of this channel, signed by both, to which `d` commits. */
  predicate SignedDisputeOf(hash: CoreChannelState -> Digest, id: ChannelIdentity, calls: seq<Call>, k: int,
                            d: ChannelDispute)
  {
    && 0 <= k < |calls|
    && calls[k].DisputeCall?
    && calls[k].aliceSigOk && calls[k].bobSigOk
    && Matches(id, calls[k].state)
    && d.channelStateHash == hash(calls[k].state)
    && d.nonce == calls[k].state.nonce
    && d.merkleRoot == calls[k].state.merkleRoot
  }

  /** Every call is mined inside the defund window of `d`. */
  predicate WithinDefundWindow(d: ChannelDispute, calls: seq<Call>)
  {
    forall k :: 0 <= k < |calls| ==> d.consensusExpiry <= calls[k].block < d.defundExpiry
  }

  /** Once a dispute exists it is never removed and its nonce never decreases. */
  lemma {:induction false} NonceNeverDecreases(hash: CoreChannelState -> Digest, id: ChannelIdentity,
                                                stored: Option<ChannelDispute>, calls: seq<Call>)
    requires stored.Some?
    ensures Run(hash, id, stored, calls).Some?
    ensures Run(hash, id, stored, calls).value.nonce >= stored.value.nonce
    decreases |calls|
  {
    if calls != [] {
      NonceNeverDecreases(hash, id, Apply(hash, id, stored, calls[0]), calls[1..]);
    }
  }

  /**
    Whatever the calls, the stored dispute commits either to the state it
    committed to before or to a state of this channel that both participants
    signed and that one of the calls disputed.
   */
  lemma {:induction false} StoredStateWasSigned(hash: CoreChannelState -> Digest, id: ChannelIdentity,
                                                 stored: Option<ChannelDispute>, calls: seq<Call>)
    ensures var final := Run(hash, id, stored, calls);
            final.Some? ==>
              (stored.Some? && SameCommitment(final.value, stored.value))
              || exists k :: SignedDisputeOf(hash, id, calls, k, final.value)
    decreases |calls|
  {
    if calls != [] {
      var next := Apply(hash, id, stored, calls[0]);
      var final := Run(hash, id, stored, calls);
      assert final == Run(hash, id, next, calls[1..]);
      StoredStateWasSigned(hash, id, next, calls[1..]);
      if final.Some? {
        if k' :| SignedDisputeOf(hash, id, calls[1..], k', final.value) {
          assert SignedDisputeOf(hash, id, calls, k' + 1, final.value);
        } else if next != stored {
          assert SameCommitment(final.value, next.value);
          match calls[0]
          case DisputeCall(s, _, _, block) =>
            assert SignedDisputeOf(hash, id, calls, 0, final.value);
          case DefundCall(s, block) =>
            assert SameCommitment(final.value, stored.value);
        }
      }
    }
  }

  /**
    In the defund phase the disputed state is frozen: no call changes the
    commitment or the deadlines, and the defund nonce only grows.
   */
  lemma {:induction false} FrozenDuringDefundPhase(hash: CoreChannelState -> Digest, id: ChannelIdentity,
                                                    d: ChannelDispute, calls: seq<Call>)
    requires WithinDefundWindow(d, calls)
    ensures var final := Run(hash, id, Some(d), calls);
            final.Some? && final.value == d.(defundNonce := final.value.defundNonce)
            && final.value.defundNonce >= d.defundNonce
    decreases |calls|
  {
    if calls != [] {
      var next := Apply(hash, id, Some(d), calls[0]);
      assert next.Some? && next.value == d.(defundNonce := next.value.defundNonce);
      assert WithinDefundWindow(next.value, calls[1..]) by {
        forall k | 0 <= k < |calls[1..]|
          ensures next.value.consensusExpiry <= calls[1..][k].block < next.value.defundExpiry
        {
          assert calls[1..][k] == calls[k + 1];
        }
      }
      FrozenDuringDefundPhase(hash, id, next.value, calls[1..]);
    }
  }

  /**
    A state that was defunded cannot be defunded again while the dispute's
    defund phase lasts, whatever calls come in between.
   */
  lemma DefundNotReplayable(hash: CoreChannelState -> Digest, id: ChannelIdentity, d: ChannelDispute,
                            s: CoreChannelState, block: nat, later: seq<Call>, block2: nat)
    requires DefundStep(hash, id, Some(d), s, block).Success?
    requires WithinDefundWindow(d, later)
    ensures var final := Run(hash, id, Some(DefundStep(hash, id, Some(d), s, block).value), later);
            DefundStep(hash, id, final, s, block2).Failure?
            && (d.consensusExpiry <= block2 < d.defundExpiry
                ==> DefundStep(hash, id, final, s, block2) == Failure(AlreadyDefunded))
  {
    var defunded := DefundStep(hash, id, Some(d), s, block).value;
    assert WithinDefundWindow(defunded, later);
    FrozenDuringDefundPhase(hash, id, defunded, later);
  }

  /**
    A dispute opened at `block` gives a consensus window of `timeout` blocks
    followed by a defund window of `timeout` blocks.
   */
  lemma PhaseWindows(hash: CoreChannelState -> Digest, id: ChannelIdentity, stored: Option<ChannelDispute>,
                     s: CoreChannelState, block: nat, later: nat)
    requires DisputeStep(hash, id, stored, s, true, true, block).Success?
    requires !InConsensusPhase(stored, block)
    ensures var d := Some(DisputeStep(hash, id, stored, s, true, true, block).value);
            && (InConsensusPhase(d, later) <==> later < block + s.timeout)
            && (InDefundPhase(d, later) <==> block + s.timeout <= later < block + 2 * s.timeout)
  {
  }

  /**
    Re-submitting a state whose nonce does not exceed the disputed one during
    the consensus phase is stale and changes nothing.
   */
  lemma StaleStateRejected(hash: CoreChannelState -> Digest, id: ChannelIdentity, d: ChannelDispute,
                           s: CoreChannelState, block: nat)
    requires Matches(id, s) && s.nonce <= d.nonce && block < d.consensusExpiry
    ensures DisputeStep(hash, id, Some(d), s, true, true, block) == Failure(NonceTooSmall)
    ensures Apply(hash, id, Some(d), DisputeCall(s, true, true, block)) == Some(d)
  {
  }

  /**
    A state whose hash differs from the disputed one is refused by the defund
    phase; this is the only property of the hash the model relies on.
   */
  lemma ChangedStateRejected(hash: CoreChannelState -> Digest, id: ChannelIdentity, stored: Option<ChannelDispute>,
                             s: CoreChannelState, block: nat, s2: CoreChannelState, block2: nat)
    requires DisputeStep(hash, id, stored, s, true, true, block).Success?
    requires Matches(id, s2) && hash(s2) != hash(s)
    ensures DefundStep(hash, id, Some(DisputeStep(hash, id, stored, s, true, true, block).value), s2, block2).Failure?
  {
  }

  /**
    A state disputed with defund nonce 0 stores the wrapped-around value
    2^256 - 1; whatever calls follow, it is never defunded, and inside the
    defund window it is refused as already defunded.
   */
  lemma ZeroDefundNonceNeverDefunds(hash: CoreChannelState -> Digest, id: ChannelIdentity,
                                    stored: Option<ChannelDispute>, s: CoreChannelState, block: nat,
                                    calls: seq<Call>, block2: nat)
    requires s.defundNonce == 0
    requires DisputeStep(hash, id, stored, s, true, true, block).Success?
    ensures var d := DisputeStep(hash, id, stored, s, true, true, block).value;
            && d.defundNonce == UINT256_MODULUS - 1
            && DefundStep(hash, id, Run(hash, id, Some(d), calls), s, block2).Failure?
            && (InDefundPhase(Some(d), block2) ==> DefundStep(hash, id, Some(d), s, block2) == Failure(AlreadyDefunded))
  {
  }
}
