/**
  The adjudicator's test cases, replayed against the `Channel` class. Each
  transaction is mined in its own block: a dispute mined at block `b` is
  followed by the next transaction at `b + 1`, or at `b + 1 + n` after `n`
  empty blocks.
 */
module AdjudicatorScenarios {
  import opened Wrappers
  import opened ChannelState
  import opened Adjudicator

  const ChannelAddr: Address := 100
  const Alice: Address := 1
  const Bob: Address := 2
  const Rando: Address := 3
  const Token: Address := 200

  /**
    A stand-in hash that tells the states of these scenarios apart, including
    a state whose alice, bob or channel address was changed.
   */
  function ScenarioHash(s: CoreChannelState): (r: Digest)
  {
    s.nonce + 1000 * (s.alice + 1000 * (s.bob + 1000 * s.channelAddress))
  }

  /** The state every test starts from: one native asset, 17 for alice and 45 for bob. */
  function InitialState(): (r: CoreChannelState)
  {
    CoreChannelState(ChannelAddr, Alice, Bob, [0], [Balance(17, 45)], [0], [62], 2, 3, 0, 1)
  }

  method NewChannel() returns (c: Channel)
    ensures fresh(c) && c.dispute == None
    ensures c.Identity() == ChannelIdentity(ChannelAddr, Alice, Bob) && c.hash == ScenarioHash
  {
    c := new Channel(ChannelAddr, Alice, Bob, ScenarioHash);
  }

  /**
    A wrong alice, bob or channel address is refused and nothing is stored;
    the reused signatures do not verify against the changed state, yet the
    identity error is the one reported.
   */
  method DisputeWithWrongIdentity(block: nat)
  {
    var s := InitialState();
    var c := NewChannel();
    var r := c.DisputeChannel(s.(alice := Rando), false, false, block);
    assert r == Fail(ChannelMismatch) && c.dispute == None;
    r := c.DisputeChannel(s.(bob := Rando), false, false, block);
    assert r == Fail(ChannelMismatch) && c.dispute == None;
    r := c.DisputeChannel(s.(channelAddress := Rando), false, false, block);
    assert r == Fail(ChannelMismatch) && c.dispute == None;
  }

  /** Each participant's bad signature is reported as theirs. */
  method DisputeWithBadSignature(block: nat)
  {
    var s := InitialState();
    var c := NewChannel();
    var r := c.DisputeChannel(s, false, true, block);
    assert r == Fail(InvalidAliceSignature);
    r := c.DisputeChannel(s, true, false, block);
    assert r == Fail(InvalidBobSignature) && c.dispute == None;
  }

  /** After one empty block a timeout-2 dispute is in its defund phase. */
  method DisputeInDefundPhase(b: nat)
  {
    var s := InitialState();
    var c := NewChannel();
    var r := c.DisputeChannel(s, true, true, b);
    assert r == Pass;
    assert c.dispute == Some(ChannelDispute(ScenarioHash(s), 3, 0, b + 2, b + 4, 0));
    r := c.DisputeChannel(s.(nonce := 4), true, true, b + 2);
    assert r == Fail(NotAllowedInDefundPhase);
  }

  /** The same state submitted twice is stale. */
  method DisputeWithStaleNonce(b: nat)
  {
    var s := InitialState();
    var c := NewChannel();
    var r := c.DisputeChannel(s, true, true, b);
    r := c.DisputeChannel(s, true, true, b + 1);
    assert r == Fail(NonceTooSmall);
    assert c.dispute == Some(ChannelDispute(ScenarioHash(s), 3, 0, b + 2, b + 4, 0));
  }

  /** A higher nonce advances the dispute and keeps the first call's expiries. */
  method AdvanceDispute(b: nat)
  {
    var s := InitialState();
    var c := NewChannel();
    var r := c.DisputeChannel(s, true, true, b);
    r := c.DisputeChannel(s.(nonce := 4), true, true, b + 1);
    assert r == Pass;
    assert c.dispute == Some(ChannelDispute(ScenarioHash(s.(nonce := 4)), 4, 0, b + 2, b + 4, 0));
  }

  /** Disputes `s` at `b` and leaves the channel two blocks later. */
  method DisputedChannel(s: CoreChannelState, b: nat) returns (c: Channel)
    requires Matches(ChannelIdentity(ChannelAddr, Alice, Bob), s) && s.timeout == 2
    ensures fresh(c) && c.Identity() == ChannelIdentity(ChannelAddr, Alice, Bob)
    ensures c.hash == ScenarioHash
    ensures c.dispute == Some(ChannelDispute(ScenarioHash(s), s.nonce, s.merkleRoot, b + 2, b + 4, PredUint256(s.defundNonce)))
  {
    c := NewChannel();
    var r := c.DisputeChannel(s, true, true, b);
  }

  /** The defund gates, each tried on its own. */
  method DefundGates(b: nat)
  {
    var s := InitialState();
    var c := DisputedChannel(s, b);
    // a changed participant also changes the hash; the identity error wins
    assert ScenarioHash(s.(alice := Rando)) != ScenarioHash(s);
    var r := c.DefundChannel(s.(alice := Rando), [], [], b + 3);
    assert r == Failure(ChannelMismatch);
    r := c.DefundChannel(s.(nonce := 652), [], [], b + 3);
    assert r == Failure(HashMismatch);
    r := c.DefundChannel(s, [], [], b + 1);
    assert r == Failure(NotInDefundPhase);
    r := c.DefundChannel(s, [], [], b + 4);
    assert r == Failure(NotInDefundPhase);

    var zero := s.(defundNonce := 0);
    var z := DisputedChannel(zero, b);
    r := z.DefundChannel(zero, [], [], b + 3);
    assert r == Failure(AlreadyDefunded);
  }

  /** Simple case, then the replay of the same defund. */
  method DefundSimple(b: nat)
  {
    var s := InitialState();
    var c := DisputedChannel(s, b);
    var r := c.DefundChannel(s, [], [], b + 3);
    assert r.Success? && r.value == [Payout(0, 17, 45)];
    r := c.DefundChannel(s, [], [], b + 3);
    assert r == Failure(AlreadyDefunded);
  }

  /** Two assets are paid out independently. */
  method DefundMultipleAssets(b: nat)
  {
    var s := InitialState().(assetIds := [0, Token], balances := [Balance(17, 26), Balance(10, 8)],
                             processedDepositsA := [0, 0], processedDepositsB := [43, 18]);
    var c := DisputedChannel(s, b);
    var r := c.DefundChannel(s, [], [], b + 3);
    assert r.Success? && r.value == [Payout(0, 17, 26), Payout(Token, 10, 8)];
  }

  /** A deposit bob sent outside the signed state is still paid back to bob. */
  method DefundWithUnprocessedDeposit(b: nat)
  {
    var s := InitialState();
    var c := DisputedChannel(s, b);
    var r := c.DefundChannel(s, [], [18], b + 3);
    assert r.Success? && r.value == [Payout(0, 17, 63)];
  }
}
