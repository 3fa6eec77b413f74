/** Option, Result and Outcome datatypes used by the adjudicator model. */
module Wrappers {

  datatype Option<+T> = None | Some(value: T)

  datatype Result<+R, +E> = Success(value: R) | Failure(error: E)

  /** Outcome of a call that returns nothing but may revert. */
  datatype Outcome<+E> = Pass | Fail(error: E)
}

/**
  The core channel state that both participants sign and that the
  adjudicator commits to by its hash.
 */
module ChannelState {

  /** 2^256: every `uint256` of the on-chain contract is below this. */
  const UINT256_MODULUS: int := 0x1_0000000000000000000000000000000000000000000000000000000000000000

  type Uint256 = x: int | 0 <= x < UINT256_MODULUS

  /** Account or contract address (the zero address is the native asset). */
  type Address = nat

  /** A 32-byte digest (state hash, merkle root). */
  type Digest = nat

  /** The two amounts of one asset: index 0 is alice's, index 1 is bob's. */
  datatype Balance = Balance(amountAlice: nat, amountBob: nat)

  datatype CoreChannelState = CoreChannelState(
    channelAddress: Address,
    alice: Address,
    bob: Address,
    assetIds: seq<Address>,
    balances: seq<Balance>,
    processedDepositsA: seq<nat>,
    processedDepositsB: seq<nat>,
    timeout: nat,
    nonce: nat,
    merkleRoot: Digest,
    defundNonce: Uint256
  )

  /** The fixed identity of the channel contract a state is presented to. */
  datatype ChannelIdentity = ChannelIdentity(channelAddress: Address, alice: Address, bob: Address)

  /** The state names this channel and its two participants. */
  predicate Matches(id: ChannelIdentity, s: CoreChannelState)
  {
    s.channelAddress == id.channelAddress && s.alice == id.alice && s.bob == id.bob
  }

  /** `x - 1` computed in 256-bit unsigned arithmetic. */
  function PredUint256(x: Uint256): (r: Uint256)
    ensures (r + 1) % UINT256_MODULUS == x
    ensures r < x <==> x > 0
  {
    if x == 0 then UINT256_MODULUS - 1 else x - 1
  }

  /** An unreconciled deposit given per asset index; a missing entry is zero. */
  function UnprocessedAt(unprocessed: seq<nat>, i: nat): (r: nat)
  {
    if i < |unprocessed| then unprocessed[i] else 0
  }
}
