# Channel adjudicator: dispute and defund state machine

A model of the on-chain adjudicator of a two-party payment channel (the
`CMCAdjudicator` contract of the Connext vector repository), as its test
suite pins it down. Each channel contract has a fixed identity: the channel
address, alice and bob. It holds at most one dispute record. The record
holds:

- the hash, nonce and merkle root of the disputed state;
- its `consensusExpiry` and `defundExpiry`;
- its `defundNonce`.

The calls work as follows:

- `disputeChannel` takes a core channel state signed by both participants. It
  opens a dispute, or, during the consensus phase, replaces the disputed
  state with one of higher nonce.
- `defundChannel` runs during the defund phase. It takes the disputed state
  again (checked against the stored hash only). For every asset, it pays
  each participant their signed balance plus any deposit of theirs that the
  signed state does not yet reflect. It stores the state's defund nonce, so
  a replay is refused.

Files:

- `channel_state.dfy`
  - `Wrappers`: Option, Result, Outcome.
  - `ChannelState`: the core channel state and the channel identity, the
    identity check, 256-bit predecessor, and unreconciled deposits by index.
- `adjudicator.dfy`
  - `Adjudicator`: the error conditions and their revert strings, the
    dispute record, and the phase predicates.
  - `DisputeStep` and `DefundStep` specify one call each, gate by gate.
  - `ComputePayouts` is the per-asset payout loop.
  - `Channel` is the class that keeps the record and updates it in place.
- `adjudicator_properties.dfy`
  - `AdjudicatorProperties`: lemmas about single calls and about any
    sequence of calls in ledger order (`Run`).
- `adjudicator_scenarios.dfy`
  - `AdjudicatorScenarios`: the test cases replayed against `Channel`.

Abstractions:

- **Hashing.** `hashCoreChannelState` is a function value given to the
  `Channel` constructor (`hash: CoreChannelState -> Digest`). No property of
  it is assumed. The one lemma that needs two states to hash differently
  (`ChangedStateRejected`) takes that as a premise.
- **Signatures.** Each EIP-191 personal-message signature becomes a boolean
  per signer (`aliceSigOk`, `bobSigOk`). It means "this signer's signature
  recovers to its address over `hash(state)`".
- **Block numbers.** The block number of the mined call is a `nat`
  parameter.
- **Unreconciled deposits.** The deposit amounts per asset index are inputs
  to `defundChannel` (`unprocessedAlice`, `unprocessedBob`). A missing entry
  counts as 0.

## Decisions where the sources leave room

- **Gate order in `disputeChannel`:**
  1. identity;
  2. alice's signature;
  3. bob's signature;
  4. defund phase;
  5. nonce.

  The identity gate must come before the signatures. The tests change
  `alice` while keeping the original signatures, and they still expect the
  identity error.
- **Gate order in `defundChannel`:**
  1. identity;
  2. defund phase;
  3. hash;
  4. defund nonce;
  5. balance indices.

  The identity gate must come before the hash, for the same reason.
- **Phases.** The consensus phase is `block < consensusExpiry`. The defund
  phase is `consensusExpiry <= block < defundExpiry`. An inclusive reading,
  which advances a dispute at `block == consensusExpiry`, is refused by
  adjudicator.spec.ts:160-179: with timeout 2 and one mined block, a dispute
  at exactly `consensusExpiry` is rejected. The exclusive upper bound is a
  choice: line 234 only bounds the block before the defund transaction, which
  then lands at B + 3, and no test defunds at exactly `defundExpiry`. The
  assertion at `defundExpiry` in `AdjudicatorScenarios.DefundGates` rests on
  this choice.
- **Stored defund nonce.** It is `state.defundNonce - 1` in 256-bit unsigned
  arithmetic, rewritten by every accepted dispute (line 43, checked again
  after an advance at line 212). The defund gate is
  `stored < state.defundNonce`, and a successful defund stores
  `state.defundNonce`. This is the reading under which a state with defund
  nonce 0 is refused as "already defunded" (lines 274-280): it stores
  2^256 - 1. An equality gate `state.defundNonce - 1 == stored` would accept
  defund nonce 0 under wrap-around, which contradicts lines 274-280.
- **No dispute yet.** When no dispute exists, the first dispute has no
  nonce gate. Once a dispute's defund window has passed, a new dispute
  round opens with fresh expiries but must still raise the nonce.
  Because that round rewrites the stored defund nonce from the new state, a
  later round may dispute a different, higher-nonce state that carries the
  same defund nonce and defund it again. "A replay is refused" therefore holds
  within one dispute round (`DefundNotReplayable`), not across rounds.
- **Balance indices.** A state with fewer `balances` entries than
  `assetIds` reverts on the out-of-range access. The model reports this as
  `BalanceIndexOutOfRange`, after the other gates.
- **Scenario defaults.** The scenarios assume the test state's default
  defund nonce is 1. This is consistent with lines 43 and 274-280.

## Model

| member | source | states |
|---|---|---|
| `ChannelState.PredUint256` | modules/contracts/src.ts/tests/cmcs/adjudicator.spec.ts:43 | the stored defund nonce is the state's minus one modulo 2^256; it is below the state's exactly when the state's is positive |
| `Adjudicator.DisputeStep` | modules/contracts/src.ts/tests/cmcs/adjudicator.spec.ts:32-213 | gate by gate: identity mismatch, invalid alice signature, invalid bob signature, defund phase, nonce not above the stored one; accepted exactly when all pass; the record then holds the state's hash, nonce, merkle root and defund nonce minus one; expiries stay those of the running dispute, or are block + timeout and block + 2*timeout for a new one |
| `Adjudicator.DefundStep` | modules/contracts/src.ts/tests/cmcs/adjudicator.spec.ts:216-280 | gate by gate: identity mismatch, outside [consensusExpiry, defundExpiry), hash differs from the stored hash, defund nonce not above the stored one; accepted exactly when all pass and the balances cover every asset; only the stored defund nonce changes, to the state's |
| `Adjudicator.ComputePayouts` | modules/contracts/src.ts/tests/cmcs/adjudicator.spec.ts:87-94 | one payout per asset, in `assetIds` order; asset i pays alice `balances[i].amount[0]` plus her unreconciled deposit at i, and bob `balances[i].amount[1]` plus his, a missing entry counting as 0 |
| `Adjudicator.Channel.constructor` | modules/contracts/src.ts/tests/cmcs/adjudicator.spec.ts:110-127 | a fresh channel has its fixed address, alice, bob and hash, and no dispute |
| `Adjudicator.Channel.DisputeChannel` | modules/contracts/src.ts/tests/cmcs/adjudicator.spec.ts:129-213 | on success the record becomes the one `DisputeStep` accepts; on any revert it returns that error and the record is unchanged |
| `Adjudicator.Channel.DefundChannel` | modules/contracts/src.ts/tests/cmcs/adjudicator.spec.ts:216-317 | on success the record takes the state's defund nonce and the payouts are exactly the per-asset balance plus unreconciled deposit; on any revert it returns that error and the record is unchanged |
| `AdjudicatorProperties.NonceNeverDecreases` | modules/contracts/src.ts/tests/cmcs/adjudicator.spec.ts:181-213 | over any sequence of calls an existing dispute is never removed and its stored nonce never decreases |
| `AdjudicatorProperties.StoredStateWasSigned` | modules/contracts/src.ts/tests/cmcs/adjudicator.spec.ts:148-158 | over any sequence of calls the stored hash, nonce and merkle root are the previous ones or those of a disputed state of this channel that both alice and bob signed |
| `AdjudicatorProperties.FrozenDuringDefundPhase` | modules/contracts/src.ts/tests/cmcs/adjudicator.spec.ts:160-179 | for calls mined inside the defund window the commitment and both expiries never change and the defund nonce only grows |
| `AdjudicatorProperties.DefundNotReplayable` | modules/contracts/src.ts/tests/cmcs/adjudicator.spec.ts:274-280 | after a successful defund of a state, defunding it again fails whatever calls intervene in the window, and inside the window it fails as already defunded |
| `AdjudicatorProperties.PhaseWindows` | modules/contracts/src.ts/tests/cmcs/adjudicator.spec.ts:218-235 | a dispute opened at block B is in its consensus phase exactly before B + timeout and in its defund phase exactly from B + timeout up to B + 2*timeout |
| `AdjudicatorProperties.StaleStateRejected` | modules/contracts/src.ts/tests/cmcs/adjudicator.spec.ts:181-189 | a state whose nonce is not above the disputed one is refused as "New nonce smaller than stored one" during the consensus phase and the record is unchanged |
| `AdjudicatorProperties.ChangedStateRejected` | modules/contracts/src.ts/tests/cmcs/adjudicator.spec.ts:258-263 | a state hashing differently from the disputed one is never defunded |
| `AdjudicatorProperties.ZeroDefundNonceNeverDefunds` | modules/contracts/src.ts/tests/cmcs/adjudicator.spec.ts:274-280 | a state disputed with defund nonce 0 stores 2^256 - 1; after any further calls a defund of it fails, and inside the defund window it fails as "channel already defunded" |

## Left out

- The per-transfer dispute and defund (`disputeTransfer`, `defundTransfer`): those test suites are skipped and empty, so they assert no behaviour.
- Keccak hashing of the core state and ECDSA recovery: foreign library calls, modelled as an abstract hash function and one validity flag per signer.
- Detecting unreconciled deposits on chain (channel balance versus `depositAlice` bookkeeping in `fundChannel`): the amounts are inputs to `DefundChannel`.
- Moving ETH and ERC-20 tokens, mining blocks, providers, promises and token minting: ledger plumbing. Payouts are returned as values, and the block number is a parameter.
- The `to` recipients of each balance entry: payouts go to the channel's alice and bob, whose balances the tests measure.
- `Adjudicator.DisputeStep`: 256-bit overflow of `block + timeout` and `block + 2*timeout` is not modelled; the tests never reach it, so whether the contract reverts or wraps there is not known from them. Block numbers, nonces and timeouts are unbounded naturals here, and only the defund nonce's predecessor wraps.
- `Adjudicator.ComputePayouts`: 256-bit overflow of balance plus unreconciled deposit is not modelled; the tests never reach it either, so whether the contract reverts or wraps there is not known from them.
- The deployment and wallet commands (`fund`, `migrate`, `newToken`) and the re-exports of the types package: plumbing with no logic.
