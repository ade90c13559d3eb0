# fact-gpt-solana, modelled in Dafny

This project models the Anchor program `fact_gpt_solana`, which has two instructions.

- `initialize` creates the program's two singleton records: `StateAccount` at the address derived from the seed `"state_account"`, and `MuonInfo` at the address derived from `"muon_info"`. It fills them from its arguments: the owner, the muon application info (group public key and application id) and the address of the muon program.
- `set_outcome` builds the message the muon oracle group signs for a boolean outcome. That message is the application id as 32 big-endian bytes, then the request id bytes, then the outcome as the text `true` or `false`. It hashes the message with Keccak-256 and reads the digest as a big-endian 256-bit number. It then calls `verify` on the muon program whose address was stored at setup, passing the request id, that number, the signature and the stored group key. It returns the verifier's answer unchanged and writes nothing.

Modules:

- `Uint256` (`uint256.dfy`): bytes, 256-bit numbers, big-endian encoding and decoding with their round trips, and the in-place `to_big_endian`.
- `Keccak`: the incremental hasher. The Keccak permutation itself is a function the caller supplies.
- `Runtime`: account addresses, Anchor's error results, and `Result`/`Option`.
- `Muon`: the muon crate's types. The `verify` call is a function from the call it receives to its result.
- `FactGptSolana`: the records, the seed-keyed ledger, `initialize` and `set_outcome`, and the properties of the message.

The ledger is the class `Ledger`, whose field is a map from seed to record. `Initialize` changes that map and is proved equal to the pure step `InitializeStep`. `SetOutcome` has no `modifies` clause, so Dafny checks that it changes nothing. It returns the instruction's result and the cross-program call it made, if any. That shows the verifier is not called at all when Anchor's account checks reject the instruction.

The program has no prompt, deadline or stored outcome: `StateAccount` holds only `initialized` and `owner`, and `set_outcome` checks no time and stores nothing.

## Model

| member | source | states |
|---|---|---|
| `Uint256.ToBigEndian` | solana/programs/fact-gpt-solana/src/lib.rs:52-53 | the `width` low-order bytes of `n` in big-endian order, exactly `width` of them: the `be32(app_id)` that `to_big_endian` writes |
| `Uint256.FromBigEndian` | solana/programs/fact-gpt-solana/src/lib.rs:62 | reading n bytes big-endian gives a number below 256^n, so a 32-byte digest always fits a U256 |
| `Uint256.FromToBigEndian` | solana/programs/fact-gpt-solana/src/lib.rs:52-53 | decoding the big-endian bytes of a value that fits the width gives back the value, so the 32 bytes of `app_id` decode to `app_id` |
| `Uint256.ToFromBigEndian` | solana/programs/fact-gpt-solana/src/lib.rs:62 | writing a decoded byte string back at its own width gives the same bytes |
| `Uint256.FromBigEndianInjective` | solana/programs/fact-gpt-solana/src/lib.rs:62 | two byte strings of equal length that read as the same number are equal |
| `Uint256.LeftZeroPadded` | solana/programs/fact-gpt-solana/src/lib.rs:52-53 | a value below 256^k fills only the last k bytes of its encoding; every earlier byte is zero |
| `Uint256.WriteBigEndian` | solana/programs/fact-gpt-solana/src/lib.rs:52-53 | `to_big_endian` leaves the 32-byte buffer holding exactly the big-endian bytes of the value |
| `Keccak.Hasher.constructor` | solana/programs/fact-gpt-solana/src/lib.rs:50 | a new hasher has absorbed nothing and uses the given digest function |
| `Keccak.Hasher.Update` | solana/programs/fact-gpt-solana/src/lib.rs:55-59 | each `update` appends its bytes to the message, with no separator |
| `Keccak.Hasher.Finalize` | solana/programs/fact-gpt-solana/src/lib.rs:60 | `finalize` gives the digest of exactly the bytes absorbed, in order |
| `FactGptSolana.InitializeStep` | solana/programs/fact-gpt-solana/src/lib.rs:19-34 | succeeds iff neither seed holds an account; on success it stores `StateAccount(initialized = false, owner)` and `MuonInfo(app_info, program_id)` and keeps every other key; on failure it returns `AccountAlreadyInUse` and changes nothing |
| `FactGptSolana.InitializeOnce` | solana/programs/fact-gpt-solana/src/lib.rs:88-103 | after a successful `initialize`, any second `initialize` fails with `AccountAlreadyInUse` and leaves the first call's records |
| `FactGptSolana.InitializeKeepsWellFormed` | solana/programs/fact-gpt-solana/src/lib.rs:86-107 | `initialize` keeps the invariant that both records exist, each of its own type, or neither does |
| `FactGptSolana.Ledger.Initialize` | solana/programs/fact-gpt-solana/src/lib.rs:19-34 | the in-place instruction returns the result of `InitializeStep` on the old ledger and leaves the ledger it gives; it keeps the ledger well formed |
| `FactGptSolana.AsciiBytes` | solana/programs/fact-gpt-solana/src/lib.rs:59 | an ASCII string is hashed as one byte per character, equal to the character's code |
| `FactGptSolana.OutcomeBytes` | solana/programs/fact-gpt-solana/src/lib.rs:59 | `outcome.to_string()` is hashed as the bytes 74 72 75 65 ("true") or 66 61 6C 73 65 ("false") |
| `FactGptSolana.OutcomeIsText` | solana/programs/fact-gpt-solana/src/lib.rs:59 | the outcome takes 4 or 5 bytes, never a single 0/1 byte, and the two outcomes are encoded differently |
| `FactGptSolana.Preimage` | solana/programs/fact-gpt-solana/src/lib.rs:52-59 | the hashed message is 32 bytes plus the request id's length plus the outcome text's length |
| `FactGptSolana.PreimageLayout` | solana/programs/fact-gpt-solana/src/lib.rs:52-59 | the message is the application id's 32 big-endian bytes (which decode back to it), then the request id, then the outcome text, in that order |
| `FactGptSolana.PreimageInjective` | solana/programs/fact-gpt-solana/src/lib.rs:52-59 | equal messages have equal application ids, request ids and outcomes |
| `FactGptSolana.OutcomesGiveDifferentPreimages` | solana/programs/fact-gpt-solana/src/lib.rs:59 | for the same application id and request id, `true` and `false` give different messages |
| `FactGptSolana.MessageHash` | solana/programs/fact-gpt-solana/src/lib.rs:60-62 | `msg_hash` is a function of `(app_id, req_id, outcome)` alone, and its 32-byte big-endian form is exactly the Keccak-256 digest of the message |
| `FactGptSolana.MessageHashBinds` | solana/programs/fact-gpt-solana/src/lib.rs:50-62 | two different (application, request, outcome) triples have the same `msg_hash` only if their two messages collide under Keccak-256 |
| `FactGptSolana.HashMessage` | solana/programs/fact-gpt-solana/src/lib.rs:50-62 | the buffer, the three updates, `finalize` and the conversion to U256 together compute `MessageHash` |
| `FactGptSolana.LoadMuonInfo` | solana/programs/fact-gpt-solana/src/lib.rs:111-115 | `muon_info` loads iff the fixed seed holds a `MuonInfo`; otherwise it fails with `AccountNotInitialized` (nothing there) or `AccountDiscriminatorMismatch` (another record type) |
| `FactGptSolana.InitializeThenLoad` | solana/programs/fact-gpt-solana/src/lib.rs:29-30 | after a successful `initialize`, `set_outcome` loads exactly the application info and program id that were stored |
| `FactGptSolana.WellFormedLoads` | solana/programs/fact-gpt-solana/src/lib.rs:109-115 | in a well-formed ledger, `muon_info` loads exactly when the instance has been initialized |
| `FactGptSolana.Ledger.SetOutcome` | solana/programs/fact-gpt-solana/src/lib.rs:36-64 | a failed account load, a program account that is not the muon program (`InvalidProgramId`), or one that is not the stored `program_id` (`ConstraintAddress`) is returned with no verifier call; otherwise exactly one call goes to the stored `program_id`, carrying `(req_id, msg_hash, sign, group_pub_key)`, and its result is returned unchanged; no account changes |

## Left out

- Keccak-256 itself (the `sha3` crate): the digest is a function the caller supplies, from any byte string to 32 bytes. Collision resistance is not assumed; `MessageHashBinds` states what a collision would take.
- The muon `verify` instruction and its Schnorr threshold-signature check are foreign code. The verifier is a function from the call to its result.
- The internal layouts of `GroupPubKey`, `SchnorrSign` and `MuonRequestId` are not modelled. Each is an opaque value passed through unchanged, and the request id is its byte string `val`.
- `U256` internals are not modelled: a U256 is a natural number below 2^256. `to_big_endian` writes 64-bit words, while `WriteBigEndian` writes one byte at a time; the bytes that result are the same.
- Anchor account plumbing is not modelled:
  - the payer, rent and `space` sizes;
  - the discriminator bytes, which become the record kind in `Account`;
  - bump and address derivation: a seed stands for the address derived from it;
  - account ownership and serialisation;
  - the `Signer` checks on `owner` and `user`;
  - the executable check on `muon_program`;
  - the `system_program` account carried by the CPI context.
- The transaction's atomicity is assumed rather than modelled: a failed `initialize` changes nothing, as if nothing had been written.
- `Ledger.SetOutcome` does not show that no hashing happens before a rejection, since the hash cannot be observed. It shows only that no verifier call is made.
- `solana/tests/fact-gpt-solana.ts` is client tooling that asserts nothing. It is not part of this model.
