/** The types of the `muon` crate that the program passes through, and its
    `verify` instruction, which the program reaches by a cross-program call.
    The threshold-signature check behind `verify` is not part of this model:
    a verifier is any function from the call it receives to its result. */
module Muon {
  import opened Uint256
  import opened Runtime

  /** `U256Wrap`: a serialisable 256-bit number. */
  datatype U256Wrap = U256Wrap(val: U256)

  /** `GroupPubKey`: the oracle group's key, forwarded and never inspected. */
  datatype GroupPubKey = GroupPubKey(encoding: seq<byte>)

  /** `SchnorrSign`: a group signature, forwarded and never inspected. */
  datatype SchnorrSign = SchnorrSign(encoding: seq<byte>)

  /** `MuonRequestId`: the bytes naming one oracle request. */
  datatype MuonRequestId = MuonRequestId(val: seq<byte>)

  /** One cross-program call of `verify`: the program it is sent to, the
      accounts it carries (the signing user) and its four arguments. */
  datatype VerifyCall = VerifyCall(
    program: Pubkey,
    user: Pubkey,
    reqId: MuonRequestId,
    msgHash: U256Wrap,
    sign: SchnorrSign,
    groupPubKey: GroupPubKey)

  /** What the program at `call.program` answers. */
  type Verifier = VerifyCall -> ProgramResult
}
