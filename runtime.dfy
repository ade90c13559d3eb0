/** What the program sees of the Solana runtime and of Anchor: account
    addresses and the error results an instruction can end with. */
module Runtime {
  import opened Uint256

  /** A Solana account address. */
  datatype Pubkey = Pubkey(bytes: seq<byte>)

  /** `Pubkey::default()`: 32 zero bytes. */
  const ZeroPubkey: Pubkey := Pubkey(ToBigEndian(0, 32))

  /** The ways an instruction can fail.  `AccountAlreadyInUse` is the System
      Program's error, returned through the account creation that Anchor's
      `init` performs; the next four are raised by Anchor's account checks;
      `Custom` carries an error code raised inside another program reached by
      a cross-program call. */
  datatype ProgramError =
    | AccountAlreadyInUse           // `init` on an address that already holds an account
    | AccountNotInitialized         // a typed account that does not exist yet
    | AccountDiscriminatorMismatch  // a typed account that holds another record type
    | InvalidProgramId              // a `Program<'info, P>` that is not program P
    | ConstraintAddress             // an `address = ...` constraint that does not hold
    | Custom(code: nat)

  /** Anchor's `Result<T>`. */
  datatype Result<T> = Ok(value: T) | Err(error: ProgramError)

  /** The `Result<()>` every instruction returns. */
  type ProgramResult = Result<()>

  datatype Option<T> = None | Some(value: T)
}
