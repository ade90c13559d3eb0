/** The `fact_gpt_solana` program: `initialize` creates the two records of
    the single instance at fixed seeds, and `set_outcome` rebuilds the message
    the muon oracle group signed for an outcome and has the muon program
    whose address was stored at setup check the signature. */
module FactGptSolana {
  import opened Uint256
  import opened Keccak
  import opened Runtime
  import opened Muon

  /** `StateAccount`. */
  datatype StateAccount = StateAccount(initialized: bool, owner: Pubkey)

  /** `StateAccount::default()`. */
  const DefaultStateAccount: StateAccount := StateAccount(false, ZeroPubkey)

  /** `MuonAppInfo`: the oracle application and its group key. */
  datatype MuonAppInfo = MuonAppInfo(groupPubKey: GroupPubKey, appId: U256Wrap)

  /** `MuonInfo`: the oracle binding, including where the verifier lives. */
  datatype MuonInfo = MuonInfo(appInfo: MuonAppInfo, programId: Pubkey)

  /** What the ledger holds at one of the program's derived addresses. */
  datatype Account = StateRecord(state: StateAccount) | MuonRecord(info: MuonInfo)

  /** The seed an address is derived from; the program's two records live at
      the addresses derived from two fixed seeds. */
  type Seed = string

  const StateSeed: Seed := "state_account"
  const MuonInfoSeed: Seed := "muon_info"

  /** The ledger holds either both records, each of its own type, or neither. */
  ghost predicate WellFormed(accounts: map<Seed, Account>)
  {
    && (StateSeed in accounts <==> MuonInfoSeed in accounts)
    && (StateSeed in accounts ==> accounts[StateSeed].StateRecord?)
    && (MuonInfoSeed in accounts ==> accounts[MuonInfoSeed].MuonRecord?)
  }

  // ---------------------------------------------------------------- initialize

  /** The result of `initialize` and the ledger after it.  Both records are
      created with `init`, so the instruction fails, and changes nothing, when
      either address is taken. */
  function InitializeStep(accounts: map<Seed, Account>, owner: Pubkey,
                          appInfo: MuonAppInfo, muonProgram: Pubkey)
    : (r: (ProgramResult, map<Seed, Account>))
    ensures r.0.Ok? <==> StateSeed !in accounts && MuonInfoSeed !in accounts
    ensures r.0.Err? ==> r.0.error == AccountAlreadyInUse && r.1 == accounts
    ensures r.0.Ok? ==>
      && r.1.Keys == accounts.Keys + {StateSeed, MuonInfoSeed}
      && r.1[StateSeed] == StateRecord(StateAccount(false, owner))
      && r.1[MuonInfoSeed] == MuonRecord(MuonInfo(appInfo, muonProgram))
    ensures forall s | s in accounts && s != StateSeed && s != MuonInfoSeed :: s in r.1 && r.1[s] == accounts[s]
  {
    if StateSeed in accounts || MuonInfoSeed in accounts then
      (Err(AccountAlreadyInUse), accounts)
    else
      var state := DefaultStateAccount.(owner := owner);
      var info := MuonInfo(appInfo, muonProgram);
      (Ok(()), accounts[StateSeed := StateRecord(state)][MuonInfoSeed := MuonRecord(info)])
  }

  /** A second `initialize` always fails and leaves the records of the first. */
  lemma InitializeOnce(accounts: map<Seed, Account>,
                       owner: Pubkey, appInfo: MuonAppInfo, muonProgram: Pubkey,
                       owner': Pubkey, appInfo': MuonAppInfo, muonProgram': Pubkey)
    requires InitializeStep(accounts, owner, appInfo, muonProgram).0.Ok?
    ensures var after := InitializeStep(accounts, owner, appInfo, muonProgram).1;
      InitializeStep(after, owner', appInfo', muonProgram') == (Err(AccountAlreadyInUse), after)
  {
  }

  /** `initialize` keeps the ledger well formed. */
  lemma InitializeKeepsWellFormed(accounts: map<Seed, Account>, owner: Pubkey,
                                  appInfo: MuonAppInfo, muonProgram: Pubkey)
    requires WellFormed(accounts)
    ensures WellFormed(InitializeStep(accounts, owner, appInfo, muonProgram).1)
  {
  }

  // ------------------------------------------------------------ the message

  /** The bytes of a string of ASCII characters (its UTF-8 encoding, since
      every character is below 128). */
  function AsciiBytes(s: string): (b: seq<byte>)
    requires forall i | 0 <= i < |s| :: s[i] as int < 128
    ensures |b| == |s|
    ensures forall i | 0 <= i < |s| :: b[i] == s[i] as int
  {
    if s == [] then [] else [s[0] as int] + AsciiBytes(s[1..])
  }

  /** The outcome as the oracle hashes it: `bool::to_string`, the lower-case
      words "true" and "false", in ASCII. */
  function OutcomeBytes(outcome: bool): (b: seq<byte>)
    ensures b == if outcome then [0x74, 0x72, 0x75, 0x65] else [0x66, 0x61, 0x6C, 0x73, 0x65]
  {
    AsciiBytes(if outcome then "true" else "false")
  }

  /** The outcome is text, not one 0/1 byte, and the two outcomes differ. */
  lemma OutcomeIsText(outcome: bool)
    ensures |OutcomeBytes(outcome)| == (if outcome then 4 else 5)
    ensures OutcomeBytes(outcome) != [if outcome then 1 else 0]
    ensures OutcomeBytes(outcome) != OutcomeBytes(!outcome)
  {
  }

  /** The message `set_outcome` hashes: the application id as 32 big-endian
      bytes, then the request id, then the outcome text, with no separators. */
  function Preimage(appId: U256, reqId: MuonRequestId, outcome: bool): (p: seq<byte>)
    ensures |p| == 32 + |reqId.val| + |OutcomeBytes(outcome)|
  {
    ToBigEndian(appId, 32) + reqId.val + OutcomeBytes(outcome)
  }

  /** Where each field sits in the preimage; the first 32 bytes read back as
      the application id, zero-padded on the left. */
  lemma PreimageLayout(appId: U256, reqId: MuonRequestId, outcome: bool)
    ensures var p := Preimage(appId, reqId, outcome);
      && p[..32] == ToBigEndian(appId, 32)
      && FromBigEndian(p[..32]) == appId
      && p[32..32 + |reqId.val|] == reqId.val
      && p[32 + |reqId.val|..] == OutcomeBytes(outcome)
  {
    var p, be, id, text := Preimage(appId, reqId, outcome), ToBigEndian(appId, 32), reqId.val, OutcomeBytes(outcome);
    assert p == be + id + text;
    assert p[..32] == be;
    assert p[32..32 + |id|] == id;
    assert p[32 + |id|..] == text;
    FromToBigEndian(appId, 32);
  }

  /** The preimage determines the application, the request and the outcome:
      no two different triples share one. */
  lemma PreimageInjective(appId: U256, reqId: MuonRequestId, outcome: bool,
                          appId': U256, reqId': MuonRequestId, outcome': bool)
    requires Preimage(appId, reqId, outcome) == Preimage(appId', reqId', outcome')
    ensures appId == appId' && reqId == reqId' && outcome == outcome'
  {
    var p, text, text' := Preimage(appId, reqId, outcome), OutcomeBytes(outcome), OutcomeBytes(outcome');
    assert p == (ToBigEndian(appId, 32) + reqId.val) + text;
    assert p == (ToBigEndian(appId', 32) + reqId'.val) + text';
    // The fourth byte from the end is 't' for "true" and 'a' for "false".
    assert p[|p| - 4] == text[|text| - 4] == text'[|text'| - 4];
    assert outcome == outcome';
    PreimageLayout(appId, reqId, outcome);
    PreimageLayout(appId', reqId', outcome');
  }

  /** For the same application and request, the two outcomes give different
      preimages. */
  lemma OutcomesGiveDifferentPreimages(appId: U256, reqId: MuonRequestId)
    ensures Preimage(appId, reqId, true) != Preimage(appId, reqId, false)
  {
    if Preimage(appId, reqId, true) == Preimage(appId, reqId, false) {
      PreimageInjective(appId, reqId, true, appId, reqId, false);
    }
  }

  /** `msg_hash`: the Keccak-256 digest of the preimage read as a big-endian
      256-bit number, which loses nothing of the digest: its 32-byte
      big-endian form is the digest itself. */
  function MessageHash(keccak: seq<byte> -> Digest, appId: U256,
                       reqId: MuonRequestId, outcome: bool): (h: U256)
    ensures ToBigEndian(h, 32) == keccak(Preimage(appId, reqId, outcome))
  {
    var digest := keccak(Preimage(appId, reqId, outcome));
    ToFromBigEndian(digest);
    FromBigEndian(digest)
  }

  /** Two preimages that are different messages with the same digest. */
  ghost predicate Collision(keccak: seq<byte> -> Digest, x: seq<byte>, y: seq<byte>)
  {
    x != y && keccak(x) == keccak(y)
  }

  /** Two different (application, request, outcome) triples share a message
      hash only through a Keccak-256 collision, so a signature over one
      outcome is a signature over the other only if Keccak-256 collides. */
  lemma MessageHashBinds(keccak: seq<byte> -> Digest,
                         appId: U256, reqId: MuonRequestId, outcome: bool,
                         appId': U256, reqId': MuonRequestId, outcome': bool)
    requires (appId, reqId, outcome) != (appId', reqId', outcome')
    requires MessageHash(keccak, appId, reqId, outcome) == MessageHash(keccak, appId', reqId', outcome')
    ensures Collision(keccak, Preimage(appId, reqId, outcome), Preimage(appId', reqId', outcome'))
  {
    FromBigEndianInjective(keccak(Preimage(appId, reqId, outcome)), keccak(Preimage(appId', reqId', outcome')));
    if Preimage(appId, reqId, outcome) == Preimage(appId', reqId', outcome') {
      PreimageInjective(appId, reqId, outcome, appId', reqId', outcome');
    }
  }

  // ----------------------------------------------------------- set_outcome

  /** Anchor's loading of `muon_info` in `SetOutcome`: the account at the
      fixed seed, which must exist and hold a `MuonInfo`. */
  function LoadMuonInfo(accounts: map<Seed, Account>): (r: Result<MuonInfo>)
    ensures r.Ok? <==> MuonInfoSeed in accounts && accounts[MuonInfoSeed].MuonRecord?
    ensures r.Ok? ==> accounts[MuonInfoSeed] == MuonRecord(r.value)
    ensures r.Err? ==> r.error == if MuonInfoSeed in accounts then AccountDiscriminatorMismatch else AccountNotInitialized
  {
    if MuonInfoSeed !in accounts then Err(AccountNotInitialized)
    else match accounts[MuonInfoSeed]
      case MuonRecord(info) => Ok(info)
      case StateRecord(_) => Err(AccountDiscriminatorMismatch)
  }

  /** After a successful `initialize`, `set_outcome` finds exactly the
      binding that was stored. */
  lemma InitializeThenLoad(accounts: map<Seed, Account>, owner: Pubkey,
                           appInfo: MuonAppInfo, muonProgram: Pubkey)
    requires InitializeStep(accounts, owner, appInfo, muonProgram).0.Ok?
    ensures LoadMuonInfo(InitializeStep(accounts, owner, appInfo, muonProgram).1)
         == Ok(MuonInfo(appInfo, muonProgram))
  {
  }

  /** In a well-formed ledger the binding loads exactly when it exists. */
  lemma WellFormedLoads(accounts: map<Seed, Account>)
    requires WellFormed(accounts)
    ensures LoadMuonInfo(accounts).Ok? <==> StateSeed in accounts
  {
  }

  /** The hashing steps of `set_outcome`: the application id written into a
      zeroed 32-byte buffer, three `update`s in order, `finalize`, and the
      digest read as a number. */
  method HashMessage(keccak: seq<byte> -> Digest, appId: U256,
                     reqId: MuonRequestId, outcome: bool) returns (msgHash: U256)
    ensures msgHash == MessageHash(keccak, appId, reqId, outcome)
  {
    var hasher := new Hasher(keccak);
    // Contents arbitrary: `WriteBigEndian` overwrites every byte, as
    // `to_big_endian` does with the zeroed buffer.
    var bytes := new byte[32];
    WriteBigEndian(appId, bytes);
    hasher.Update(bytes[..]);
    hasher.Update(reqId.val);
    hasher.Update(OutcomeBytes(outcome));
    assert hasher.absorbed == ToBigEndian(appId, 32) + reqId.val + OutcomeBytes(outcome);
    var result := hasher.Finalize();
    assert result == keccak(Preimage(appId, reqId, outcome));
    msgHash := FromBigEndian(result);
  }

  /** The ledger: every account at the program's derived addresses. */
  class Ledger {
    var accounts: map<Seed, Account>

    constructor (accounts: map<Seed, Account>)
      ensures this.accounts == accounts
    {
      this.accounts := accounts;
    }

    /** `initialize`: creates both records, with `owner` (the argument, not
        the paying signer), the oracle application and the muon program. */
    method Initialize(owner: Pubkey, appInfo: MuonAppInfo, muonProgram: Pubkey)
      returns (r: ProgramResult)
      modifies this
      ensures (r, accounts) == InitializeStep(old(accounts), owner, appInfo, muonProgram)
      ensures WellFormed(old(accounts)) ==> WellFormed(accounts)
    {
      if StateSeed in accounts || MuonInfoSeed in accounts {
        return Err(AccountAlreadyInUse);
      }
      // `init` creates `state_account` as its default value; both fields
      // of `muon_info` are assigned.
      var stateAccount := DefaultStateAccount;
      stateAccount := stateAccount.(owner := owner);
      var muonInfo := MuonInfo(appInfo, muonProgram);
      accounts := accounts[StateSeed := StateRecord(stateAccount)][MuonInfoSeed := MuonRecord(muonInfo)];
      r := Ok(());
    }

    /** `set_outcome`.  `muonProgram` is the program account the caller
        passes, `muonId` the address the muon crate declares, `keccak` the
        hash and `verify` the answer of whichever program is called.
        `issued` is the cross-program call made, if any.  The method has no
        `modifies` clause: it changes no account. */
    method SetOutcome(keccak: seq<byte> -> Digest, verify: Verifier,
                      muonId: Pubkey, muonProgram: Pubkey, user: Pubkey,
                      outcome: bool, reqId: MuonRequestId, sign: SchnorrSign)
      returns (r: ProgramResult, issued: Option<VerifyCall>)
      ensures LoadMuonInfo(accounts).Err? ==>
        r == Err(LoadMuonInfo(accounts).error) && issued == None
      ensures LoadMuonInfo(accounts).Ok? && muonProgram != muonId ==>
        r == Err(InvalidProgramId) && issued == None
      ensures LoadMuonInfo(accounts).Ok? && muonProgram == muonId ==>
        var info := LoadMuonInfo(accounts).value;
        if muonProgram != info.programId then
          r == Err(ConstraintAddress) && issued == None
        else
          && issued == Some(VerifyCall(info.programId, user, reqId,
                                       U256Wrap(MessageHash(keccak, info.appInfo.appId.val, reqId, outcome)),
                                       sign, info.appInfo.groupPubKey))
          && r == verify(issued.value)
    {
      var loaded := LoadMuonInfo(accounts);
      if loaded.Err? {
        return Err(loaded.error), None;
      }
      var muonInfo := loaded.value;
      if muonProgram != muonId {
        return Err(InvalidProgramId), None;
      }
      if muonProgram != muonInfo.programId {
        return Err(ConstraintAddress), None;
      }
      var msgHash := HashMessage(keccak, muonInfo.appInfo.appId.val, reqId, outcome);
      issued := Some(VerifyCall(muonProgram, user, reqId, U256Wrap(msgHash), sign, muonInfo.appInfo.groupPubKey));
      r := verify(issued.value);
    }
  }
}
