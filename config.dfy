/** Configuration of the anonymous-payment extension: the issuing
    organisation's key pair and settlement account.  Every operation first
    resolves the caller's MSP id and refuses any caller but the issuer before
    it touches the ledger. */
module Config {
  import opened Host

  /** The issuing organisation (the bank); also the public-state key under
      which its public key is kept. */
  const BANK_ORG: string := "Org1MSP"
  /** The issuer's implicit private data collection, which keeps its private key. */
  const BANK_PDC: string := "_implicit_org_" + BANK_ORG
  /** The public-state key of the settlement account. */
  const BANK_ACCOUNT: string := "account_" + BANK_ORG
  /** The prefix of every debit-proof key. */
  const DEBIT_PROOF: string := "debit_" + BANK_ORG

  /** The public-state key of the debit proof for one blinded token. */
  function DebitProofKey(blinded: string): string {
    DEBIT_PROOF + blinded
  }

  /** The issuer's public key, the settlement account and the debit proofs
      live under pairwise distinct keys, whatever the blinded value. */
  lemma KeysDisjoint(blinded: string)
    ensures BANK_ORG != BANK_ACCOUNT
    ensures DebitProofKey(blinded) != BANK_ORG
    ensures DebitProofKey(blinded) != BANK_ACCOUNT
  {
    assert BANK_ORG[0] != BANK_ACCOUNT[0];
    assert |DebitProofKey(blinded)| >= |DEBIT_PROOF| > |BANK_ORG|;
    var k := DebitProofKey(blinded);
    assert k[0] == DEBIT_PROOF[0] == 'd' != BANK_ACCOUNT[0];
  }

  /** Prefixing with DEBIT_PROOF is injective: two blinded values share a
      debit-proof key exactly when they are equal. */
  lemma DebitProofKeyInjective(b1: string, b2: string)
    ensures DebitProofKey(b1) == DebitProofKey(b2) <==> b1 == b2
  {
    if DebitProofKey(b1) == DebitProofKey(b2) {
      assert b1 == DebitProofKey(b1)[|DEBIT_PROOF|..];
      assert b2 == DebitProofKey(b2)[|DEBIT_PROOF|..];
    }
  }

  /** The error an operation returns to a caller that is not the issuer. */
  function Unauthorized(op: string): string {
    "client is not authorized to call " + op
  }

  /** The guard that opens every configuration operation named `op`: it
      passes for the issuer alone, and otherwise says why not. */
  function CheckIssuer(c: Context, op: string): (r: Outcome)
    ensures r.Pass? <==> c.mspId == Ok(BANK_ORG)
    ensures c.mspId.Err? ==> r == Fail("failed to get MSPID: " + c.mspId.msg)
    ensures c.mspId.Ok? && c.mspId.value != BANK_ORG ==> r == Fail(Unauthorized(op))
  {
    match c.mspId
    case Err(e) => Fail("failed to get MSPID: " + e)
    case Ok(id) => if id != BANK_ORG then Fail(Unauthorized(op)) else Pass
  }

  /** GenerateKeyPair returns the base64 text of the JSON form of a fresh
      private key, `key`, to the issuer alone.  It takes no ledger, so it
      writes nothing. */
  function GenerateKeyPair(c: Context, crypto: Crypto, key: PrivateKey): (r: Result<string>)
    ensures r.Ok? <==> c.mspId == Ok(BANK_ORG) && crypto.marshalPrivateKey(key).Ok?
    ensures c.mspId != Ok(BANK_ORG) ==> r == Err(CheckIssuer(c, "GenerateKeyPair").msg)
    ensures c.mspId == Ok(BANK_ORG) && crypto.marshalPrivateKey(key).Err? ==>
              r == Err("failed to marshal key: " + crypto.marshalPrivateKey(key).msg)
    ensures r.Ok? ==> r.value == crypto.encodeBase64(crypto.marshalPrivateKey(key).value)
  {
    var guard := CheckIssuer(c, "GenerateKeyPair");
    if guard.Fail? then Err(guard.msg)
    else match crypto.marshalPrivateKey(key)
      case Err(e) => Err("failed to marshal key: " + e)
      case Ok(raw) => Ok(crypto.encodeBase64(raw))
  }

  /** SavePrivateKey copies the transient field "key" into the issuer's
      private data collection under BANK_ORG; public state and transfers are
      never touched, and every failure leaves the ledger as it was. */
  function SavePrivateKeyEffect(c: Context, w: World): (r: Effect)
    ensures r.world.state == w.state && r.world.transfers == w.transfers
    ensures r.outcome.Fail? ==> r.world == w
    ensures r.outcome.Pass? <==>
              && c.mspId == Ok(BANK_ORG)
              && c.transient.Ok? && "key" in c.transient.value
              && (BANK_PDC, BANK_ORG) !in c.faults.putPrivate
    ensures r.outcome.Pass? ==>
              r.world.privateData == w.privateData[(BANK_PDC, BANK_ORG) := c.transient.value["key"]]
    ensures c.mspId != Ok(BANK_ORG) ==> r.outcome == CheckIssuer(c, "SavePrivateKey")
    ensures c.mspId == Ok(BANK_ORG) && c.transient.Err? ==>
              r.outcome == Fail("failed to get Transient field: " + c.transient.msg)
    ensures c.mspId == Ok(BANK_ORG) && c.transient.Ok? && "key" !in c.transient.value ==>
              r.outcome == Fail("key not found")
    ensures c.mspId == Ok(BANK_ORG) && c.transient.Ok? && "key" in c.transient.value
              && (BANK_PDC, BANK_ORG) in c.faults.putPrivate ==>
              r.outcome == Fail("failed to put private key: " + c.faults.putPrivate[(BANK_PDC, BANK_ORG)])
  {
    var guard := CheckIssuer(c, "SavePrivateKey");
    if guard.Fail? then Effect(guard, w)
    else match c.transient
      case Err(e) => Effect(Fail("failed to get Transient field: " + e), w)
      case Ok(tr) =>
        if "key" !in tr then Effect(Fail("key not found"), w)
        else
          var put := WritePrivate(c, w, BANK_PDC, BANK_ORG, tr["key"]);
          if put.outcome.Fail? then Effect(Fail("failed to put private key: " + put.outcome.msg), w)
          else Effect(Pass, put.world)
  }

  method SavePrivateKey(ctx: Stub) returns (err: Outcome)
    modifies ctx
    ensures Effect(err, ctx.Snapshot()) == SavePrivateKeyEffect(ctx.context, old(ctx.Snapshot()))
  {
    var guard := CheckIssuer(ctx.context, "SavePrivateKey");
    if guard.Fail? {
      return guard;
    }
    var tr := ctx.context.transient;
    if tr.Err? {
      return Fail("failed to get Transient field: " + tr.msg);
    }
    if "key" !in tr.value {
      return Fail("key not found");
    }
    var put := ctx.PutPrivateData(BANK_PDC, BANK_ORG, tr.value["key"]);
    if put.Fail? {
      return Fail("failed to put private key: " + put.msg);
    }
    return Pass;
  }

  /** SavePublicKey stores `public` verbatim under BANK_ORG and changes no
      other key; every failure leaves the ledger as it was. */
  function SavePublicKeyEffect(c: Context, w: World, public: string): (r: Effect)
    ensures r.world.privateData == w.privateData && r.world.transfers == w.transfers
    ensures r.outcome.Fail? ==> r.world == w
    ensures r.outcome.Pass? <==> c.mspId == Ok(BANK_ORG) && BANK_ORG !in c.faults.putState
    ensures r.outcome.Pass? ==> r.world.state == w.state[BANK_ORG := public]
    ensures c.mspId != Ok(BANK_ORG) ==> r.outcome == CheckIssuer(c, "SavePublicKey")
    ensures c.mspId == Ok(BANK_ORG) && BANK_ORG in c.faults.putState ==>
              r.outcome == Fail("failed to put public key: " + c.faults.putState[BANK_ORG])
  {
    var guard := CheckIssuer(c, "SavePublicKey");
    if guard.Fail? then Effect(guard, w)
    else
      var put := WriteState(c, w, BANK_ORG, public);
      if put.outcome.Fail? then Effect(Fail("failed to put public key: " + put.outcome.msg), w)
      else Effect(Pass, put.world)
  }

  method SavePublicKey(ctx: Stub, public: string) returns (err: Outcome)
    modifies ctx
    ensures Effect(err, ctx.Snapshot()) == SavePublicKeyEffect(ctx.context, old(ctx.Snapshot()), public)
  {
    var guard := CheckIssuer(ctx.context, "SavePublicKey");
    if guard.Fail? {
      return guard;
    }
    var put := ctx.PutState(BANK_ORG, public);
    if put.Fail? {
      return Fail("failed to put public key: " + put.msg);
    }
    return Pass;
  }

  /** GetPrivateKey hands the issuer, unchanged, whatever its private data
      collection keeps under BANK_ORG (empty when nothing was saved).  It
      only reads. */
  function GetPrivateKey(c: Context, w: World): (r: Result<string>)
    ensures r.Ok? <==> c.mspId == Ok(BANK_ORG) && (BANK_PDC, BANK_ORG) !in c.faults.getPrivate
    ensures r.Ok? ==> r.value == StoredPrivate(w, BANK_PDC, BANK_ORG)
    ensures c.mspId != Ok(BANK_ORG) ==> r == Err(CheckIssuer(c, "GetPrivateKey").msg)
    ensures c.mspId == Ok(BANK_ORG) && (BANK_PDC, BANK_ORG) in c.faults.getPrivate ==>
              r == Err("failed to get private data: " + c.faults.getPrivate[(BANK_PDC, BANK_ORG)])
  {
    var guard := CheckIssuer(c, "GetPrivateKey");
    if guard.Fail? then Err(guard.msg)
    else match ReadPrivate(c, w, BANK_PDC, BANK_ORG)
      case Err(e) => Err("failed to get private data: " + e)
      case Ok(key) => Ok(key)
  }

  /** SetBankAccount overwrites BANK_ACCOUNT with `account` and changes no
      other key; every failure leaves the ledger as it was.  (The put-failure
      text says "public key": the message is the source's.) */
  function SetBankAccountEffect(c: Context, w: World, account: string): (r: Effect)
    ensures r.world.privateData == w.privateData && r.world.transfers == w.transfers
    ensures r.outcome.Fail? ==> r.world == w
    ensures r.outcome.Pass? <==> c.mspId == Ok(BANK_ORG) && BANK_ACCOUNT !in c.faults.putState
    ensures r.outcome.Pass? ==> r.world.state == w.state[BANK_ACCOUNT := account]
    ensures c.mspId != Ok(BANK_ORG) ==> r.outcome == CheckIssuer(c, "SetBankAccount")
    ensures c.mspId == Ok(BANK_ORG) && BANK_ACCOUNT in c.faults.putState ==>
              r.outcome == Fail("failed to put public key: " + c.faults.putState[BANK_ACCOUNT])
  {
    var guard := CheckIssuer(c, "SetBankAccount");
    if guard.Fail? then Effect(guard, w)
    else
      var put := WriteState(c, w, BANK_ACCOUNT, account);
      if put.outcome.Fail? then Effect(Fail("failed to put public key: " + put.outcome.msg), w)
      else Effect(Pass, put.world)
  }

  method SetBankAccount(ctx: Stub, account: string) returns (err: Outcome)
    modifies ctx
    ensures Effect(err, ctx.Snapshot()) == SetBankAccountEffect(ctx.context, old(ctx.Snapshot()), account)
  {
    var guard := CheckIssuer(ctx.context, "SetBankAccount");
    if guard.Fail? {
      return guard;
    }
    var put := ctx.PutState(BANK_ACCOUNT, account);
    if put.Fail? {
      return Fail("failed to put public key: " + put.msg);
    }
    return Pass;
  }
}
