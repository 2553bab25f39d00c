/** The extension over many transactions: any sequence of its state-changing
    entry points, each run by its own caller against the ledger the previous
    one left.  (GenerateKeyPair, GetPrivateKey and BlindToken take no ledger
    to change and return none, so they cannot appear here.) */
module Protocol {
  import opened Host
  import opened Config
  import opened Payment

  datatype Call =
    | SavePrivateKey
    | SavePublicKey(public: string)
    | SetBankAccount(account: string)
    | DebitMyAccount(blinded: string)

  /** One transaction: who calls, with which transient map and stub faults,
      and what. */
  datatype Tx = Tx(context: Context, call: Call)

  function Apply(base: BaseContract, w: World, tx: Tx): Effect {
    match tx.call
    case SavePrivateKey => SavePrivateKeyEffect(tx.context, w)
    case SavePublicKey(public) => SavePublicKeyEffect(tx.context, w, public)
    case SetBankAccount(account) => SetBankAccountEffect(tx.context, w, account)
    case DebitMyAccount(blinded) => DebitMyAccountEffect(tx.context, w, base, blinded)
  }

  /** How many transactions of the run debit `blinded` successfully. */
  function Debits(base: BaseContract, w: World, txs: seq<Tx>, blinded: string): nat
    decreases |txs|
  {
    if txs == [] then 0
    else
      var e := Apply(base, w, txs[0]);
      (if txs[0].call == DebitMyAccount(blinded) && e.outcome.Pass? then 1 else 0)
      + Debits(base, e.world, txs[1..], blinded)
  }

  /** The name under which a configuration call reports an unauthorized caller. */
  function Name(call: Call): string {
    match call
    case SavePrivateKey => "SavePrivateKey"
    case SavePublicKey(_) => "SavePublicKey"
    case SetBankAccount(_) => "SetBankAccount"
    case DebitMyAccount(_) => "DebitMyAccount"
  }

  /** A configuration call by anyone but the issuer, or whose caller's MSP id
      cannot be resolved, fails with the guard's error and changes nothing. */
  lemma UnauthorizedChangesNothing(base: BaseContract, w: World, tx: Tx)
    requires !tx.call.DebitMyAccount?
    requires tx.context.mspId != Ok(BANK_ORG)
    ensures Apply(base, w, tx).world == w
    ensures tx.context.mspId.Err? ==>
              Apply(base, w, tx).outcome == Fail("failed to get MSPID: " + tx.context.mspId.msg)
    ensures tx.context.mspId.Ok? ==>
              Apply(base, w, tx).outcome == Fail("client is not authorized to call " + Name(tx.call))
  {
  }

  /** DebitMyAccount makes no caller check: who calls changes neither what it
      writes nor, unless the base contract's Transfer itself tells callers
      apart, whether it succeeds. */
  lemma DebitIgnoresCaller(base: BaseContract, c1: Context, c2: Context, w: World, blinded: string)
    requires c1.faults == c2.faults
    ensures DebitMyAccountEffect(c1, w, base, blinded).world == DebitMyAccountEffect(c2, w, base, blinded).world
    ensures (forall st, to, n :: base.transfer(c1, st, to, n) == base.transfer(c2, st, to, n)) ==>
              DebitMyAccountEffect(c1, w, base, blinded).outcome == DebitMyAccountEffect(c2, w, base, blinded).outcome
  {
  }

  /** A private key saved by the issuer is what the issuer then gets back. */
  lemma PrivateKeyRoundTrip(c: Context, c': Context, w: World)
    requires c.mspId == Ok(BANK_ORG) && c.transient.Ok? && "key" in c.transient.value
    requires (BANK_PDC, BANK_ORG) !in c.faults.putPrivate
    requires c'.mspId == Ok(BANK_ORG) && (BANK_PDC, BANK_ORG) !in c'.faults.getPrivate
    ensures GetPrivateKey(c', SavePrivateKeyEffect(c, w).world) == Ok(c.transient.value["key"])
  {
  }

  /** Debiting one blinded value leaves the debit proof of every other
      blinded value as it was, so it can neither block nor forge another
      value's debit. */
  lemma DebitsIndependent(base: BaseContract, c: Context, w: World, b1: string, b2: string)
    requires b1 != b2
    ensures Stored(DebitMyAccountEffect(c, w, base, b1).world, DebitProofKey(b2)) == Stored(w, DebitProofKey(b2))
  {
    DebitProofKeyInjective(b1, b2);
  }

  /** Once a non-empty debit proof is stored for `blinded`, every transaction
      keeps it unchanged, and none debits `blinded` successfully. */
  lemma ProofPersists(base: BaseContract, w: World, tx: Tx, blinded: string)
    requires Stored(w, DebitProofKey(blinded)) != ""
    ensures Stored(Apply(base, w, tx).world, DebitProofKey(blinded)) == Stored(w, DebitProofKey(blinded))
    ensures !(tx.call == DebitMyAccount(blinded) && Apply(base, w, tx).outcome.Pass?)
  {
    KeysDisjoint(blinded);
    match tx.call
    case DebitMyAccount(other) =>
      if other != blinded {
        DebitsIndependent(base, tx.context, w, other, blinded);
      }
    case _ =>
  }

  /** A successful debit of a non-empty blinded value leaves that value as
      its proof. */
  lemma DebitStoresProof(base: BaseContract, w: World, tx: Tx, blinded: string)
    requires blinded != ""
    requires tx.call == DebitMyAccount(blinded) && Apply(base, w, tx).outcome.Pass?
    ensures Stored(Apply(base, w, tx).world, DebitProofKey(blinded)) == blinded
  {
  }

  /** Over any run, a non-empty blinded value is debited successfully at most
      once, and not at all if its proof was already stored. */
  lemma {:induction false} AtMostOneDebit(base: BaseContract, w: World, txs: seq<Tx>, blinded: string)
    requires blinded != ""
    ensures Debits(base, w, txs, blinded) <= if Stored(w, DebitProofKey(blinded)) == "" then 1 else 0
    decreases |txs|
  {
    if txs != [] {
      var e := Apply(base, w, txs[0]);
      AtMostOneDebit(base, e.world, txs[1..], blinded);
      if Stored(w, DebitProofKey(blinded)) != "" {
        ProofPersists(base, w, txs[0], blinded);
      } else if txs[0].call == DebitMyAccount(blinded) && e.outcome.Pass? {
        DebitStoresProof(base, w, txs[0], blinded);
      }
    }
  }

  /** A second debit of the same non-empty blinded value fails with the
      double-debit error, after the first stored its proof.  (In the model
      the proof stays even when the first debit's transfer failed; Fabric
      would discard that transaction's writes.) */
  lemma DebitTwiceFails(base: BaseContract, c1: Context, c2: Context, w: World, blinded: string)
    requires blinded != ""
    requires DebitMyAccountEffect(c1, w, base, blinded).world != w
    requires BANK_ACCOUNT !in c2.faults.getState && DebitProofKey(blinded) !in c2.faults.getState
    ensures DebitMyAccountEffect(c2, DebitMyAccountEffect(c1, w, base, blinded).world, base, blinded)
              == Effect(Fail(DOUBLE_DEBIT), DebitMyAccountEffect(c1, w, base, blinded).world)
  {
  }

  /** The source's debit lets the empty blinded value through twice: the
      proof it stores is empty, and an empty proof reads as no proof. */
  lemma EmptyBlindedDebitsTwice(base: BaseContract, c: Context, w: World)
    requires BANK_ACCOUNT !in c.faults.getState
    requires DebitProofKey("") !in c.faults.getState && DebitProofKey("") !in c.faults.putState
    requires Stored(w, DebitProofKey("")) == ""
    requires forall st :: base.transfer(c, st, Stored(w, BANK_ACCOUNT), 1) == Pass
    ensures var e1 := DebitMyAccountEffect(c, w, base, "");
            var e2 := DebitMyAccountEffect(c, e1.world, base, "");
            && e1.outcome == Pass && e2.outcome == Pass
            && e2.world.transfers == w.transfers + [TransferCall(Stored(w, BANK_ACCOUNT), 1), TransferCall(Stored(w, BANK_ACCOUNT), 1)]
  {
  }

  /** With the corrected debit, a second debit of any blinded value, empty
      or not, fails after a first one succeeded; once its reads succeed, it
      fails with the double-debit error and changes nothing. */
  lemma CheckedDebitOnce(base: BaseContract, c1: Context, c2: Context, w: World, blinded: string)
    requires CheckedDebitEffect(c1, w, base, blinded).outcome.Pass?
    ensures CheckedDebitEffect(c2, CheckedDebitEffect(c1, w, base, blinded).world, base, blinded).outcome.Fail?
    ensures BANK_ACCOUNT !in c2.faults.getState && DebitProofKey(blinded) !in c2.faults.getState ==>
              CheckedDebitEffect(c2, CheckedDebitEffect(c1, w, base, blinded).world, base, blinded)
                == Effect(Fail(DOUBLE_DEBIT), CheckedDebitEffect(c1, w, base, blinded).world)
  {
  }

  /** A caller's view of one debit through the stub, then a retry by the
      same caller as a new transaction on the ledger the first one left: the
      retry is refused, and with the double-debit error once the first
      succeeded. */
  method DebitThenRetry(ctx: Stub, base: BaseContract, blinded: string) returns (first: Outcome, second: Outcome)
    requires blinded != ""
    requires BANK_ACCOUNT !in ctx.context.faults.getState && DebitProofKey(blinded) !in ctx.context.faults.getState
    modifies ctx
    ensures first.Pass? ==> second == Fail(DOUBLE_DEBIT)
    ensures second.Fail?
  {
    first := Payment.DebitMyAccount(ctx, base, blinded);
    var retry := new Stub(ctx.context, ctx.Snapshot());
    second := Payment.DebitMyAccount(retry, base, blinded);
  }
}
