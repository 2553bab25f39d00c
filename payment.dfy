/** Payment steps of the anonymous-payment extension: the payer blinds a
    token identifier under the issuer's public key (BlindToken), then pays one
    unit to the settlement account, leaving a write-once debit proof keyed by
    the blinded value (DebitMyAccount). */
module Payment {
  import opened Host
  import opened Config

  /** The error of a second debit for one blinded value. */
  const DOUBLE_DEBIT: string := "debit operation can be only done once for one blinded token"

  // ---------------------------------------------------------------------
  // The JSON response of BlindToken
  // ---------------------------------------------------------------------

  /** The two fields of the object BlindToken returns. */
  datatype Response = Response(blinded: string, unblinder: string)

  const BLINDED_OPEN: string := "{\"Blinded\":\""
  const UNBLINDER_OPEN: string := "\",\"Unblinder\":\""
  const RESPONSE_CLOSE: string := "\"}"

  /** What `json.Marshal` produces for the struct {Blinded, Unblinder string}:
      the fields in declaration order, each a JSON string.  Base64 text holds
      no character that JSON escapes, so the field values appear as they are. */
  function ResponseJson(blinded: Base64Text, unblinder: Base64Text): string {
    BLINDED_OPEN + blinded + UNBLINDER_OPEN + unblinder + RESPONSE_CLOSE
  }

  predicate NoQuote(s: string) {
    forall i | 0 <= i < |s| :: s[i] != '"'
  }

  /** Splits `s` at its first double quote: the text before it, and the rest
      (which starts with the quote, or is empty). */
  function SplitAtQuote(s: string): (r: (string, string))
    ensures r.0 + r.1 == s && NoQuote(r.0)
    ensures r.1 == [] || r.1[0] == '"'
  {
    if s == [] || s[0] == '"' then ([], s)
    else
      var (before, after) := SplitAtQuote(s[1..]);
      assert s == [s[0]] + (before + after);
      ([s[0]] + before, after)
  }

  /** Reads back a response object of exactly the shape ResponseJson writes,
      as a client decoding BlindToken's result does. */
  function ParseResponse(s: string): Option<Response> {
    if !(BLINDED_OPEN <= s) then None
    else
      var (blinded, rest) := SplitAtQuote(s[|BLINDED_OPEN|..]);
      if !(UNBLINDER_OPEN <= rest) then None
      else
        var (unblinder, tail) := SplitAtQuote(rest[|UNBLINDER_OPEN|..]);
        if tail == RESPONSE_CLOSE then Some(Response(blinded, unblinder)) else None
  }

  lemma {:induction false} SplitAtQuoteOf(field: string, rest: string)
    requires NoQuote(field) && rest != [] && rest[0] == '"'
    ensures SplitAtQuote(field + rest) == (field, rest)
  {
    if field == [] {
      assert field + rest == rest;
    } else {
      var s := field + rest;
      assert s[0] == field[0] != '"';
      assert s[1..] == field[1..] + rest;
      assert NoQuote(field[1..]) by {
        forall i | 0 <= i < |field| - 1 ensures field[1..][i] != '"' {
          assert field[1..][i] == field[i + 1];
        }
      }
      SplitAtQuoteOf(field[1..], rest);
      assert [field[0]] + field[1..] == field;
    }
  }

  /** The response text parses back to exactly the two encoded fields. */
  lemma ResponseRoundTrip(blinded: Base64Text, unblinder: Base64Text)
    ensures ParseResponse(ResponseJson(blinded, unblinder)) == Some(Response(blinded, unblinder))
  {
    var s := ResponseJson(blinded, unblinder);
    var rest := UNBLINDER_OPEN + unblinder + RESPONSE_CLOSE;
    var tail := RESPONSE_CLOSE;
    assert s == BLINDED_OPEN + (blinded + rest);
    assert s[|BLINDED_OPEN|..] == blinded + rest;
    assert NoQuote(blinded) by {
      forall i | 0 <= i < |blinded| ensures blinded[i] != '"' {
        assert IsBase64Char(blinded[i]);
      }
    }
    assert NoQuote(unblinder) by {
      forall i | 0 <= i < |unblinder| ensures unblinder[i] != '"' {
        assert IsBase64Char(unblinder[i]);
      }
    }
    SplitAtQuoteOf(blinded, rest);
    assert rest[|UNBLINDER_OPEN|..] == unblinder + tail;
    SplitAtQuoteOf(unblinder, tail);
  }

  // ---------------------------------------------------------------------
  // BlindToken
  // ---------------------------------------------------------------------

  /** BlindToken reads the issuer's public key from BANK_ORG and runs it
      through four stages, each with its own error, stopping at the first that
      fails: read, base64-decode, JSON-parse, blind.  On success it returns the
      JSON object of the base64 texts of the blinded message and the
      unblinder, which reads back as those two texts.  It writes nothing. */
  function BlindToken(c: Context, w: World, crypto: Crypto, uuid: string): (r: Result<string>)
    ensures ReadState(c, w, BANK_ORG).Err? ==>
              r == Err("failed to get pub key: " + ReadState(c, w, BANK_ORG).msg)
    ensures ReadState(c, w, BANK_ORG).Ok? && crypto.decodeBase64(Stored(w, BANK_ORG)).Err? ==>
              r == Err("failed to decode pubkey : " + crypto.decodeBase64(Stored(w, BANK_ORG)).msg)
    ensures ReadState(c, w, BANK_ORG).Ok? && crypto.decodeBase64(Stored(w, BANK_ORG)).Ok?
            && crypto.unmarshalPublicKey(crypto.decodeBase64(Stored(w, BANK_ORG)).value).Err? ==>
              r == Err("failed to unmarshal pubkey : "
                       + crypto.unmarshalPublicKey(crypto.decodeBase64(Stored(w, BANK_ORG)).value).msg)
    ensures r.Ok? ==>
              && ReadState(c, w, BANK_ORG).Ok?
              && crypto.decodeBase64(Stored(w, BANK_ORG)).Ok?
              && crypto.unmarshalPublicKey(crypto.decodeBase64(Stored(w, BANK_ORG)).value).Ok?
    ensures r.Ok? <==> PublicKeyOf(c, w, crypto).Ok? && crypto.blind(PublicKeyOf(c, w, crypto).value, uuid).Ok?
    ensures PublicKeyOf(c, w, crypto).Ok? && crypto.blind(PublicKeyOf(c, w, crypto).value, uuid).Err? ==>
              r == Err("failed to blind the message : " + crypto.blind(PublicKeyOf(c, w, crypto).value, uuid).msg)
    ensures r.Ok? ==>
              var b := crypto.blind(PublicKeyOf(c, w, crypto).value, uuid).value;
              ParseResponse(r.value) == Some(Response(crypto.encodeBase64(b.blinded), crypto.encodeBase64(b.unblinder)))
  {
    match ReadState(c, w, BANK_ORG)
    case Err(e) => Err("failed to get pub key: " + e)
    case Ok(pubKey) =>
      match crypto.decodeBase64(pubKey)
      case Err(e) => Err("failed to decode pubkey : " + e)
      case Ok(raw) =>
        match crypto.unmarshalPublicKey(raw)
        case Err(e) => Err("failed to unmarshal pubkey : " + e)
        case Ok(key) =>
          match crypto.blind(key, uuid)
          case Err(e) => Err("failed to blind the message : " + e)
          case Ok(b) =>
            var blinded, unblinder := crypto.encodeBase64(b.blinded), crypto.encodeBase64(b.unblinder);
            ResponseRoundTrip(blinded, unblinder);
            Ok(ResponseJson(blinded, unblinder))
  }

  /** The issuer's public key as BlindToken's first three stages obtain it. */
  function PublicKeyOf(c: Context, w: World, crypto: Crypto): Result<PublicKey> {
    match ReadState(c, w, BANK_ORG)
    case Err(e) => Err(e)
    case Ok(pubKey) =>
      match crypto.decodeBase64(pubKey)
      case Err(e) => Err(e)
      case Ok(raw) => crypto.unmarshalPublicKey(raw)
  }

  /** BlindToken depends on the ledger only through the public key under
      BANK_ORG: for the same library behaviour, random draws included, two
      ledgers that agree there give the same answer. */
  lemma BlindTokenReadsOnlyPublicKey(c1: Context, w1: World, c2: Context, w2: World, crypto: Crypto, uuid: string)
    requires ReadState(c1, w1, BANK_ORG) == ReadState(c2, w2, BANK_ORG)
    ensures BlindToken(c1, w1, crypto, uuid) == BlindToken(c2, w2, crypto, uuid)
  {
  }

  /** With faithful libraries both fields of a successful response are
      non-empty, for a token identifier that does not vanish modulo the
      issuer's modulus. */
  lemma BlindTokenFieldsNonEmpty(c: Context, w: World, crypto: Crypto, uuid: string)
    requires Faithful(crypto)
    requires PublicKeyOf(c, w, crypto).Ok? ==> BlindsToNonZero(PublicKeyOf(c, w, crypto).value, uuid)
    requires BlindToken(c, w, crypto, uuid).Ok?
    ensures ParseResponse(BlindToken(c, w, crypto, uuid).value).Some?
    ensures var resp := ParseResponse(BlindToken(c, w, crypto, uuid).value).value;
            resp.blinded != "" && resp.unblinder != ""
  {
  }

  // ---------------------------------------------------------------------
  // DebitMyAccount
  // ---------------------------------------------------------------------

  /** DebitMyAccount, as the source has it.  It reads the settlement account,
      then the debit proof of `blinded`; a non-empty proof refuses the debit.
      Otherwise it stores `blinded` as the proof and transfers one unit to the
      settlement account.  No caller check is made.  Every effect it has is
      that proof write plus that one transfer; every failure before the
      transfer leaves the ledger as it was; and it succeeds only where no
      proof was stored. */
  function DebitMyAccountEffect(c: Context, w: World, base: BaseContract, blinded: string): (r: Effect)
    ensures r.world.privateData == w.privateData
    ensures r.world == w
            || (&& r.world.state == w.state[DebitProofKey(blinded) := blinded]
                && r.world.transfers == w.transfers + [TransferCall(Stored(w, BANK_ACCOUNT), 1)])
    ensures r.outcome.Pass? ==> Stored(w, DebitProofKey(blinded)) == "" && r.world != w
    ensures r.outcome.Pass? <==>
              && BANK_ACCOUNT !in c.faults.getState
              && DebitProofKey(blinded) !in c.faults.getState
              && Stored(w, DebitProofKey(blinded)) == ""
              && DebitProofKey(blinded) !in c.faults.putState
              && base.transfer(c, w.state[DebitProofKey(blinded) := blinded], Stored(w, BANK_ACCOUNT), 1).Pass?
    ensures BANK_ACCOUNT in c.faults.getState ==>
              r == Effect(Fail("failed to get bank account: " + c.faults.getState[BANK_ACCOUNT]), w)
    ensures BANK_ACCOUNT !in c.faults.getState && DebitProofKey(blinded) in c.faults.getState ==>
              r == Effect(Fail("failed to get debit proof: " + c.faults.getState[DebitProofKey(blinded)]), w)
    ensures BANK_ACCOUNT !in c.faults.getState && DebitProofKey(blinded) !in c.faults.getState
            && Stored(w, DebitProofKey(blinded)) != "" ==>
              r == Effect(Fail(DOUBLE_DEBIT), w)
    ensures BANK_ACCOUNT !in c.faults.getState && DebitProofKey(blinded) !in c.faults.getState
            && Stored(w, DebitProofKey(blinded)) == "" && DebitProofKey(blinded) in c.faults.putState ==>
              r == Effect(Fail("failed to put message: " + c.faults.putState[DebitProofKey(blinded)]), w)
    ensures BANK_ACCOUNT !in c.faults.getState && DebitProofKey(blinded) !in c.faults.getState
            && Stored(w, DebitProofKey(blinded)) == "" && DebitProofKey(blinded) !in c.faults.putState ==>
              r.outcome == base.transfer(c, w.state[DebitProofKey(blinded) := blinded], Stored(w, BANK_ACCOUNT), 1)
  {
    match ReadState(c, w, BANK_ACCOUNT)
    case Err(e) => Effect(Fail("failed to get bank account: " + e), w)
    case Ok(account) =>
      match ReadState(c, w, DebitProofKey(blinded))
      case Err(e) => Effect(Fail("failed to get debit proof: " + e), w)
      case Ok(debit) =>
        if |debit| > 0 then Effect(Fail(DOUBLE_DEBIT), w)
        else
          var put := WriteState(c, w, DebitProofKey(blinded), blinded);
          if put.outcome.Fail? then Effect(Fail("failed to put message: " + put.outcome.msg), w)
          else InvokeTransfer(base, c, put.world, account, 1)
  }

  method DebitMyAccount(ctx: Stub, base: BaseContract, blinded: string) returns (err: Outcome)
    modifies ctx
    ensures Effect(err, ctx.Snapshot()) == DebitMyAccountEffect(ctx.context, old(ctx.Snapshot()), base, blinded)
  {
    var account := ctx.GetState(BANK_ACCOUNT);
    if account.Err? {
      return Fail("failed to get bank account: " + account.msg);
    }
    var debit := ctx.GetState(DebitProofKey(blinded));
    if debit.Err? {
      return Fail("failed to get debit proof: " + debit.msg);
    }
    if |debit.value| > 0 {
      return Fail(DOUBLE_DEBIT);
    }
    var put := ctx.PutState(DebitProofKey(blinded), blinded);
    if put.Fail? {
      return Fail("failed to put message: " + put.msg);
    }
    err := ctx.Transfer(base, account.value, 1);
  }

  /** The error of the corrected debit for an empty blinded value. */
  const EMPTY_BLINDED: string := "blinded token must not be empty"

  /** DebitMyAccount as evidently intended: the proof it stores is the
      blinded value itself, so an empty blinded value would leave a proof
      that reads as absent; the corrected debit refuses that value and
      otherwise behaves as the source.  A successful corrected debit always
      leaves a non-empty proof behind. */
  function CheckedDebitEffect(c: Context, w: World, base: BaseContract, blinded: string): (r: Effect)
    ensures blinded == "" ==> r == Effect(Fail(EMPTY_BLINDED), w)
    ensures blinded != "" ==> r == DebitMyAccountEffect(c, w, base, blinded)
    ensures r.outcome.Pass? ==>
              Stored(w, DebitProofKey(blinded)) == "" && Stored(r.world, DebitProofKey(blinded)) != ""
  {
    if blinded == "" then Effect(Fail(EMPTY_BLINDED), w)
    else DebitMyAccountEffect(c, w, base, blinded)
  }
}
