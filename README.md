# Anonymous payments on the ERC-20 token chaincode — a Dafny model

The token-erc-20 chaincode of this repository carries an extension for
anonymous payments with RSA blind signatures. The issuing organisation
`Org1MSP` (the bank) keeps an RSA key pair and a settlement account. A payer
blinds a token identifier under the bank's public key (`BlindToken`). The
payer then pays one unit to the settlement account under the blinded value
(`DebitMyAccount`). That step leaves a write-once *debit proof* keyed by the
blinded value, so the same non-empty blinded value cannot be paid for twice
(the empty value can; see "## Findings").

This project models that extension as a sequential state machine over the
Fabric ledger:

- `host.dfy`, module `Host`: the collaborators. These are the chaincode stub
  (public state `string → bytes`, private data `(collection, key) → bytes`),
  the caller's MSP id, the transient map, the stub calls that can fail, and the
  base contract's `Transfer`. The stub is the class `Stub`, whose methods
  `PutState` and `PutPrivateData` change its maps in place. Go's `string` and
  `[]byte` convert byte for byte, so one type, `Bytes`, stands for both. The
  base64, JSON and RSA libraries are function values of a `Crypto` record:
  each returns a value or an error, and nothing more is assumed of them. The
  only exceptions are the typing `Base64Text` of encoded text and the
  predicate `Faithful`, which only the lemma about non-empty response fields
  uses.
- `config.dfy`, module `Config`: `tc_ext_config.go`. It holds the constants
  `BANK_ORG`, `BANK_PDC`, `BANK_ACCOUNT` and `DEBIT_PROOF`, the issuer guard,
  `GenerateKeyPair`, `SavePrivateKey`, `SavePublicKey`, `GetPrivateKey` and
  `SetBankAccount`.
- `payment.dfy`, module `Payment`: `tc_ext_payment.go`, meaning `BlindToken`
  and `DebitMyAccount`.
- `protocol.dfy`, module `Protocol`: runs of many transactions, each with its
  own caller, and the properties that relate several calls.

Each operation that changes the ledger is an imperative method on a `Stub`,
with the same steps and early error returns as the Go code. Its postcondition
ties the returned error and the new ledger to a function, `…Effect`, of the
context and the old ledger. The properties are stated about those functions.
`GetPrivateKey` and `BlindToken` only read the ledger, and are functions of
the context and the ledger. `GenerateKeyPair` neither reads nor writes it, and
is a function of the context, the libraries and the generated key. None of
the three returns a ledger, so none can write anything. Error messages are the
source's, character for character. A Go `fmt.Errorf("…: %v", err)` becomes
the prefix followed by the collaborator's error text.

Three facts about the code shape the model:

- Only two payment steps exist. `BlindSignToken` is commented out
  (tc_ext_payment.go:81-115). The tests call `UnblindSignature`
  (tc_ext_payment_test.go) and `SaveKeyPair` (token_contract_test.go), which
  the code does not define. The code has no credit step and no credit proof. No operation checks a debit proof
  before signing.
- Every error is a literal message string, and the model uses those strings.
  `SetBankAccount` reports a failed write as "failed to put public key".
- `BlindToken` has no separate check for a missing public key. A missing key
  reads as empty bytes. Standard base64 decodes the empty text to empty bytes
  without error, so a missing key fails at the unmarshal stage.

## Model

| member | source | states |
|---|---|---|
| `Config.KeysDisjoint` | token-erc-20/chaincode-go/chaincode/tc_ext_config.go:17-20 | the public key, the settlement account and every debit proof live under three pairwise distinct keys, for every blinded value |
| `Config.DebitProofKeyInjective` | token-erc-20/chaincode-go/chaincode/tc_ext_payment.go:66-74 | two blinded values share a debit-proof key exactly when they are equal |
| `Config.CheckIssuer` | token-erc-20/chaincode-go/chaincode/tc_ext_config.go:27-33 | the guard passes exactly for MSP id `Org1MSP`; a failing GetMSPID gives "failed to get MSPID: …", and any other caller gives "client is not authorized to call <op>" |
| `Config.GenerateKeyPair` | token-erc-20/chaincode-go/chaincode/tc_ext_config.go:24-46 | only the issuer gets a result, which is the base64 text of the marshalled key; the guard's error comes first, then the marshal error; it takes no ledger and writes nothing |
| `Config.SavePrivateKeyEffect` | token-erc-20/chaincode-go/chaincode/tc_ext_config.go:49-78 | it succeeds iff the caller is the issuer, the transient map has "key" and the write succeeds; it then stores exactly those bytes at (`_implicit_org_Org1MSP`, `Org1MSP`); it never touches public state or transfers; a missing "key" (empty map or other fields only) gives "key not found"; every failure changes nothing |
| `Config.SavePrivateKey` | token-erc-20/chaincode-go/chaincode/tc_ext_config.go:49-78 | the imperative operation on the stub returns the error and leaves the ledger that `SavePrivateKeyEffect` gives |
| `Config.SavePublicKeyEffect` | token-erc-20/chaincode-go/chaincode/tc_ext_config.go:80-95 | it succeeds iff the caller is the issuer and the write succeeds; the new public state is the old one with `Org1MSP` set verbatim to the argument; private data and transfers are untouched; every failure changes nothing |
| `Config.SavePublicKey` | token-erc-20/chaincode-go/chaincode/tc_ext_config.go:80-95 | the imperative operation on the stub agrees with `SavePublicKeyEffect` |
| `Config.GetPrivateKey` | token-erc-20/chaincode-go/chaincode/tc_ext_config.go:97-114 | only the issuer gets a result, which is the bytes stored at (`_implicit_org_Org1MSP`, `Org1MSP`) unchanged; the guard's error comes before a read error; it writes nothing |
| `Config.SetBankAccountEffect` | token-erc-20/chaincode-go/chaincode/tc_ext_config.go:116-132 | it succeeds iff the caller is the issuer and the write succeeds; the new public state is the old one with `account_Org1MSP` overwritten by the account; nothing else changes; every failure changes nothing |
| `Config.SetBankAccount` | token-erc-20/chaincode-go/chaincode/tc_ext_config.go:116-132 | the imperative operation on the stub agrees with `SetBankAccountEffect` |
| `Payment.ResponseRoundTrip` | token-erc-20/chaincode-go/chaincode/tc_ext_payment.go:42-55 | the JSON object `{"Blinded":…,"Unblinder":…}` built from two base64 texts reads back as exactly those two texts |
| `Payment.BlindToken` | token-erc-20/chaincode-go/chaincode/tc_ext_payment.go:19-56 | the stages fail in a fixed order, each with its own message: read ("failed to get pub key: "), base64 ("failed to decode pubkey : "), JSON ("failed to unmarshal pubkey : "), blind ("failed to blind the message : "); it succeeds iff all four succeed, and the response then reads back as the base64 texts of the blinded message and the unblinder |
| `Payment.BlindTokenReadsOnlyPublicKey` | token-erc-20/chaincode-go/chaincode/tc_ext_payment.go:21-55 | for the same library behaviour, random draws included, two ledgers that agree on the public key under `Org1MSP` give BlindToken the same answer |
| `Payment.BlindTokenFieldsNonEmpty` | token-erc-20/chaincode-go/chaincode/tc_ext_payment.go:37-55 | with libraries that behave as base64 and rsablind do, both fields of a successful response are non-empty, for a token identifier whose big-endian value is not a multiple of the issuer key's modulus |
| `Payment.DebitMyAccountEffect` | token-erc-20/chaincode-go/chaincode/tc_ext_payment.go:59-79 | its only possible effect is to write `blinded` under `debit_Org1MSP`+`blinded` and make one transfer of 1 unit to the value read from `account_Org1MSP`; it succeeds iff both reads succeed, no proof is stored, the write succeeds and the transfer passes; the errors come in order (account read, proof read, double debit, write) and each leaves the ledger unchanged with no transfer; otherwise the transfer's verdict is returned |
| `Payment.DebitMyAccount` | token-erc-20/chaincode-go/chaincode/tc_ext_payment.go:59-79 | the imperative operation on the stub agrees with `DebitMyAccountEffect` |
| `Payment.CheckedDebitEffect` | token-erc-20/chaincode-go/chaincode/tc_ext_payment.go:66-78 | the corrected debit refuses an empty blinded value and otherwise is the source's; a successful corrected debit always leaves a non-empty proof |
| `Protocol.UnauthorizedChangesNothing` | token-erc-20/chaincode-go/chaincode/tc_ext_config.go:52-58 | a configuration call by a non-issuer, or with a failing GetMSPID, changes nothing and returns the guard's exact message naming the operation |
| `Protocol.DebitIgnoresCaller` | token-erc-20/chaincode-go/chaincode/tc_ext_payment.go:59-78 | DebitMyAccount makes no caller check: the caller changes neither its writes nor its verdict, unless the base Transfer itself tells callers apart |
| `Protocol.PrivateKeyRoundTrip` | token-erc-20/chaincode-go/chaincode/tc_ext_config.go:62-113 | after the issuer saves the transient "key", the issuer's GetPrivateKey returns exactly those bytes |
| `Protocol.DebitsIndependent` | token-erc-20/chaincode-go/chaincode/tc_ext_payment.go:66-74 | a debit of one blinded value leaves the proof of every other blinded value as it was |
| `Protocol.ProofPersists` | token-erc-20/chaincode-go/chaincode/tc_ext_payment.go:66-74 | once a non-empty proof is stored, no operation changes it, and no debit of that value succeeds |
| `Protocol.DebitStoresProof` | token-erc-20/chaincode-go/chaincode/tc_ext_payment.go:74 | a successful debit of a non-empty blinded value leaves that value as its proof |
| `Protocol.AtMostOneDebit` | token-erc-20/chaincode-go/chaincode/tc_ext_payment.go:66-78 | over any run of the extension's operations by any callers, a non-empty blinded value is debited successfully at most once, and not at all if its proof was already stored |
| `Protocol.DebitTwiceFails` | token-erc-20/chaincode-go/chaincode/tc_ext_payment.go:66-72 | after a debit of a non-empty value has written its proof (in the model also when its transfer failed), a second debit of it fails with "debit operation can be only done once for one blinded token" and changes nothing |
| `Protocol.EmptyBlindedDebitsTwice` | token-erc-20/chaincode-go/chaincode/tc_ext_payment.go:70-74 | the source's debit lets the empty blinded value succeed twice in a row, with two transfers |
| `Protocol.CheckedDebitOnce` | token-erc-20/chaincode-go/chaincode/tc_ext_payment.go:70-74 | with the corrected debit, a second debit of any blinded value fails after a first one succeeded; when its reads succeed it fails with "debit operation can be only done once for one blinded token" and changes nothing |
| `Protocol.DebitThenRetry` | token-erc-20/chaincode-go/chaincode/tc_ext_payment.go:59-78 | through the stub's methods, a retry of a debit of a non-empty value by the same caller, as a new transaction on the ledger the first left, always fails, and fails with the double-debit error when the first succeeded |

## Findings

| source | as written | input that shows it | evidently intended | confidence | as-written member | corrected member |
|---|---|---|---|---|---|---|
| token-erc-20/chaincode-go/chaincode/tc_ext_payment.go:70-74 | the proof stored is the blinded value itself, and a proof counts as present only when it is non-empty | `DebitMyAccount("")` twice: both calls store an empty proof, both pass the check, and two units are transferred | a blinded value is debited at most once ("debit operation can be only done once for one blinded token"); the correction refuses the empty value | medium; not executed | `Protocol.EmptyBlindedDebitsTwice` (about `Payment.DebitMyAccountEffect`) | `Payment.CheckedDebitEffect`, with `Protocol.CheckedDebitOnce` |

The stub and the runs in `Protocol` keep the source's debit. That keeps the
model faithful to the code. As a result `Protocol.AtMostOneDebit` is stated for
non-empty blinded values, which is the case the source handles.

## Left out

- RSA key generation, `rsablind.Blind`, base64 and JSON decoding: these are
  foreign libraries, and key generation is random. Each is a function value
  that returns a value or an error. `GenerateKeyPair` takes the generated key
  as an argument. The JSON encoding of BlindToken's response is modelled
  exactly, but only for base64 text, which is the only input it gets.
- The marshal-error branch of BlindToken's response (tc_ext_payment.go:50-53):
  Go's `json.Marshal` cannot fail on a struct of two strings, so the branch is
  dead and not modelled.
- `GenerateKeyPair` ignores the error of `rsa.GenerateKey`. The model takes
  the key as given and does not model a failed generation.
- `BlindSignToken` is commented out in the source. `UnblindSignature` and
  `SaveKeyPair` are called by the tests but are not defined in the source.
  None of them is modelled.
- The base contract's `Transfer` and its `Initialize` check: that code is not
  part of this model. `Transfer` is a function value of the context, the
  public state and its arguments that decides success, such as the "Contract
  options need to be set…" error. The model records each call but does not
  model its effect on balances.
- Host.InvokeTransfer: the base contract's `Transfer` is modelled as
  writing no public-state key. Its balance keys are thus taken never to
  equal `Org1MSP`, `account_Org1MSP` or any `debit_Org1MSP…` key, which
  `SetBankAccount` does not enforce: a settlement account named
  `debit_Org1MSPx` would, in the program, put a balance under the proof key
  of "x". `Protocol.ProofPersists` and `Protocol.DebitsIndependent` rely on
  this. `Transfer` is also shown the debit's own proof write, where inside a
  Fabric transaction `GetState` returns the committed state.
- Fabric host behaviour: each operation is one transaction run to completion.
  The model does not show the host discarding the writes of a transaction
  that returns an error. For example, a debit whose transfer fails still
  leaves its proof in the model. Also left out are endorsement and peer
  selection, collection access control, how the transient map is delivered,
  and Fabric's treatment of an empty value as a deletion (an empty stored
  value reads the same as an absent key, so that makes no difference here).
- The counterfeiter-generated test doubles and the interface file used for
  code generation: they hold no domain logic.
- `Payment.BlindTokenFieldsNonEmpty` rests on the predicate `Faithful`. The
  predicate states two library facts: the length law of standard base64, and
  that rsablind's outputs are non-empty for a message whose big-endian value
  is not a multiple of the key's modulus. rsablind drops leading zero bytes
  of its results, and the token identifier is blinded unhashed. So an
  identifier whose value is a multiple of the modulus yields an empty
  `Blinded` field, and the lemma does not cover it. Examples are
  `BlindToken("")`, an identifier of NUL bytes only, and the modulus's own
  bytes.
- Blinding randomness: `rsablind.Blind` draws a fresh blinding factor on
  every call. The model fixes those draws inside the `crypto` value, so two
  `BlindToken` calls with one `crypto` give the same response, where the
  program gives different ones.
