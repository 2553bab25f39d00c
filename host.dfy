/** The collaborators the anonymous-payment extension runs against: the
    Fabric chaincode stub (public world state and private data collections),
    the caller's identity, the transient map, the base ERC-20 contract's
    Transfer and the crypto and encoding libraries.  None of them is part of
    the extension; each is modelled only as far as the extension observes it. */
module Host {

  /** Go converts between `string` and `[]byte` byte for byte, so one type
      stands for both. */
  type Bytes = string

  /** A Go `(T, error)` pair: a value or an error message. */
  datatype Result<T> = Ok(value: T) | Err(msg: string)

  datatype Option<T> = None | Some(value: T)

  /** A Go `error` returned alone: nil, or an error message. */
  datatype Outcome = Pass | Fail(msg: string)

  /** The stub calls that fail, by the key they are given, with the text of
      the error the stub returns. */
  datatype Faults = Faults(
    getState: map<string, string>,
    putState: map<string, string>,
    getPrivate: map<(string, string), string>,
    putPrivate: map<(string, string), string>)

  /** What one transaction sees besides the ledger: the result of
      `GetClientIdentity().GetMSPID()`, the result of `GetStub().GetTransient()`
      (a missing transient map reads as an empty one), and the stub's faults. */
  datatype Context = Context(
    mspId: Result<string>,
    transient: Result<map<string, Bytes>>,
    faults: Faults)

  /** One call of the base contract's `Transfer(recipient, amount)`. */
  datatype TransferCall = TransferCall(recipient: string, amount: int)

  /** The ledger as the extension sees it: public state, private data keyed by
      (collection, key), and the Transfer calls made so far. */
  datatype World = World(
    state: map<string, Bytes>,
    privateData: map<(string, string), Bytes>,
    transfers: seq<TransferCall>)

  /** What a state-changing operation returns, with the ledger it leaves. */
  datatype Effect = Effect(outcome: Outcome, world: World)

  /** The value stored under a public key; Fabric returns nil (length 0) for
      a key never written. */
  function Stored(w: World, key: string): Bytes {
    if key in w.state then w.state[key] else ""
  }

  function StoredPrivate(w: World, collection: string, key: string): Bytes {
    if (collection, key) in w.privateData then w.privateData[(collection, key)] else ""
  }

  /** `GetState(key)` */
  function ReadState(c: Context, w: World, key: string): Result<Bytes> {
    if key in c.faults.getState then Err(c.faults.getState[key]) else Ok(Stored(w, key))
  }

  /** `PutState(key, value)` */
  function WriteState(c: Context, w: World, key: string, value: Bytes): Effect {
    if key in c.faults.putState then Effect(Fail(c.faults.putState[key]), w)
    else Effect(Pass, w.(state := w.state[key := value]))
  }

  /** `GetPrivateData(collection, key)` */
  function ReadPrivate(c: Context, w: World, collection: string, key: string): Result<Bytes> {
    if (collection, key) in c.faults.getPrivate then Err(c.faults.getPrivate[(collection, key)])
    else Ok(StoredPrivate(w, collection, key))
  }

  /** `PutPrivateData(collection, key, value)` */
  function WritePrivate(c: Context, w: World, collection: string, key: string, value: Bytes): Effect {
    if (collection, key) in c.faults.putPrivate then Effect(Fail(c.faults.putPrivate[(collection, key)]), w)
    else Effect(Pass, w.(privateData := w.privateData[(collection, key) := value]))
  }

  /** The base ERC-20 contract, whose code is not part of this model: its
      `Transfer` decides success from the transaction context and the public
      state it sees.  Its effect on balances is not modelled. */
  datatype BaseContract = BaseContract(transfer: (Context, map<string, Bytes>, string, int) -> Outcome)

  /** `s.Transfer(ctx, recipient, amount)`: the call is recorded, the verdict
      is the base contract's. */
  function InvokeTransfer(base: BaseContract, c: Context, w: World, recipient: string, amount: int): Effect {
    Effect(base.transfer(c, w.state, recipient, amount),
           w.(transfers := w.transfers + [TransferCall(recipient, amount)]))
  }

  /** The characters of the standard base64 alphabet, with its padding. */
  predicate IsBase64Char(ch: char) {
    ('A' <= ch <= 'Z') || ('a' <= ch <= 'z') || ('0' <= ch <= '9') || ch == '+' || ch == '/' || ch == '='
  }

  /** Text that `base64.StdEncoding.EncodeToString` can produce. */
  type Base64Text = s: string | forall i | 0 <= i < |s| :: IsBase64Char(s[i])

  /** The JSON fields N and E of Go's `rsa.PublicKey`. */
  datatype PublicKey = PublicKey(n: int, e: int)

  /** The JSON fields of Go's `rsa.PrivateKey`, without the precomputed values. */
  datatype PrivateKey = PrivateKey(publicKey: PublicKey, d: int, primes: seq<int>)

  /** The two outputs of `rsablind.Blind`. */
  datatype Blinding = Blinding(blinded: Bytes, unblinder: Bytes)

  /** The libraries the extension calls: base64, JSON and RSA blinding.  Each
      either returns a value or an error; none is interpreted here. */
  datatype Crypto = Crypto(
    decodeBase64: string -> Result<Bytes>,
    encodeBase64: Bytes -> Base64Text,
    unmarshalPublicKey: Bytes -> Result<PublicKey>,
    marshalPrivateKey: PrivateKey -> Result<Bytes>,
    blind: (PublicKey, Bytes) -> Result<Blinding>)

  /** The number that `new(big.Int).SetBytes(m)` reads from `m`: its bytes
      as a big-endian unsigned integer. */
  function BigEndianValue(m: Bytes): nat
    decreases |m|
  {
    if m == [] then 0 else BigEndianValue(m[..|m| - 1]) * 256 + m[|m| - 1] as nat
  }

  /** The message `m` does not vanish modulo the key's modulus, so that
      m * r^e mod n, the blinded value, is not zero. */
  predicate BlindsToNonZero(k: PublicKey, m: Bytes) {
    k.n > 0 && BigEndianValue(m) % k.n != 0
  }

  /** The library facts a faithful instance has: standard base64 turns n bytes
      into 4 * ceil(n / 3) characters, and rsablind, blinding a message that
      does not vanish modulo the modulus, returns a non-zero blinded value
      and unblinder, whose big-endian bytes are therefore not empty.  (A
      message that vanishes blinds to zero, whose bytes are empty, so the
      clause says nothing about it.) */
  ghost predicate Faithful(crypto: Crypto) {
    && (forall x :: |crypto.encodeBase64(x)| == 4 * ((|x| + 2) / 3))
    && (forall k, m :: BlindsToNonZero(k, m) && crypto.blind(k, m).Ok? ==>
          |crypto.blind(k, m).value.blinded| > 0 && |crypto.blind(k, m).value.unblinder| > 0)
  }

  /** The transaction context of one invocation: the ledger the chaincode
      reads and writes through its stub, and the caller's identity, transient
      map and stub faults, which do not change during the transaction. */
  class Stub {
    var state: map<string, Bytes>
    var privateData: map<(string, string), Bytes>
    var transfers: seq<TransferCall>
    const context: Context

    constructor (context: Context, world: World)
      ensures this.context == context && Snapshot() == world
    {
      this.context := context;
      state, privateData, transfers := world.state, world.privateData, world.transfers;
    }

    /** The ledger as a value. */
    function Snapshot(): World
      reads this
    {
      World(state, privateData, transfers)
    }

    function GetState(key: string): Result<Bytes>
      reads this
    {
      ReadState(context, Snapshot(), key)
    }

    method PutState(key: string, value: Bytes) returns (err: Outcome)
      modifies this`state
      ensures Effect(err, Snapshot()) == WriteState(context, old(Snapshot()), key, value)
    {
      if key in context.faults.putState {
        err := Fail(context.faults.putState[key]);
      } else {
        state := state[key := value];
        err := Pass;
      }
    }

    method PutPrivateData(collection: string, key: string, value: Bytes) returns (err: Outcome)
      modifies this`privateData
      ensures Effect(err, Snapshot()) == WritePrivate(context, old(Snapshot()), collection, key, value)
    {
      if (collection, key) in context.faults.putPrivate {
        err := Fail(context.faults.putPrivate[(collection, key)]);
      } else {
        privateData := privateData[(collection, key) := value];
        err := Pass;
      }
    }

    /** `s.Transfer(ctx, recipient, amount)` of the base contract. */
    method Transfer(base: BaseContract, recipient: string, amount: int) returns (err: Outcome)
      modifies this`transfers
      ensures Effect(err, Snapshot()) == InvokeTransfer(base, context, old(Snapshot()), recipient, amount)
    {
      err := base.transfer(context, state, recipient, amount);
      transfers := transfers + [TransferCall(recipient, amount)];
    }
  }
}
