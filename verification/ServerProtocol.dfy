/**
 The messages shared by client and server, the limits on credentials, and the binding of a
 document hash to a timestamp (shared_library/src/server_protocol.rs).
 */
module ServerProtocol {
  import opened Wrappers
  import opened MachineInts
  import opened Bytes

  /** A Rust `String`: its UTF-8 bytes. */
  type Text = Blob

  const MAX_USERNAME_LEN: nat := 32
  const MAX_PASSWORD_LEN: nat := 32
  const RSA_KEY_SIZE_IN_BYTES: nat := 2048 / 8

  type Sha256Hash = b: Blob | |b| == 32 witness seq(32, _ => 0 as byte)

  type RsaSignature = b: Blob | |b| == RSA_KEY_SIZE_IN_BYTES witness seq(RSA_KEY_SIZE_IN_BYTES, _ => 0 as byte)

  type Timestamp = u128

  /** `Timestamp::as_be_bytes`. */
  function ToBeBytes(t: Timestamp): (bs: Blob)
    ensures |bs| == 16 && Decode(bs) == t
  {
    Radix16();
    DecodeEncode(t, 16);
    Encode(t, 16)
  }

  /** `Timestamp::from_be`. */
  function FromBe(bs: Blob): (t: Timestamp)
    requires |bs| == 16
    ensures ToBeBytes(t) == bs
  {
    Radix16();
    EncodeDecode(bs);
    Decode(bs)
  }

  /** Big-endian bytes and numbers are in order-preserving bijection. */
  lemma TimestampBytes(t: Timestamp, a: Blob, b: Blob)
    requires |a| == |b| == 16
    ensures FromBe(ToBeBytes(t)) == t
    ensures FromBe(a) == FromBe(b) <==> a == b
    ensures BlobLess(a, b) <==> FromBe(a) < FromBe(b)
  {
    BlobOrderIsNumeric(a, b);
    if FromBe(a) == FromBe(b) { DecodeInjective(a, b); }
  }

  datatype HistoryRecord = HistoryRecord(sign: RsaSignature, timestamp: Timestamp)

  datatype Request =
    | Login(username: Text, password: Text)
    | SignUp(username: Text, password: Text)
    | LogOut
    | SignHash(hash: Sha256Hash)
    | PurchaseTokens(amount: u64)
    | HowManyTokensDoIHave
    | History

  datatype LoginError = InvalidCredentials | AlreadyLoggedIn

  datatype SignInError = UsernameAlreadyTaken | SessionOpen

  /** The texts that `OperationError` carries are not represented. */
  datatype Response =
    | Okay
    | LoginFailed(loginError: LoginError)
    | SignInFailed(signInError: SignInError)
    | NotLoggedIn
    | TokenCount(count: u64)
    | TokenAmountTooHigh
    | NotEnoughTokens
    | Token(hash: Sha256Hash, sign: RsaSignature, timestamp: Timestamp)
    | OperationError
    | Records(records: seq<HistoryRecord>)

  predicate CredentialsFit(username: Text, password: Text) {
    |username| <= MAX_USERNAME_LEN && |password| <= MAX_PASSWORD_LEN
  }

  datatype PasswordCheck = Malformed | Match | Mismatch

  /**
   The cryptographic libraries, as functions: SHA-256, PKCS#1 v1.5 signing with the server's key
   and verifying with the matching public key, Argon2 hashing with a salt and checking.
   */
  datatype Crypto = Crypto(
    sha256: Blob -> Sha256Hash,
    rsaSign: Blob -> Option<RsaSignature>,
    rsaVerify: (Blob, Blob) -> bool,
    argonHash: (Text, Blob) -> Text,
    argonVerify: (Text, Text) -> PasswordCheck)
  {
    /** What the model assumes of them. */
    ghost predicate Sound() {
      && (forall d: Blob :: rsaSign(d).Some? ==> rsaVerify(d, rsaSign(d).value))
      && (forall p: Text, salt: Blob :: argonVerify(p, argonHash(p, salt)) == Match)
      && (forall p: Text, q: Text, salt: Blob :: argonVerify(q, argonHash(p, salt)) != Malformed)
    }

    /** The digest that is signed for a document hash at a given time. */
    function Bind(hash: Sha256Hash, timestamp: Timestamp): Sha256Hash {
      sha256(hash + ToBeBytes(timestamp))
    }

    predicate Accepts(hash: Sha256Hash, timestamp: Timestamp, sign: RsaSignature) {
      rsaVerify(Bind(hash, timestamp), sign)
    }
  }

  /** The 48 bytes that stand for a document hash and a timestamp: 32 bytes of one, 16 big-endian bytes of the other. */
  ghost predicate StandsFor(m: Blob, hash: Sha256Hash, timestamp: Timestamp) {
    |m| == 48 && m[..32] == hash && FromBe(m[32..]) == timestamp
  }

  lemma MessageOf(hash: Sha256Hash, timestamp: Timestamp) returns (m: Blob)
    ensures StandsFor(m, hash, timestamp) && m == hash + ToBeBytes(timestamp)
  {
    m := hash + ToBeBytes(timestamp);
    assert m[..32] == hash && m[32..] == ToBeBytes(timestamp);
    TimestampBytes(timestamp, m[32..], m[32..]);
  }

  lemma OneMessage(m: Blob, n: Blob, hash: Sha256Hash, timestamp: Timestamp)
    requires StandsFor(m, hash, timestamp) && StandsFor(n, hash, timestamp)
    ensures m == n
  {
    TimestampBytes(timestamp, m[32..], n[32..]);
    assert m == m[..32] + m[32..] && n == n[..32] + n[32..];
  }

  /** What is signed and what is accepted for a hash and a timestamp: the digest of the bytes that stand for both. */
  lemma BindingIsOfBoth(crypto: Crypto, hash: Sha256Hash, timestamp: Timestamp, m: Blob, sign: RsaSignature)
    requires StandsFor(m, hash, timestamp)
    ensures crypto.Bind(hash, timestamp) == crypto.sha256(m)
    ensures crypto.Accepts(hash, timestamp, sign) <==> crypto.rsaVerify(crypto.sha256(m), sign)
  {
    var n := MessageOf(hash, timestamp);
    OneMessage(m, n, hash, timestamp);
  }

  /** One digest for two hashes or two timestamps takes a collision of SHA-256 among 48-byte messages. */
  lemma BindingIsInjective(crypto: Crypto, h1: Sha256Hash, t1: Timestamp, h2: Sha256Hash, t2: Timestamp)
    requires crypto.Bind(h1, t1) == crypto.Bind(h2, t2) && (h1 != h2 || t1 != t2)
    ensures exists m: Blob, n: Blob ::
              && m != n && StandsFor(m, h1, t1) && StandsFor(n, h2, t2)
              && crypto.sha256(m) == crypto.sha256(n)
  {
    var m := MessageOf(h1, t1);
    var n := MessageOf(h2, t2);
    BindingIsOfBoth(crypto, h1, t1, m, seq(RSA_KEY_SIZE_IN_BYTES, _ => 0 as byte));
    BindingIsOfBoth(crypto, h2, t2, n, seq(RSA_KEY_SIZE_IN_BYTES, _ => 0 as byte));
    assert m != n;
  }

  /** The streaming hasher of the sha2 crate. */
  class Sha256 {
    var absorbed: Blob

    constructor ()
      ensures absorbed == []
    {
      absorbed := [];
    }

    method Update(chunk: Blob)
      modifies this
      ensures absorbed == old(absorbed) + chunk
    {
      absorbed := absorbed + chunk;
    }

    method Finalize(crypto: Crypto) returns (digest: Sha256Hash)
      ensures digest == crypto.sha256(absorbed)
    {
      digest := crypto.sha256(absorbed);
    }
  }

  method SignWithTimestamp(crypto: Crypto, hash: Sha256Hash, timestamp: Timestamp)
    returns (signature: Option<RsaSignature>)
    ensures signature == crypto.rsaSign(crypto.Bind(hash, timestamp))
    ensures exists m: Blob ::
              && |m| == 48 && m[..32] == hash && FromBe(m[32..]) == timestamp
              && signature == crypto.rsaSign(crypto.sha256(m))
    ensures crypto.Sound() && signature.Some? ==> crypto.Accepts(hash, timestamp, signature.value)
  {
    var hasher := new Sha256();
    hasher.Update(hash);
    hasher.Update(ToBeBytes(timestamp));
    ghost var m := MessageOf(hash, timestamp);
    assert hasher.absorbed == m;
    var combined := hasher.Finalize(crypto);
    signature := crypto.rsaSign(combined);
  }

  method VerifyTimestampSignature(crypto: Crypto, hash: Sha256Hash, timestamp: Timestamp, sign: RsaSignature)
    returns (ok: bool)
    ensures ok <==> crypto.Accepts(hash, timestamp, sign)
    ensures exists m: Blob ::
              && |m| == 48 && m[..32] == hash && FromBe(m[32..]) == timestamp
              && (ok <==> crypto.rsaVerify(crypto.sha256(m), sign))
    ensures crypto.Sound() && crypto.rsaSign(crypto.Bind(hash, timestamp)) == Some(sign) ==> ok
  {
    var hasher := new Sha256();
    hasher.Update(hash);
    hasher.Update(ToBeBytes(timestamp));
    ghost var m := MessageOf(hash, timestamp);
    assert hasher.absorbed == m;
    var combined := hasher.Finalize(crypto);
    ok := crypto.rsaVerify(combined, sign);
  }
}
