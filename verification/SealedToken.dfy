/** Opaque browser tokens: a payload sealed for one purpose until an expiry. The cipher is an
    ideal one: it opens exactly what it has sealed, under the same nonce and purpose. */
module SealedToken {
  import opened Text
  import opened Base64

  type Bytes = seq<Byte>

  /** One use of the cipher: what it was given besides the plaintext, and what it answered. */
  datatype Sealing = Sealing(nonce: Bytes, cipher: Bytes, purpose: string)

  /** Everything sealed so far under one key, with its plaintext. */
  datatype Vault = Vault(nonceSize: nat, overhead: nat, sealed: map<Sealing, Bytes>)

  /** Ciphertexts are longer by the overhead, and no nonce is used twice. */
  ghost predicate Sound(v: Vault) {
    && (forall k | k in v.sealed :: |k.nonce| == v.nonceSize && |k.cipher| == |v.sealed[k]| + v.overhead)
    && (forall k, k1 | k in v.sealed && k1 in v.sealed && k.nonce == k1.nonce :: k == k1)
  }

  ghost predicate Unused(v: Vault, nonce: Bytes) {
    forall k | k in v.sealed :: k.nonce != nonce
  }

  /** `w` is `v` after more has been sealed, for whatever purpose. */
  ghost predicate Extends(v: Vault, w: Vault) {
    && w.nonceSize == v.nonceSize && w.overhead == v.overhead
    && forall k | k in v.sealed :: k in w.sealed && w.sealed[k] == v.sealed[k]
  }

  datatype Json<!P> = Json(encode: P -> Bytes, decode: Bytes -> Option<P>)

  ghost predicate Faithful<P(!new)>(j: Json<P>) {
    forall p :: j.decode(j.encode(p)) == Some(p)
  }

  const VERSION: Byte := 1
  const TIMESTAMP_BYTES: nat := 8

  /** Nanoseconds to whole seconds, rounded down. */
  function Unix(t: int): int {
    t / SECOND
  }

  predicate UnixFits(t: int) {
    -MAX_INT - 1 <= Unix(t) <= MAX_INT
  }

  function Frame(expiresAt: int, body: Bytes): Bytes
    requires UnixFits(expiresAt)
  {
    BigEndian(ToUnsigned(Unix(expiresAt)), TIMESTAMP_BYTES) + body
  }

  /** The token is the text of one sealing under this nonce and purpose. */
  ghost predicate Carries(v: Vault, token: string, nonce: Bytes, purpose: string, plain: Bytes) {
    exists cipher ::
      && Sealing(nonce, cipher, purpose) in v.sealed && v.sealed[Sealing(nonce, cipher, purpose)] == plain
      && token == Encode([VERSION] + nonce + cipher)
  }

  /** None stands for each of the errors. */
  function Open<P>(v: Vault, j: Json<P>, token: string, purpose: string, now: int): Option<P>
    requires Sound(v)
  {
    if TrimSpace(purpose) == "" then None else
    match Decode(token)
    case None => None
    case Some(raw) =>
      if |raw| < 1 + v.nonceSize + v.overhead + TIMESTAMP_BYTES || raw[0] != VERSION then None else
      var key := Sealing(raw[1..1 + v.nonceSize], raw[1 + v.nonceSize..], purpose);
      if key !in v.sealed then None else
      var plaintext := v.sealed[key];
      var expiresAt := ToSigned(FromBigEndian(plaintext[..TIMESTAMP_BYTES])) * SECOND;
      if expiresAt <= now then None else j.decode(plaintext[TIMESTAMP_BYTES..])
  }

  /** A sealed token opens to its payload exactly when the purpose is the one it was sealed
      for and the clock is before the expiry rounded down to a second, whatever else has been
      sealed by then. */
  lemma OpenOfSeal<P(!new)>(v: Vault, j: Json<P>, token: string, nonce: Bytes, purpose: string, expiresAt: int,
        payload: P, purpose1: string, now: int)
    requires Sound(v) && Faithful(j) && UnixFits(expiresAt) && TrimSpace(purpose) != ""
    requires Carries(v, token, nonce, purpose, Frame(expiresAt, j.encode(payload)))
    ensures Open(v, j, token, purpose1, now) ==
      if purpose1 == purpose && now < expiresAt - expiresAt % SECOND then Some(payload) else None
  {
    var plain := Frame(expiresAt, j.encode(payload));
    var cipher :| Sealing(nonce, cipher, purpose) in v.sealed && v.sealed[Sealing(nonce, cipher, purpose)] == plain
                  && token == Encode([VERSION] + nonce + cipher);
    var raw := [VERSION] + nonce + cipher;
    Base64RoundTrip(raw);
    hide Encode; hide Decode; hide BigEndian; hide FromBigEndian; hide TrimSpace;
    assert raw[1..1 + v.nonceSize] == nonce && raw[1 + v.nonceSize..] == cipher;
    TimestampRoundTrip(Unix(expiresAt));
    assert plain[..TIMESTAMP_BYTES] == BigEndian(ToUnsigned(Unix(expiresAt)), 8);
    assert plain[TIMESTAMP_BYTES..] == j.encode(payload);
    assert Sealing(nonce, cipher, purpose1) in v.sealed ==> purpose1 == purpose;
  }

  /** Whatever opens was sealed for that purpose, byte for byte. */
  lemma OnlySealedOpens<P>(v: Vault, j: Json<P>, token: string, purpose: string, now: int)
    requires Sound(v) && Open(v, j, token, purpose, now).Some?
    ensures TrimSpace(purpose) != "" && exists k ::
      k in v.sealed && k.purpose == purpose && Decode(token) == Some([VERSION] + k.nonce + k.cipher)
  {
    hide Decode; hide TrimSpace; hide FromBigEndian;
    var raw := Decode(token).value;
    var k := Sealing(raw[1..1 + v.nonceSize], raw[1 + v.nonceSize..], purpose);
    assert raw == [VERSION] + k.nonce + k.cipher;
  }

  lemma CarriesOn(v: Vault, w: Vault, token: string, nonce: Bytes, purpose: string, plain: Bytes)
    requires Carries(v, token, nonce, purpose, plain) && Extends(v, w)
    ensures Carries(w, token, nonce, purpose, plain)
  {
  }

  /** Sealing something else does not change what a token opens to. */
  lemma OthersOpenAsBefore<P>(v: Vault, k: Sealing, plain: Bytes, j: Json<P>, token: string, purpose: string, now: int)
    requires Sound(v) && Sound(v.(sealed := v.sealed[k := plain])) && k !in v.sealed
    requires Decode(token) != Some([VERSION] + k.nonce + k.cipher)
    ensures Open(v.(sealed := v.sealed[k := plain]), j, token, purpose, now) == Open(v, j, token, purpose, now)
  {
    if Decode(token).Some? {
      var raw := Decode(token).value;
      if |raw| >= 1 + v.nonceSize && raw[0] == VERSION {
        assert raw == [VERSION] + raw[1..1 + v.nonceSize] + raw[1 + v.nonceSize..];
      }
    }
  }

  /** Tokens sealed with different nonces differ. */
  lemma NoncesSeparateTokens(n: Bytes, c: Bytes, n1: Bytes, c1: Bytes)
    requires |n| == |n1| && Encode([VERSION] + n + c) == Encode([VERSION] + n1 + c1)
    ensures n == n1
  {
    Base64RoundTrip([VERSION] + n + c);
    Base64RoundTrip([VERSION] + n1 + c1);
    assert ([VERSION] + n + c)[1..1 + |n|] == n;
    assert ([VERSION] + n1 + c1)[1..1 + |n|] == n1;
  }

  class Codec {
    var vault: Vault

    constructor (nonceSize: nat, overhead: nat)
      ensures vault == Vault(nonceSize, overhead, map[]) && Sound(vault)
    {
      vault := Vault(nonceSize, overhead, map[]);
    }

    /** The cipher answers with any bytes of the right length. */
    method Encrypt(nonce: Bytes, plain: Bytes, purpose: string) returns (cipher: Bytes)
      requires Sound(vault) && |nonce| == vault.nonceSize && Unused(vault, nonce)
      modifies this
      ensures Sound(vault) && Sealing(nonce, cipher, purpose) !in old(vault).sealed
      ensures vault == old(vault).(sealed := old(vault).sealed[Sealing(nonce, cipher, purpose) := plain])
    {
      cipher := *;
      if |cipher| != |plain| + vault.overhead {
        cipher := plain + seq(vault.overhead, _ => 0);
      }
      vault := vault.(sealed := vault.sealed[Sealing(nonce, cipher, purpose) := plain]);
    }

    /** The token opens for its purpose and lifetime only, and no other token opens differently
        than before. An error seals nothing. */
    method Seal<P(!new)>(j: Json<P>, purpose: string, expiresAt: int, payload: P, nonce: Bytes, now: int)
      returns (token: Option<string>)
      requires Sound(vault) && Faithful(j)
      requires UnixFits(expiresAt) && |nonce| == vault.nonceSize && Unused(vault, nonce)
      modifies this
      ensures Sound(vault) && Extends(old(vault), vault)
      ensures token.None? <==> TrimSpace(purpose) == "" || expiresAt <= now
      ensures token.None? ==> vault == old(vault)
      ensures token.Some? ==>
        && Carries(vault, token.value, nonce, purpose, Frame(expiresAt, j.encode(payload))) && token.value != ""
        && (forall purpose1, at :: Open(vault, j, token.value, purpose1, at) ==
              if purpose1 == purpose && at < Unix(expiresAt) * SECOND then Some(payload) else None)
        && (forall t, purpose1, at | Decode(t) != Decode(token.value) ::
              Open(vault, j, t, purpose1, at) == Open(old(vault), j, t, purpose1, at))
    {
      hide Open; hide Encode; hide Decode; hide Faithful; hide Carries; hide TrimSpace; hide Sound; hide Unused;
      if TrimSpace(purpose) == "" {
        return None;
      }
      if expiresAt <= now {
        return None;
      }
      var body := j.encode(payload);
      var plaintext := BigEndian(ToUnsigned(Unix(expiresAt)), TIMESTAMP_BYTES);
      plaintext := plaintext + body;
      var cipher := Encrypt(nonce, plaintext, purpose);
      var out: Bytes := [];
      out := out + [VERSION];
      out := out + nonce;
      out := out + cipher;
      assert out == [VERSION] + nonce + cipher;
      token := Some(Encode(out));
      Base64RoundTrip(out);
      Sealed(nonce, cipher, purpose, plaintext);
      forall purpose1, at {
        OpenOfSeal(vault, j, token.value, nonce, purpose, expiresAt, payload, purpose1, at);
      }
      forall t, purpose1, at | Decode(t) != Some(out)
        ensures Open(vault, j, t, purpose1, at) == Open(old(vault), j, t, purpose1, at)
      {
        OthersOpenAsBefore(old(vault), Sealing(nonce, cipher, purpose), plaintext, j, t, purpose1, at);
      }
    }

    lemma Sealed(nonce: Bytes, cipher: Bytes, purpose: string, plain: Bytes)
      requires Sealing(nonce, cipher, purpose) in vault.sealed && vault.sealed[Sealing(nonce, cipher, purpose)] == plain
      ensures Carries(vault, Encode([VERSION] + nonce + cipher), nonce, purpose, plain)
      ensures Encode([VERSION] + nonce + cipher) != ""
    {
    }
  }
}
