/** The cryptographic library as a record of unknown functions, and the two ways to protect commands. */
module Crypto {
  import opened Wrappers

  newtype Byte = x: int | 0 <= x < 256
  type Bytes = seq<Byte>

  datatype Command =
    | SetTopicKey(topic: string, key: Bytes)
    | RemoveTopic(topic: string)
    | ResetTopics
    | SetIDKey(key: Bytes)
    | SetPubKey(key: Bytes, name: string)
    | RemovePubKey(name: string)
    | ResetPubKeys
    | SetC2Key(key: Bytes)

  /**
   * What the server takes from its libraries. Nothing is assumed of these functions,
   * except where a statement asks for `Sound()`.
   */
  datatype Library = Library(
    idLen: nat,
    keyLen: nat,
    hashAlias: string -> Bytes,
    encrypt: (Bytes, Bytes) -> Bytes,
    decrypt: (Bytes, Bytes) -> Option<Bytes>,
    protect: (Bytes, Bytes) -> Bytes,
    unprotect: (Bytes, Bytes) -> Option<Bytes>,
    encode: Command -> Bytes,
    decode: Bytes -> Option<Command>,
    x25519: (Bytes, Bytes) -> Bytes,
    basepoint: Bytes,
    publicToCurve: Bytes -> Bytes,
    secretToCurve: Bytes -> Bytes,
    edPublic: Bytes -> Bytes,
    sha3: Bytes -> Bytes,
    secretAllowed: Bytes -> bool, // what validation asks of a C2 private key beside its length
    validEdPublic: Bytes -> bool,
    validSymKey: Bytes -> bool)
  {
    function C2Public(c2Secret: Bytes): Bytes {
      x25519(c2Secret, basepoint)
    }

    predicate ValidSecret(key: Bytes) {
      |key| == keyLen && secretAllowed(key)
    }

    ghost predicate HashesAreIds() {
      idLen > 0 && forall name :: |hashAlias(name)| == idLen
    }

    ghost predicate DecryptsOwn() {
      forall k, p :: decrypt(k, encrypt(k, p)) == Some(p)
    }

    ghost predicate UnprotectsOwn() {
      forall k, p :: unprotect(k, protect(k, p)) == Some(p)
    }

    ghost predicate DecodesOwn() {
      forall c :: decode(encode(c)) == Some(c)
    }

    /** Diffie-Hellman: both ends of a pair of key pairs reach the same secret. */
    ghost predicate ExchangeAgrees() {
      forall a, b :: x25519(a, publicToCurve(edPublic(b))) == x25519(secretToCurve(b), C2Public(a))
    }

    ghost predicate Sound() {
      HashesAreIds() && DecryptsOwn() && UnprotectsOwn() && DecodesOwn() && ExchangeAgrees()
    }

    // ---- internal/crypto/keys.go, both implementations of E4Key

    predicate ValidKey(pubKeyMode: bool, key: Bytes) {
      if pubKeyMode then validEdPublic(key) else validSymKey(key)
    }

    /** The half of a client's key that the server stores. */
    function StoredHalf(pubKeyMode: bool, clientKey: Bytes): Bytes {
      if pubKeyMode then edPublic(clientKey) else clientKey
    }

    function ProtectCommand(pubKeyMode: bool, c2Secret: Bytes, stored: Bytes, cmd: Command): (r: Option<Bytes>)
      ensures r.None? <==> !ValidKey(pubKeyMode, stored)
    {
      if !ValidKey(pubKeyMode, stored) then None
      else if pubKeyMode then Some(protect(sha3(x25519(c2Secret, publicToCurve(stored))), encode(cmd)))
      else Some(protect(stored, encode(cmd)))
    }

    /** What a device makes of a payload, with its own key and the C2 public key it knows. */
    function OpenCommand(pubKeyMode: bool, c2Public: Bytes, deviceKey: Bytes, payload: Bytes): Option<Command> {
      var key := if pubKeyMode then sha3(x25519(secretToCurve(deviceKey), c2Public)) else deviceKey;
      match unprotect(key, payload)
      case None => None
      case Some(bytes) => decode(bytes)
    }

    /** A command protected for a paired key opens on the device as the same command. */
    lemma CommandRoundTrip(pubKeyMode: bool, c2Secret: Bytes, deviceKey: Bytes, cmd: Command)
      requires UnprotectsOwn() && DecodesOwn() && ExchangeAgrees()
      requires ValidKey(pubKeyMode, StoredHalf(pubKeyMode, deviceKey))
      ensures
        var sealed := ProtectCommand(pubKeyMode, c2Secret, StoredHalf(pubKeyMode, deviceKey), cmd);
        && sealed.Some?
        && OpenCommand(pubKeyMode, C2Public(c2Secret), deviceKey, sealed.value) == Some(cmd)
    {
      if pubKeyMode {
        var mine := x25519(c2Secret, publicToCurve(edPublic(deviceKey)));
        var theirs := x25519(secretToCurve(deviceKey), C2Public(c2Secret));
        assert mine == theirs;
        assert unprotect(sha3(mine), protect(sha3(mine), encode(cmd))) == Some(encode(cmd));
      } else {
        assert unprotect(deviceKey, protect(deviceKey, encode(cmd))) == Some(encode(cmd));
      }
      assert decode(encode(cmd)) == Some(cmd);
    }
  }
}
