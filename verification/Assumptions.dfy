/** What the main results assume of the libraries can be met, together, by libraries that are not trivial. */
module Assumptions {
  import opened Wrappers
  import opened Crypto

  // ---- Commands as bytes

  function EncodeChar(c: char): Bytes {
    var n := c as int;
    [1, (n / 256 / 256 % 256) as Byte, (n / 256 % 256) as Byte, (n % 256) as Byte]
  }

  function EncodeString(s: string): Bytes {
    if s == "" then [0] else EncodeChar(s[0]) + EncodeString(s[1..])
  }

  function Tag(cmd: Command): Byte {
    match cmd
    case SetTopicKey(_, _) => 0
    case RemoveTopic(_) => 1
    case ResetTopics => 2
    case SetIDKey(_) => 3
    case SetPubKey(_, _) => 4
    case RemovePubKey(_) => 5
    case ResetPubKeys => 6
    case SetC2Key(_) => 7
  }

  function Body(cmd: Command): (string, Bytes) {
    match cmd
    case SetTopicKey(topic, key) => (topic, key)
    case RemoveTopic(topic) => (topic, [])
    case SetIDKey(key) => ("", key)
    case SetPubKey(key, name) => (name, key)
    case RemovePubKey(name) => (name, [])
    case SetC2Key(key) => ("", key)
    case _ => ("", [])
  }

  function Encode(cmd: Command): Bytes {
    [Tag(cmd)] + (EncodeString(Body(cmd).0) + Body(cmd).1)
  }

  lemma Digits(n: nat)
    requires n < 0x110000
    ensures n == 256 * (256 * (n / 256 / 256 % 256) + n / 256 % 256) + n % 256
  {
    var q := n / 256;
    assert q / 256 % 256 == q / 256;
  }

  lemma CharFromBytes(c: char, d: char)
    requires EncodeChar(c) == EncodeChar(d)
    ensures c == d
  {
    assert forall i :: 1 <= i < 4 ==> EncodeChar(c)[i] == EncodeChar(d)[i];
    Digits(c as int);
    Digits(d as int);
  }

  /** An encoded string shows where it ends. */
  lemma {:induction false} StringFromBytes(s: string, t: string, a: Bytes, b: Bytes)
    requires EncodeString(s) + a == EncodeString(t) + b
    ensures s == t && a == b
  {
    var x, y := EncodeString(s) + a, EncodeString(t) + b;
    assert x[0] == y[0];
    if s == "" {
      assert x[1..] == a && y[1..] == b;
    } else {
      assert x[..4] == EncodeChar(s[0]) && y[..4] == EncodeChar(t[0]);
      CharFromBytes(s[0], t[0]);
      assert x[4..] == EncodeString(s[1..]) + a && y[4..] == EncodeString(t[1..]) + b;
      StringFromBytes(s[1..], t[1..], a, b);
      assert s == [s[0]] + s[1..] && t == [t[0]] + t[1..];
    }
  }

  lemma EncodeInjective(c: Command, d: Command)
    requires Encode(c) == Encode(d)
    ensures c == d
  {
    assert Encode(c)[0] == Encode(d)[0];
    assert Encode(c)[1..] == Encode(d)[1..];
    StringFromBytes(Body(c).0, Body(d).0, Body(c).1, Body(d).1);
  }

  ghost function Decode(bytes: Bytes): Option<Command> {
    if cmd :| Encode(cmd) == bytes then Some(cmd) else None
  }

  // ---- A library

  function Zeros(n: nat): Bytes {
    seq(n, _ => 0)
  }

  /** Public halves are marked by a leading 1; a shared secret depends on both keys alike. */
  function Exchange(secret: Bytes, point: Bytes): Bytes {
    if point == [0] then [1] + secret else Zeros(|secret| + |point|)
  }

  function Seal(key: Bytes, plain: Bytes): Bytes {
    key + plain
  }

  function Unseal(key: Bytes, sealed: Bytes): Option<Bytes> {
    if key <= sealed then Some(sealed[|key|..]) else None
  }

  function Mark(secret: Bytes): Bytes {
    [1] + secret
  }

  /** IDs that tell names apart by their lengths, up to 255. */
  function Alias(name: string): Bytes {
    [(|name| % 256) as Byte] + Zeros(15)
  }

  ghost function Simple(): Library {
    Library(16, 32, Alias, Seal, Unseal, Seal, Unseal, Encode, Decode,
            Exchange, [0], p => p, s => s, Mark, s => s, key => true, key => true, key => true)
  }

  lemma UnsealsSealed(key: Bytes, plain: Bytes)
    ensures Unseal(key, Seal(key, plain)) == Some(plain)
  {
    assert Seal(key, plain)[|key|..] == plain;
  }

  lemma ExchangeIsSymmetric(a: Bytes, b: Bytes)
    ensures Exchange(a, Mark(b)) == Exchange(b, Exchange(a, [0]))
  {
    assert Mark(b)[0] == 1 && Mark(a)[0] == 1;
  }

  lemma SimpleIsSound()
    ensures Simple().Sound()
  {
    hide Encode, Decode, Exchange, Seal, Unseal, Mark;
    forall cmd ensures Decode(Encode(cmd)) == Some(cmd) {
      DecodesEncoded(cmd);
    }
    forall k, p ensures Unseal(k, Seal(k, p)) == Some(p) {
      UnsealsSealed(k, p);
    }
    forall a, b ensures Exchange(a, Mark(b)) == Exchange(b, Exchange(a, [0])) {
      ExchangeIsSymmetric(a, b);
    }
  }

  lemma DecodesEncoded(cmd: Command)
    ensures Decode(Encode(cmd)) == Some(cmd)
  {
    EncodeInjective(cmd, Decode(Encode(cmd)).value);
  }
}
