/** Request signing: the exchange authenticates a request by an HMAC-SHA256
    digest, hex-encoded, of one canonical message. The digest itself is a
    foreign primitive and is passed in as a function value, so all that is
    assumed of it is that it is a function (deterministic). */
module Signer {
  import opened Text

  /** The keyed digest: (secret, message) to lowercase hex text. */
  type Mac = (string, string) -> string

  /** The signed message: verb, path, body and the decimal timestamp,
      concatenated in that order with no delimiters. */
  function SigningMessage(verb: string, path: string, body: string, timestamp: int): string {
    verb + path + body + IntToDecimal(timestamp)
  }

  function Sign(mac: Mac, secret: string, verb: string, path: string, body: string, timestamp: int): string {
    mac(secret, SigningMessage(verb, path, body, timestamp))
  }

  /** The message starts with verb, path and body, and what follows them
      reads back as the timestamp. */
  lemma MessageLayout(verb: string, path: string, body: string, timestamp: int)
    ensures var m := SigningMessage(verb, path, body, timestamp);
            var k := |verb| + |path| + |body|;
            k < |m| && m[..k] == verb + path + body
            && IsNumeral(m[k..]) && ParseNumeral(m[k..]) == timestamp
  {
    var m := SigningMessage(verb, path, body, timestamp);
    var k := |verb| + |path| + |body|;
    assert m[k..] == IntToDecimal(timestamp);
    ParseIntToDecimal(timestamp);
  }

  /** With the other three fields fixed, each field of the message is
      determined by the message: changing only one of them changes it. */
  lemma MessageDeterminesEachField(
    m1: string, p1: string, b1: string, t1: int,
    m2: string, p2: string, b2: string, t2: int)
    requires SigningMessage(m1, p1, b1, t1) == SigningMessage(m2, p2, b2, t2)
    ensures p1 == p2 && b1 == b2 && t1 == t2 ==> m1 == m2
    ensures m1 == m2 && b1 == b2 && t1 == t2 ==> p1 == p2
    ensures m1 == m2 && p1 == p2 && t1 == t2 ==> b1 == b2
    ensures m1 == m2 && p1 == p2 && b1 == b2 ==> t1 == t2
  {
    var d1, d2 := IntToDecimal(t1), IntToDecimal(t2);
    if p1 == p2 && b1 == b2 && t1 == t2 {
      CancelSuffix(m1 + p1 + b1, m2 + p1 + b1, d1);
      CancelSuffix(m1 + p1, m2 + p1, b1);
      CancelSuffix(m1, m2, p1);
    }
    if m1 == m2 && b1 == b2 && t1 == t2 {
      CancelSuffix(m1 + p1 + b1, m1 + p2 + b1, d1);
      CancelSuffix(m1 + p1, m1 + p2, b1);
      CancelPrefix(m1, p1, p2);
    }
    if m1 == m2 && p1 == p2 && t1 == t2 {
      CancelSuffix(m1 + p1 + b1, m1 + p1 + b2, d1);
      CancelPrefix(m1 + p1, b1, b2);
    }
    if m1 == m2 && p1 == p2 && b1 == b2 {
      CancelPrefix(m1 + p1 + b1, d1, d2);
      IntToDecimalInjective(t1, t2);
    }
  }

  lemma CancelPrefix(a: string, x: string, y: string)
    requires a + x == a + y
    ensures x == y
  {
    assert x == (a + x)[|a|..];
    assert y == (a + y)[|a|..];
  }

  lemma CancelSuffix(x: string, y: string, d: string)
    requires x + d == y + d
    ensures x == y
  {
    assert |x| == |y|;
    assert x == (x + d)[..|x|];
    assert y == (y + d)[..|y|];
  }
}
