/**
 * The text both robots sign: the decimal timestamp, a line feed, and the shared secret.
 * HMAC-SHA256 followed by standard base64 is not modelled; it is the uninterpreted `Mac`.
 */
module Signing {
  import opened Wrappers
  import opened GoFormat

  /** base64(HMAC-SHA256(key, data)), as a function the caller supplies. */
  type Mac = (string, string) -> string

  /** The signed text: it ends in a line feed followed by exactly the secret. */
  function StringToSign(timestamp: int, secret: string): (s: string)
    ensures |s| > |secret| + 1
    ensures s[|s| - |secret| - 1..] == "\n" + secret
  {
    Decimal(timestamp) + "\n" + secret
  }

  /**
   * The signed text splits at its first line feed into a decimal that reads back as the
   * timestamp and, after it, exactly the secret.
   */
  lemma StringToSignSplits(timestamp: int, secret: string)
    ensures var s, k := StringToSign(timestamp, secret), |Decimal(timestamp)|;
      && k < |s| && s[k] == '\n' && '\n' !in s[..k]
      && ParseDecimal(s[..k]) == Some(timestamp)
      && s[k + 1..] == secret
  {
    var s, d := StringToSign(timestamp, secret), Decimal(timestamp);
    assert s[..|d|] == d;
    assert s[|d| + 1..] == secret;
    DecimalRoundTrip(timestamp);
  }

  /** Different timestamps or different secrets never produce the same signed text. */
  lemma StringToSignInjective(t1: int, s1: string, t2: int, s2: string)
    requires StringToSign(t1, s1) == StringToSign(t2, s2)
    ensures t1 == t2 && s1 == s2
  {
    var s := StringToSign(t1, s1);
    var d1, d2 := Decimal(t1), Decimal(t2);
    StringToSignSplits(t1, s1);
    StringToSignSplits(t2, s2);
    assert |d1| == |d2|;
    DecimalInjective(t1, t2);
  }

  /**
   * The signed text is never the secret itself:
   * DingTalk keys its MAC by the secret, FeiShu by the signed text, and the two keys differ.
   */
  lemma StringToSignIsNotSecret(timestamp: int, secret: string)
    ensures StringToSign(timestamp, secret) != secret
  {
  }
}
