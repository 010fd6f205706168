/**
 * The FeiShu robot: it sends one text message whose JSON body carries the timestamp and the
 * signature. The MAC is keyed by the signed text itself and fed no data.
 */
module FeiShu {
  import opened Wrappers
  import opened GoFormat
  import opened Signing

  const MSG_TYPE_TEXT: string := "text"

  datatype FeiShuText = FeiShuText(text: string)

  /** The JSON body posted to the webhook (`msg_type`, `content`, `timestamp`, `sign`). */
  datatype FeiShuMessage = FeiShuMessage(msgType: string, content: FeiShuText, timestamp: string, sign: string)

  /** The robot's webhook and secret, set once when it is created. */
  datatype FeiShuRobot = FeiShuRobot(webhook: string, secret: string)

  /** What `Sign` returns: the signature and the error, Go's `(string, error)`. */
  datatype Signed = Signed(signature: string, err: Option<Error>)

  /** The HTTP POST handed over for delivery. */
  datatype Post = Post(url: string, body: FeiShuMessage)

  function NewFeiShuRobot(webhook: string, secret: string): (r: FeiShuRobot)
    ensures r.webhook == webhook && r.secret == secret
  {
    FeiShuRobot(webhook, secret)
  }

  /**
   * Signs `timestamp` for `secret`. `writeErr` is what writing the (empty) data into the MAC
   * returned; on an error the signature is empty and the error is passed on.
   */
  function Sign(secret: string, timestamp: Int64, mac: Mac, writeErr: Option<Error>): (r: Signed)
    ensures writeErr.Some? ==> r == Signed("", writeErr)
    ensures writeErr.None? ==> r.err.None? && r.signature == mac(StringToSign(timestamp, secret), "")
  {
    var stringToSign := StringToSign(timestamp, secret);
    var data := "";
    if writeErr.Some? then Signed("", writeErr)
    else Signed(mac(stringToSign, data), None)
  }

  /**
   * The model's signature relation for a FeiShu body: its timestamp is a decimal number and
   * its signature is the MAC keyed by that text, a line feed and the secret, over no data.
   */
  ghost predicate SignatureHolds(m: FeiShuMessage, secret: string, mac: Mac) {
    && ParseDecimal(m.timestamp).Some?
    && m.sign == mac(m.timestamp + "\n" + secret, "")
  }

  /**
   * Builds the text message for time `ts` (Unix seconds) and posts it to the webhook.
   * A signing error is returned and nothing is built or posted.
   */
  function SendText(robot: FeiShuRobot, text: string, ts: Int64, mac: Mac, writeErr: Option<Error>)
    : (r: Result<Post, Error>)
    ensures r.Failure? <==> writeErr.Some?
    ensures r.Failure? ==> r.error == writeErr.value
    ensures r.Success? ==>
      && r.value.url == robot.webhook
      && r.value.body.msgType == MSG_TYPE_TEXT
      && r.value.body.content == FeiShuText(text)
      && r.value.body.timestamp == Decimal(ts)
      && ParseDecimal(r.value.body.timestamp) == Some(ts)
      && r.value.body.sign == Sign(robot.secret, ts, mac, writeErr).signature
      && SignatureHolds(r.value.body, robot.secret, mac)
  {
    var signed := Sign(robot.secret, ts, mac, writeErr);
    if signed.err.Some? then Failure(signed.err.value)
    else
      var msg := FeiShuMessage(MSG_TYPE_TEXT, FeiShuText(text), Decimal(ts), signed.signature);
      DecimalRoundTrip(ts);
      Success(Post(robot.webhook, msg))
  }

  /** Messages sent at different seconds carry different timestamps and are signed under different keys. */
  lemma DistinctSecondsDistinctKeys(robot: FeiShuRobot, text: string, t1: Int64, t2: Int64, mac: Mac)
    requires t1 != t2
    ensures var r1, r2 := SendText(robot, text, t1, mac, None), SendText(robot, text, t2, mac, None);
      && r1.Success? && r2.Success?
      && r1.value.body.timestamp != r2.value.body.timestamp
      && StringToSign(t1, robot.secret) != StringToSign(t2, robot.secret)
  {
    if StringToSign(t1, robot.secret) == StringToSign(t2, robot.secret) {
      StringToSignInjective(t1, robot.secret, t2, robot.secret);
    }
    if Decimal(t1) == Decimal(t2) {
      DecimalInjective(t1, t2);
    }
  }
}
