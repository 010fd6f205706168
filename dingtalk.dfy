/**
 * The DingTalk robot: it renders a batch of queued messages into one Markdown digest,
 * picks a title for it, signs the request with the robot's secret and shapes the webhook call.
 */
module DingTalk {
  import opened Wrappers
  import opened GoFormat
  import opened Signing

  // Message types the webhook accepts.
  const MT_TEXT: string := "text"
  const MT_MARKDOWN: string := "markdown"
  const MT_LINK: string := "link"
  const MT_ACTION_CARD: string := "actionCard"
  const MT_FEED_CARD: string := "feedCard"

  /** `1 * time.Second`, in nanoseconds. */
  const SECOND: Int64 := 1_000_000_000

  datatype At = At(atMobiles: seq<string>, atUserIds: seq<string>, isAtAll: bool)

  datatype Text = Text(content: string)

  datatype Link = Link(title: string, text: string, messageUrl: string, picUrl: string)

  datatype Markdown = Markdown(title: string, text: string)

  datatype ActionCard = ActionCard(title: string, text: string, singleTitle: string,
                                   singleURL: string, btnOrientation: string)

  /** The JSON body posted to the webhook; a nil pointer field is None. */
  datatype Message = Message(msgType: string, at: Option<At>, text: Option<Text>, link: Option<Link>,
                             markdown: Option<Markdown>, actionCard: Option<ActionCard>)

  /**
   * A value queued for the digest. The source accepts each of the four message structs either
   * by value or by a non-nil pointer and renders both forms the same way, so each has one case
   * here; any other value is `OtherItem`, carrying the text its JSON encoding (or `%+v`) produced.
   * A nil pointer to one of the four structs has no case: rendering it dereferences nil.
   */
  datatype Item =
    | MarkdownItem(markdown: Markdown)
    | TextItem(text: Text)
    | ActionCardItem(card: ActionCard)
    | LinkItem(link: Link)
    | OtherItem(rendered: string)

  /** One query parameter as added by `url.Values.Add`. */
  datatype QueryPair = QueryPair(key: string, value: string)

  /** A parsed webhook address: everything but the query, and the query's parameters in order. */
  datatype Url = Url(location: string, query: seq<QueryPair>)

  /** `url.Parse`, supplied by the caller. */
  type UrlParser = string -> Result<Url, Error>

  /** The HTTP POST handed over for delivery. */
  datatype Post = Post(url: Url, body: Message)

  /** What one flush of a batch does. */
  datatype Delivery = Suppressed | Posted(post: Post) | Dropped(error: Error)

  class Config {
    var duration: Int64
    var title: string
    var webhook: string
    var signSecret: string

    constructor (duration: Int64, title: string, webhook: string, signSecret: string)
      ensures this.duration == duration && this.title == title
      ensures this.webhook == webhook && this.signSecret == signSecret
    {
      this.duration := duration;
      this.title := title;
      this.webhook := webhook;
      this.signSecret := signSecret;
    }
  }

  /** The flush interval a robot runs with: an unset (zero) duration means one second. */
  function DefaultInterval(d: Int64): (r: Int64)
    ensures r != 0
    ensures d != 0 ==> r == d
    ensures d == 0 ==> r == SECOND
  {
    if d == 0 then SECOND else d
  }

  /** The text one queued value contributes to the digest. */
  function Fragment(item: Item): (f: string)
    ensures |f| > 0 && f[|f| - 1] == '\n'
  {
    match item
    case MarkdownItem(m) => "## " + m.title + "\n" + m.text + "\n"
    case TextItem(t) => t.content + "\n"
    case ActionCardItem(c) => "##" + c.title + "\n[" + c.singleTitle + "](" + c.singleURL + ")\n" + c.text + "\n"
    case LinkItem(l) =>
      "##" + l.title + "\n![](" + l.picUrl + ")[" + l.messageUrl + "](" + l.messageUrl + ")\n" + l.text + "\n"
    case OtherItem(r) => r + "\n"
  }

  /** The digest text: each item's fragment, in batch order. */
  function Render(items: seq<Item>): (s: string)
    ensures (s == []) == (items == [])
  {
    if items == [] then "" else Fragment(items[0]) + Render(items[1..])
  }

  /** Rendering distributes over concatenation of batches. */
  lemma {:induction false} RenderAppend(xs: seq<Item>, ys: seq<Item>)
    ensures Render(xs + ys) == Render(xs) + Render(ys)
  {
    if xs != [] {
      var f := Fragment(xs[0]);
      assert (xs + ys)[0] == xs[0];
      assert (xs + ys)[1..] == xs[1..] + ys;
      RenderAppend(xs[1..], ys);
      calc {
        Render(xs + ys);
        f + Render(xs[1..] + ys);
        f + (Render(xs[1..]) + Render(ys));
        (f + Render(xs[1..])) + Render(ys);
      }
    } else {
      assert xs + ys == ys;
    }
  }

  /** A non-empty digest ends in a line feed: the last item's fragment closes it. */
  lemma {:induction false} RenderEndsWithNewline(items: seq<Item>)
    requires items != []
    ensures var s := Render(items); |s| > 0 && s[|s| - 1] == '\n'
  {
    var f, rest := Fragment(items[0]), Render(items[1..]);
    assert Render(items) == f + rest;
    if |items| > 1 {
      RenderEndsWithNewline(items[1..]);
      assert Render(items)[|Render(items)| - 1] == rest[|rest| - 1];
    }
  }

  /** Rendering one more item of a batch appends exactly that item's fragment. */
  lemma RenderPrefix(items: seq<Item>, i: nat)
    requires i < |items|
    ensures Render(items[..i + 1]) == Render(items[..i]) + Fragment(items[i])
  {
    var x := items[i];
    assert items[..i + 1] == items[..i] + [x];
    RenderAppend(items[..i], [x]);
    assert [x][1..] == [];
  }

  /** A Text fragment is its content followed by a line feed; any other value is its encoding followed by one. */
  lemma FragmentShape(item: Item)
    ensures item.TextItem? ==> Fragment(item)[..|Fragment(item)| - 1] == item.text.content
    ensures item.OtherItem? ==> Fragment(item)[..|Fragment(item)| - 1] == item.rendered
  {
  }

  /**
   * A Markdown fragment is a level-two heading with a space after the hashes; action cards
   * and links put the title right after "##" with no space.
   */
  lemma HeadingShape(item: Item)
    requires !item.TextItem? && !item.OtherItem?
    ensures var f := Fragment(item); |f| >= 3 && f[..2] == "##"
    ensures item.MarkdownItem? ==> Fragment(item)[..3 + |item.markdown.title|] == "## " + item.markdown.title
    ensures item.ActionCardItem? ==> Fragment(item)[..2 + |item.card.title|] == "##" + item.card.title
    ensures item.LinkItem? ==> Fragment(item)[..2 + |item.link.title|] == "##" + item.link.title
  {
  }

  /**
   * In a Link fragment the message URL is both the link text and the link target; the
   * link's title is the heading, never the link text.
   */
  lemma LinkShowsUrlTwice(l: Link)
    ensures var f, u := Fragment(LinkItem(l)), l.messageUrl;
      var a := 2 + |l.title| + 5 + |l.picUrl| + 2;
      var b := a + |u| + 2;
      && b + |u| <= |f|
      && f[a - 1] == '[' && f[a..a + |u|] == u && f[a + |u|..b] == "]("
      && f[b..b + |u|] == u && f[b + |u|] == ')'
  {
  }

  /** The count-based title, as written: both branches format the same text. */
  function DefaultTitle(n: nat): (t: string)
    ensures t == Decimal(n) + " messages"
  {
    if n > 1 then Decimal(n) + " messages" else Decimal(n) + " messages"
  }

  /** The count can be read back from the default title, so distinct counts give distinct titles. */
  lemma DefaultTitleRecoversCount(n: nat)
    ensures var t := DefaultTitle(n);
      |t| > 9 && t[|t| - 9..] == " messages" && ParseDecimal(t[..|t| - 9]) == Some(n)
  {
    var t := DefaultTitle(n);
    assert t[..|t| - 9] == Decimal(n);
    DecimalRoundTrip(n);
  }

  /** The title of a digest: the custom formatter, else a non-empty configured title, else the count. */
  function ChooseTitle(formatter: Option<seq<Item> -> string>, configured: string, messages: seq<Item>): (t: string)
    ensures formatter.Some? ==> t == formatter.value(messages)
    ensures formatter.None? && configured != "" ==> t == configured
    ensures formatter.None? && configured == "" ==> t == Decimal(|messages|) + " messages"
    ensures formatter.None? && messages != [] ==> t != ""
  {
    if formatter.Some? then formatter.value(messages)
    else if configured != "" then configured
    else DefaultTitle(|messages|)
  }

  /** `time.Now().UnixNano() / 1e6`: Go's integer division truncates toward zero. */
  function UnixMillis(nanos: Int64): (ms: Int64)
    ensures nanos >= 0 ==> 0 <= ms && ms * 1_000_000 <= nanos < ms * 1_000_000 + 1_000_000
    ensures nanos < 0 ==> ms <= 0 && ms * 1_000_000 - 1_000_000 < nanos <= ms * 1_000_000
  {
    if nanos >= 0 then nanos / 1_000_000
    else var magnitude: int := -(nanos as int); -(magnitude / 1_000_000)
  }

  /**
   * The model's signature relation for a DingTalk request: its query holds a `timestamp`
   * parameter carrying a decimal number and a `sign` parameter carrying the MAC keyed by the
   * secret over that parameter's text, a line feed and the secret. Parameters are found by key,
   * not by position.
   */
  ghost predicate SignatureHolds(post: Post, secret: string, mac: Mac) {
    var q := post.url.query;
    exists i, j :: 0 <= i < |q| && 0 <= j < |q|
      && q[i].key == "timestamp" && q[j].key == "sign"
      && ParseDecimal(q[i].value).Some?
      && q[j].value == mac(secret, q[i].value + "\n" + secret)
  }

  class Robot {
    const config: Config
    var titleFormatter: Option<seq<Item> -> string>
    var at: Option<At>

    /** NewRobot: defaults the caller's configured interval to one second when it is zero. */
    constructor (config: Config)
      modifies config
      ensures this.config == config
      ensures config.duration == DefaultInterval(old(config.duration))
      ensures config.title == old(config.title) && config.webhook == old(config.webhook)
      ensures config.signSecret == old(config.signSecret)
      ensures titleFormatter.None? && at.None?
    {
      this.config := config;
      titleFormatter := None;
      at := None;
      new;
      if config.duration == 0 {
        config.duration := SECOND;
      }
    }

    /** Installs a title formatter; None, Go's nil, clears it and restores the fallback titles. */
    method SetTitleFormatter(format: Option<seq<Item> -> string>)
      modifies this
      ensures titleFormatter == format
      ensures at == old(at)
    {
      titleFormatter := format;
    }

    /** Folds the batch, in order, into one Markdown body with an empty title. */
    method PrepareMarkdown(messages: seq<Item>) returns (msg: Markdown)
      ensures msg.title == ""
      ensures msg.text == Render(messages)
    {
      msg := Markdown("", "");
      var i := 0;
      while i < |messages|
        invariant i <= |messages|
        invariant msg == Markdown("", Render(messages[..i]))
      {
        RenderPrefix(messages, i);
        msg := msg.(text := msg.text + Fragment(messages[i]));
        i := i + 1;
      }
      assert messages[..|messages|] == messages;
    }

    /** The millisecond timestamp and its signature: the MAC keyed by the secret over the signed text. */
    function Sign(nowNanos: Int64, mac: Mac): (r: (Int64, string))
      reads this, config
      ensures r.0 == UnixMillis(nowNanos)
      ensures r.1 == mac(config.signSecret, StringToSign(r.0, config.signSecret))
    {
      var timestamp := UnixMillis(nowNanos);
      (timestamp, mac(config.signSecret, StringToSign(timestamp, config.signSecret)))
    }

    /**
     * Adds the `timestamp` and `sign` parameters to the webhook's query and posts the digest,
     * retitled, as a markdown message. A webhook that does not parse is an error and nothing is sent.
     */
    method Request(title: string, msg: Markdown, nowNanos: Int64, parseUrl: UrlParser, mac: Mac)
      returns (r: Result<Post, Error>)
      ensures r.Success? <==> parseUrl(config.webhook).Success?
      ensures r.Failure? ==> r.error == parseUrl(config.webhook).error
      ensures r.Success? ==>
        var u, ts := parseUrl(config.webhook).value, UnixMillis(nowNanos);
        r.value == Post(Url(u.location, u.query + [QueryPair("timestamp", Decimal(ts)),
                                                   QueryPair("sign", mac(config.signSecret, StringToSign(ts, config.signSecret)))]),
                        Message(MT_MARKDOWN, at, None, None, Some(Markdown(title, msg.text)), None))
      ensures r.Success? ==> SignatureHolds(r.value, config.signSecret, mac)
    {
      var (timestamp, sign) := Sign(nowNanos, mac);
      var parsed := parseUrl(config.webhook);
      if parsed.Failure? {
        return Failure(parsed.error);
      }
      var address := parsed.value;
      var query := address.query;
      query := query + [QueryPair("timestamp", Decimal(timestamp))];
      query := query + [QueryPair("sign", sign)];
      address := address.(query := query);
      var retitled := msg.(title := title);
      r := Success(Post(address, Message(MT_MARKDOWN, at, None, None, Some(retitled), None)));
      DecimalRoundTrip(timestamp);
      assert query[|query| - 2].key == "timestamp" && query[|query| - 1].key == "sign";
    }

    /**
     * The callback `Listen` hands to the batch collector: an empty batch sends nothing;
     * otherwise the batch is rendered, titled and posted, and a request error is dropped.
     */
    method OnFlush(messages: seq<Item>, nowNanos: Int64, parseUrl: UrlParser, mac: Mac)
      returns (outcome: Delivery)
      ensures outcome.Suppressed? <==> messages == []
      ensures messages != [] && parseUrl(config.webhook).Failure? ==>
        outcome == Dropped(parseUrl(config.webhook).error)
      ensures messages != [] && parseUrl(config.webhook).Success? ==>
        var u, ts := parseUrl(config.webhook).value, UnixMillis(nowNanos);
        && outcome == Posted(Post(
             Url(u.location, u.query + [QueryPair("timestamp", Decimal(ts)),
                                        QueryPair("sign", mac(config.signSecret, StringToSign(ts, config.signSecret)))]),
             Message(MT_MARKDOWN, at, None, None,
                     Some(Markdown(ChooseTitle(titleFormatter, config.title, messages), Render(messages))), None)))
        && SignatureHolds(outcome.post, config.signSecret, mac)
    {
      var l := |messages|;
      if l == 0 {
        return Suppressed;
      }
      var title: string;
      if titleFormatter.Some? {
        title := titleFormatter.value(messages);
      } else if config.title != "" {
        title := config.title;
      } else {
        title := DefaultTitle(l);
      }
      var body := PrepareMarkdown(messages);
      var r := Request(title, body, nowNanos, parseUrl, mac);
      if r.Failure? {
        return Dropped(r.error);
      }
      outcome := Posted(r.value);
    }
  }
}
