# Webhook robots: digest rendering and request signing

This project models the payload-building core of two chat-bot webhook clients.

- **DingTalk robot** (`_dingtalk/dingtalk.go`). The batch collector hands it a batch of queued values. Its flush callback sends nothing for an empty batch. Otherwise it chooses a title: the custom formatter, else the configured title, else `"<n> messages"`. It folds the batch in order into one Markdown body, one fragment per item. It signs the millisecond timestamp with HMAC keyed by the secret. It adds `timestamp` and `sign` to the webhook's query and posts a `markdown` message. `NewRobot` sets a zero flush interval to one second.
- **FeiShu robot** (`feishu.go`). `Sign` builds the text `"<seconds>\n<secret>"` and uses it as the HMAC *key* over empty data. If writing into the MAC fails, it returns an empty signature and the error. `SendText` builds a `text` message whose JSON body carries the text unchanged, the decimal timestamp and the signature. A signing error stops it before anything is built.

Modules:
- `Wrappers`: `Option`, `Result` and `Error`, for Go's nil pointers and error returns.
- `GoFormat`: Go's `int64` and its `%d` rendering, with a parser that reads it back.
- `Signing`: the signed text `Decimal(ts) + "\n" + secret`, shared by both robots.
- `DingTalk`: the `Config` and `Robot` classes and the message structs as datatypes. The digest is built by a loop over the batch.
- `FeiShu`: pure functions over datatypes. The `FeiShuRobot` fields are set once and never updated.

Four collaborators are parameters:
- the clock: `nowNanos` for DingTalk, `ts` in seconds for FeiShu;
- base64(HMAC-SHA256(key, data)): an arbitrary `Mac` function;
- `url.Parse`: an arbitrary `UrlParser`;
- the error result of the MAC write: `writeErr`.

Every property is therefore proved for every clock reading, every MAC and every URL parser.

The FeiShu robot does not key its MAC with the shared secret. It keys it with the signed text and feeds it no data (`feishu.go:58-59`). The model follows the code, and `Signing.StringToSignIsNotSecret` records that the two keys never coincide.

## Model

| member | source | states |
|---|---|---|
| `GoFormat.Decimal` | _dingtalk/dingtalk.go:187 | the `%d` / `FormatInt` rendering is non-empty, has no line feed, and starts with `-` exactly for negative numbers |
| `GoFormat.Digits` | _dingtalk/dingtalk.go:171 | the digits of a natural number are non-empty, all decimal digits, with no leading zero unless the number is 0 |
| `GoFormat.DigitsRoundTrip` | _dingtalk/dingtalk.go:171 | reading back the digits of n gives n |
| `GoFormat.DecimalRoundTrip` | feishu.go:43 | the decimal `timestamp` text always parses back to the exact timestamp |
| `GoFormat.DecimalInjective` | feishu.go:56 | distinct timestamps render to distinct texts |
| `Signing.StringToSign` | _dingtalk/dingtalk.go:171 | the signed text `%d` of the timestamp, a line feed and the secret ends in a line feed followed by exactly the secret, and is longer than the secret by more than one character |
| `Signing.StringToSignSplits` | _dingtalk/dingtalk.go:171 | the signed text splits at its first line feed into a decimal that reads back as the timestamp, followed by exactly the secret |
| `Signing.StringToSignInjective` | feishu.go:56 | two signed texts are equal only if their timestamps and their secrets are equal, so a changed timestamp always changes what is signed |
| `Signing.StringToSignIsNotSecret` | feishu.go:56-58 | the signed text never equals the secret, so the FeiShu MAC key (the signed text) never equals the DingTalk key (the secret) |
| `DingTalk.Config.constructor` | _dingtalk/dingtalk.go:25-30 | a configuration holds exactly the given duration, title, webhook and secret |
| `DingTalk.DefaultInterval` | _dingtalk/dingtalk.go:72-74 | the interval is one second exactly when the configured one is zero; a non-zero interval is kept; the result is never zero |
| `DingTalk.Robot.constructor` | _dingtalk/dingtalk.go:71-80 | `NewRobot` rewrites the caller's `Duration` to `DefaultInterval` of its old value and leaves the other fields alone; no formatter and no `at` are set |
| `DingTalk.Robot.SetTitleFormatter` | _dingtalk/dingtalk.go:123-125 | installs the given formatter, or clears it when given None (Go's nil), and changes nothing else |
| `DingTalk.Fragment` | _dingtalk/dingtalk.go:131-163 | every item, of any kind, contributes a non-empty fragment ending in a line feed |
| `DingTalk.Render` | _dingtalk/dingtalk.go:127-166 | the digest is empty exactly for an empty batch |
| `DingTalk.RenderEndsWithNewline` | _dingtalk/dingtalk.go:130-164 | a non-empty digest ends in a line feed |
| `DingTalk.RenderAppend` | _dingtalk/dingtalk.go:130-164 | rendering `xs + ys` is rendering `xs` followed by rendering `ys` |
| `DingTalk.RenderPrefix` | _dingtalk/dingtalk.go:130-164 | rendering one more item of the batch appends exactly that item's fragment to the rendering of the items before it |
| `DingTalk.FragmentShape` | _dingtalk/dingtalk.go:138-162 | a Text fragment is its content plus a line feed; any other value is its encoding plus a line feed |
| `DingTalk.HeadingShape` | _dingtalk/dingtalk.go:132-155 | Markdown fragments begin `"## " + Title`; ActionCard and Link fragments begin `"##" + Title` with no space |
| `DingTalk.LinkShowsUrlTwice` | _dingtalk/dingtalk.go:150-155 | in a Link fragment, `MessageUrl` is both the bracketed link text and the link target after the picture; the link title is not the link text |
| `DingTalk.DefaultTitle` | _dingtalk/dingtalk.go:109-113 | both branches give the same text, `Decimal(n) + " messages"`, for every n (the callback only uses it for n ≥ 1) |
| `DingTalk.DefaultTitleRecoversCount` | _dingtalk/dingtalk.go:109-113 | the default title ends in `" messages"` and its prefix reads back as the batch size |
| `DingTalk.ChooseTitle` | _dingtalk/dingtalk.go:103-114 | a set formatter wins; otherwise a non-empty configured title; otherwise the count title; without a formatter the title of a non-empty batch is never empty |
| `DingTalk.UnixMillis` | _dingtalk/dingtalk.go:170 | nanoseconds to milliseconds with Go's truncating division: the result's magnitude is the magnitude of the input divided by 10^6, rounded down, and it keeps the input's sign |
| `DingTalk.Robot.PrepareMarkdown` | _dingtalk/dingtalk.go:127-167 | the loop's result has an empty title and the in-order rendering of the whole batch as its text |
| `DingTalk.Robot.Sign` | _dingtalk/dingtalk.go:169-176 | the timestamp is the clock in milliseconds (`UnixMillis`), and the signature is the MAC keyed by the secret over `StringToSign` of that timestamp and the secret |
| `DingTalk.Robot.Request` | _dingtalk/dingtalk.go:178-201 | returns the parse error when the webhook does not parse. Otherwise it keeps the webhook's location and query and appends exactly `timestamp=Decimal(ms)` and `sign=Mac(secret, StringToSign(ms, secret))`. The whole post is given exactly: a `markdown` message carrying the digest retitled with the chosen title and nothing else set but `at`. The post also meets the model's signature relation, with the `timestamp` and `sign` parameters found by key |
| `DingTalk.Robot.OnFlush` | _dingtalk/dingtalk.go:97-121 | an empty batch sends nothing, and only an empty batch does. A webhook that does not parse drops the batch with its error. Otherwise the post is given exactly. It goes to the webhook's location, with the webhook's query followed by `timestamp=Decimal(UnixMillis(nowNanos))` and the matching `sign`. It carries one `markdown` message titled by `ChooseTitle` with the batch's rendering as its text, `at`, and nothing else. It meets the model's signature relation |
| `FeiShu.NewFeiShuRobot` | feishu.go:28-30 | the robot keeps exactly the given webhook and secret |
| `FeiShu.Sign` | feishu.go:55-65 | a failed MAC write gives an empty signature together with that error. Otherwise there is no error, and the signature is the MAC keyed by `StringToSign(ts, secret)` over empty data |
| `FeiShu.SendText` | feishu.go:32-53 | fails exactly when signing fails, with the signing error. Otherwise it posts to the webhook a `text` message whose content is the input text, whose timestamp is exactly `Decimal(ts)` (and so parses back to `ts`), whose signature is the one `Sign` gave for that `ts`, and which meets the model's signature relation |
| `FeiShu.DistinctSecondsDistinctKeys` | feishu.go:33-44 | messages sent at different seconds carry different timestamp fields and are signed under different keys |

## Left out

- The `_bucket` batch collector is not part of this model (`_dingtalk/dingtalk.go:9`, `:77`, `:89-95`, `:98`). This covers `Robot.Bucket`, `Robot.Push`, the timer, and the swap of the pending batch. `OnFlush` is the callback applied to one given batch.
- HTTP delivery (`_http.Post`) and its response errors are not modelled (`_dingtalk/dingtalk.go:191-199`, `feishu.go:46-51`). `Posted` and `Success(Post(..))` mean "handed to the HTTP client". So are the `log.Println` and `fmt.Println` calls.
- `time.Now()` is a parameter. DingTalk takes nanoseconds since the epoch. FeiShu takes seconds.
- HMAC-SHA256 and base64 are the parameter `mac`. No property of the digest itself is assumed. In particular, "a different timestamp gives a different signature" is proved only for the signed text (`Signing.StringToSignInjective`).
- `url.Parse` is the parameter `parseUrl`. `query.Encode()` sorts keys and escapes values, and `address.String()` rebuilds the URL; neither is modelled. `Url.query` lists the parameters in the order they were added. `SignatureHolds` therefore finds parameters by key, not by position.
- How the DingTalk and FeiShu servers check a signature is outside the source. `SignatureHolds` is the model's own relation between the posted timestamp, secret and signature.
- The `json.Marshal` / `%+v` rendering of values of other types is supplied as `OtherItem(rendered)` (`_dingtalk/dingtalk.go:156-162`).
- DingTalk.Robot.PrepareMarkdown: Go allocates a `*Markdown` and updates it through the pointer. The model updates a `Markdown` value. No other code holds that pointer, so aliasing is the only thing not captured.
- DingTalk.Robot.Request: the write of the chosen title into `msg.Title` is modelled as the retitled copy inside the posted message. On a parse error the digest is not retitled, and the model returns no digest.
- A typed nil `*Markdown`, `*Text`, `*ActionCard` or `*Link` in a batch is not modelled. The source dereferences it without a nil check (`_dingtalk/dingtalk.go:133-134`, `:139-140`, `:145-146`, `:151-152`), so the flush goroutine panics. Every `Item` in the model is a value.
- `Robot.at` has no setter in the source; it is carried into the message but is always None after construction.
- Strings are sequences of characters, not bytes. The HMAC key and data are the strings themselves.
- `_feishu/feishu_test.go` exercises a live webhook and asserts nothing that could be stated here.
