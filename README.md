# Facebook relay of the FacebookSSO plugin, in Dafny

This project models `Facebookclient` (`plugins/FacebookSSO/lib/facebookclient.php`), the
part of the FacebookSSO plugin that relays a local notice to its author's Facebook account.
Given a notice, the client:

- decides whether the notice may go out (`isFacebookBound`): the author must have a
  Foreign_link, the notice must not have come from Facebook, the link's send bit must be
  on, and a reply (an `@nickname` mention) goes out only if the link's send-replies bit is
  on;
- picks the API generation: the Graph API when the link holds an access token, the old
  REST API otherwise (`sendNotice`);
- on the old REST API, queries the `publish_stream` and `status_update` permissions and
  posts through `stream.publish` or, failing that, `users.setStatus` (`sendOldRest`,
  `checkPermission`);
- translates attachments: the first attachment as a Graph picture (`sendGraph`), or every
  attachment as a stream.publish media entry or a name/href link (`formatAttachments`,
  `getFacebookMedia`);
- classifies a FacebookApiException by its code (re-read from a `(#NNN)` message prefix
  when the code is 0), and on codes 200 and 250 deletes the link and mails the user
  (`handleFacebookError`, `disconnect`).

Layout, one module per file:

- `options.dfy`, `php.dfy`: an Option type, PHP's `empty()` on strings (both `""` and
  `"0"` are empty) and the string-prefix test.
- `notices.dfy`: the notice, attachment, enclosure, Foreign_link and exception records.
- `mention.dfy`: the pattern `@[a-zA-Z0-9_]{1,15}\b` as a predicate over positions and an
  executable search proved equal to it. The run is ASCII, but under the `u` flag `\b`
  counts every Unicode letter and digit as a word character. Which non-ASCII characters
  those are is PCRE's Unicode table, which both the predicate and the search take as a
  parameter.
- `eligibility.dfy`: `isFacebookBound`, including the send test exactly as PHP parses it.
- `error_codes.dfy`: the code extraction, with a round trip through the `(#NNN)` format,
  and the switch of `handleFacebookError`.
- `media.dfy`: `getFacebookMedia`, the stream attachment `formatAttachments` returns, and
  the Graph parameters of `sendGraph`.
- `app_config.dfy`: the application ID/secret fallback of `getFacebook`.
- `relay.dfy`: the sequence of requests one relay makes to the outside world, as
  functions of the notice, the link and the world's answers, with the lemmas about it.
- `client.dfy`: the class `Facebookclient`, whose methods make those requests step by step
  through the `world` and append them to a ghost `trace`; each method is proved to record
  the trace `relay.dfy` specifies.
- `as_written.dfy`: the two places where the source aborts (see Findings).

The Facebook SDK, `Foreign_link::delete()` and `mail_to_user` are not modelled. They are
an oracle, `Relay.World`, which holds:

- the SDK's reply to each request: a value, or a FacebookApiException with a code and a
  message;
- whether the delete succeeds and whether the mail is sent;
- PCRE's Unicode table of non-ASCII letters and digits.

The author's link, which `Foreign_link::getByUserID` looks up, is a separate argument of
the client's constructor: `Some(link)` or `None`. Every request is recorded in the trace as a `Relay.Effect`. The trace is how
"no remote call", "publish_stream before status_update" and "exactly one delete, then
the mail" are stated. The noticesync bits are `FOREIGN_NOTICE_SEND = 1` and
`FOREIGN_NOTICE_SEND_REPLY = 4`, StatusNet's framework constants. The file that defines
them is not part of this model. `noticesync` is a 64-bit value, like a PHP integer.

Two behaviours of the code are modelled as written:

- There is no "retry" outcome. Every error path returns true (dequeue), including rate
  limiting (341) and errors without a code.
- `sendNotice` returns nothing, so the relay reports no delivery outcome.

## Model

| member | source | states |
|---|---|---|
| `Mention.ContainsMention` | plugins/FacebookSSO/lib/facebookclient.php:156 | true exactly when `@[a-zA-Z0-9_]{1,15}\b` matches somewhere in the content: an `@`, then a maximal ASCII run of 1 to 15 characters, then the end of the content or a character that is not a Unicode letter, digit or `_` |
| `Mention.MentionFromCorrect` | plugins/FacebookSSO/lib/facebookclient.php:156 | the left-to-right search finds a mention exactly when the pattern matches at or after the start position |
| `Mention.NonAsciiLetterBlocksMention` | plugins/FacebookSSO/lib/facebookclient.php:156 | an `@` at any position whose maximal ASCII run is followed by a non-ASCII letter or digit starts no match, whatever the run's length |
| `Mention.JoseIsNoMention` | plugins/FacebookSSO/lib/facebookclient.php:156 | `"@josé"` is not a mention when `é` is a Unicode letter |
| `Eligibility.SendTest` | plugins/FacebookSSO/lib/facebookclient.php:142 | the test as PHP parses it (`noticesync & (1 == 1)`) holds exactly when the FOREIGN_NOTICE_SEND bit is set |
| `Eligibility.Assess` | plugins/FacebookSSO/lib/facebookclient.php:114-162 | the checks stop the notice in source order: no link, then source "Facebook", then send bit off, then a reply without the send-replies bit |
| `Eligibility.IsFacebookBound` | plugins/FacebookSSO/lib/facebookclient.php:114-162 | true exactly when there is a link, the source is not "Facebook", the send bit is on, and the content has no mention or the send-replies bit is on |
| `ErrorCodes.CodeInMessage` | plugins/FacebookSSO/lib/facebookclient.php:386-389 | a code is found exactly when the message starts with `(#`, digits, `)`; it is the value of those digits |
| `ErrorCodes.CodeRoundTrip` | plugins/FacebookSSO/lib/facebookclient.php:386-389 | reading back a message that starts with `(#n)` gives n |
| `ErrorCodes.EffectiveCode` | plugins/FacebookSSO/lib/facebookclient.php:379-389 | a non-zero exception code is used as is; a zero code is replaced by the value of the digits in the message's `(#digits)` prefix, or by null when there is none |
| `ErrorCodes.ZeroCodeReadsMessage` | plugins/FacebookSSO/lib/facebookclient.php:383-389 | an exception with code 0 and message `(#n)...` is handled as code n |
| `ErrorCodes.Classify` | plugins/FacebookSSO/lib/facebookclient.php:392-455 | codes 200 and 250 (and only they) revoke; 100 is an invalid parameter, 341 the rate limit; null and every other code are unrecognised |
| `Media.GetFacebookMedia` | plugins/FacebookSSO/lib/facebookclient.php:586-609 | a media entry exists exactly for `image/*`, `audio/mpeg` and Flash; image gives src and href, mp3 gives src, flash gives swfsrc, all equal to the file's URL |
| `Media.MediaOf` | plugins/FacebookSSO/lib/facebookclient.php:561-570 | there are never more media entries than attachments |
| `Media.MediaOfAppend` | plugins/FacebookSSO/lib/facebookclient.php:561-570 | media entries keep attachment order: the entries of a concatenation are the concatenated entries |
| `Media.MediaOfFromAttachments` | plugins/FacebookSSO/lib/facebookclient.php:563-569 | every media entry is the classification of some attachment, through its enclosure when it has one |
| `Media.MediaOfEmpty` | plugins/FacebookSSO/lib/facebookclient.php:561-570 | the media list is empty exactly when no attachment (or enclosure) is of a media type |
| `Media.LastUntypedIsLast` | plugins/FacebookSSO/lib/facebookclient.php:570-574 | the name/href source is the last attachment without a media entry; there is none only when every attachment has an entry |
| `Media.StreamAttachmentOf` | plugins/FacebookSSO/lib/facebookclient.php:554-581 | media are the typed entries in order; with any media, name and href are absent; otherwise they come from the last untyped attachment, name being the title unless empty, else the URL |
| `Media.OneRepresentation` | plugins/FacebookSSO/lib/facebookclient.php:576-579 | with attachments present, exactly one of a non-empty media list and a name/href link is sent |
| `Media.GraphParams` | plugins/FacebookSSO/lib/facebookclient.php:214-235 | access_token and message are always set; picture, caption and source are set exactly when the first attachment is an image, mp3 or Flash, with picture = source = its URL |
| `Media.GraphAgreesWithRest` | plugins/FacebookSSO/lib/facebookclient.php:227-230 | `sendGraph`'s spelling of the allow-list (`image/` prefix or Flash/MP3 membership) accepts exactly the types `getFacebookMedia` gives an entry |
| `AppConfig.GetFacebook` | plugins/FacebookSSO/lib/facebookclient.php:72-97 | each value is the argument unless it is empty, else the local configuration value; if either is still empty, both global values are used, never a mix |
| `Relay.CallEffectsCounts` | plugins/FacebookSSO/lib/facebookclient.php:239-245 | a handled SDK call is one request, followed by one delete and one mail exactly when it throws a revoking error |
| `Relay.LoopGuard` | plugins/FacebookSSO/lib/facebookclient.php:128-139 | a notice whose source is "Facebook" causes no effect at all |
| `Relay.ReplyPolicy` | plugins/FacebookSSO/lib/facebookclient.php:154-161 | a notice with a mention causes no effect when the send-replies bit is off |
| `Relay.NoLinkNoEffects` | plugins/FacebookSSO/lib/facebookclient.php:116-126 | without a link the relay causes no effect, however often it runs |
| `Relay.GraphPathSkipsPermissions` | plugins/FacebookSSO/lib/facebookclient.php:173-181 | with credentials, the first effect is the Graph post and no permission is ever queried |
| `Relay.OldRestOrder` | plugins/FacebookSSO/lib/facebookclient.php:256-295 | without credentials, publish_stream is queried first, then status_update; stream.publish follows if publishing is granted, else users.setStatus if updating is, else nothing |
| `Relay.OldRestCounts` | plugins/FacebookSSO/lib/facebookclient.php:256-295 | the old REST path makes at most one post and at most one delete, with one mail per delete |
| `Relay.AtMostOnePostAndDelete` | plugins/FacebookSSO/lib/facebookclient.php:168-192 | whatever the world answers, a relay makes at most one post and at most one delete, with as many mails as deletes |
| `Relay.DisconnectAlwaysMails` | plugins/FacebookSSO/lib/facebookclient.php:615-666 | a revoking error causes exactly one delete, followed by the mail whether or not the delete succeeded |
| `Client.Facebookclient.constructor` | plugins/FacebookSSO/lib/facebookclient.php:51-62 | binds the notice, the author's link (possibly none) and the world, with an empty trace |
| `Client.Facebookclient.FacebookBroadcastNotice` | plugins/FacebookSSO/lib/facebookclient.php:104-109 | a fresh client's trace is exactly the relay's specified effects |
| `Client.Facebookclient.SendNotice` | plugins/FacebookSSO/lib/facebookclient.php:168-192 | records nothing for an ineligible notice, else exactly the old REST effects (no credentials) or the Graph effects |
| `Client.Facebookclient.SendGraph` | plugins/FacebookSSO/lib/facebookclient.php:197-248 | builds the parameters in place, posts once to `/<fbuid>/feed`, handles an exception, and always returns true |
| `Client.Facebookclient.SendOldRest` | plugins/FacebookSSO/lib/facebookclient.php:256-295 | records exactly the old REST effects and always returns true |
| `Client.Facebookclient.CheckPermission` | plugins/FacebookSSO/lib/facebookclient.php:307-369 | any name but publish_stream and status_update throws a ServerException with no request; otherwise one hasAppPermission request, granted exactly when the SDK answers 1 |
| `Client.Facebookclient.RestStatusUpdate` | plugins/FacebookSSO/lib/facebookclient.php:466-502 | one users.setStatus request with the content; it lets the SDK's exception escape |
| `Client.Facebookclient.RestPublishStream` | plugins/FacebookSSO/lib/facebookclient.php:507-546 | one stream.publish request with the content and the formatted attachments; it lets the SDK's exception escape |
| `Client.Facebookclient.FormatAttachments` | plugins/FacebookSSO/lib/facebookclient.php:554-581 | the loop returns exactly the specified stream attachment |
| `Client.Facebookclient.HandleFacebookError` | plugins/FacebookSSO/lib/facebookclient.php:377-456 | disconnects exactly on a revoking code, records nothing otherwise, and always returns true (dequeue) |
| `Client.Facebookclient.Disconnect` | plugins/FacebookSSO/lib/facebookclient.php:615-666 | one link deletion, then the mail, whatever the delete returned; nothing is thrown |
| `Client.Facebookclient.DeleteForeignLink` | plugins/FacebookSSO/lib/facebookclient.php:630 | one deletion request, recorded with its result |
| `Client.Facebookclient.MailFacebookDisconnect` | plugins/FacebookSSO/lib/facebookclient.php:674-705 | one mail to the link's user, recorded with its result |
| `AsWritten.NoLinkAbortsAsWritten` | plugins/FacebookSSO/lib/facebookclient.php:56-61 | as written, an author without a link makes the constructor abort, although the eligibility check would skip the notice |
| `AsWritten.DisconnectAsWrittenNeverMails` | plugins/FacebookSSO/lib/facebookclient.php:674-676 | as written, disconnect stops after the delete and sends no mail, while the intended disconnect always mails |

## Left out

- `actions/siteadminpanel.php`, `plugins/Bookmark/actions/newbookmark.php` and
  `_darcs/pristine/actions/sup.php`: form handling, ORM saves and a raw SQL feed. They are
  not part of the relay.
- Logging (`common_log`, `common_debug`, `common_log_db_error`): it has no effect on
  outcomes. The undefined variables used only in log messages (`$user` at lines 424-425,
  `$result` at line 361, `$flink` at line 643) are therefore not modelled.
- The Facebook SDK, `Foreign_link::delete()` and `mail_to_user`: their answers are
  fields of `Relay.World`. `Foreign_link::getByUserID`'s answer is the constructor's
  `flink` argument. `getUser` is not modelled: the mail goes to the link's `userId`. SDK
  exceptions other than FacebookApiException are not modelled.
- `mailFacebookDisconnect`: the subject and body text, the site name and the locale
  switching are not modelled; the mail is one recorded request to the link's user.
- `getFacebook`: the Facebook SDK object it constructs (and its `cookie` option) is not
  modelled; the model returns the application ID and secret it would be given.
- `Client.Facebookclient.FacebookBroadcastNotice`: returns the client so that its trace
  can be stated; the source returns `sendNotice()`'s null.
- `Client.Facebookclient.CheckPermission`: the SDK's answer is an integer; PHP's loose
  `== 1` would also accept `true`, `"1"` or `"1.0"`.
- `ErrorCodes.CodeInMessage`: a code too long for a PHP integer becomes a float in PHP;
  the model keeps the exact value. This cannot change which case matches.
- `Mention.ContainsMention`: content that is not valid UTF-8 makes `preg_match` fail in
  PHP, so such a notice counts as no reply. The model works on characters.
- `Mention.ContainsMention`: which non-ASCII characters PCRE counts as letters or digits
  (its Unicode property table) is not modelled; it is the parameter `Relay.World.unicodeWord`.
- The SDK answers each distinct request with one fixed reply. A relay never
  repeats a request, so this loses nothing for one relay.

## Findings

| source | as written | input that shows it | evidently intended | confidence | as-written member | corrected member |
|---|---|---|---|---|---|---|
| plugins/FacebookSSO/lib/facebookclient.php:56-61 | the constructor calls `$this->flink->getUser()` before `isFacebookBound` tests `empty($this->flink)` at line 116 | a notice whose author has no Facebook link (`getByUserID` returns null) | the notice is skipped with no request, as the check at line 116 intends | medium (assumes `getByUserID` returns null when there is no link); not executed | `AsWritten.NoLinkAbortsAsWritten` | `Relay.NoLinkNoEffects` |
| plugins/FacebookSSO/lib/facebookclient.php:676 | `mailFacebookDisconnect` calls `getProfile()` on the undefined local `$user`, a fatal error, so the mail is never sent | any exception with code 200 or 250, e.g. message `(#200) Permissions error` with code 0 | the user is mailed after the link is deleted | high; not executed | `AsWritten.DisconnectAsWrittenNeverMails` | `Relay.DisconnectAlwaysMails` |
