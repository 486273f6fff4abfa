/**
 * The side effects of relaying one notice, as a function of the notice, the author's
 * link and the answers of the outside world (the Facebook SDK, the link store and the
 * mailer). `Client.Facebookclient` performs these effects step by step and is proved
 * to record exactly this trace.
 */
module Relay {
  import opened Options
  import opened Notices
  import Php
  import Mention
  import opened Eligibility
  import opened ErrorCodes
  import opened Media

  const PUBLISH_STREAM: string := "publish_stream"
  const STATUS_UPDATE: string := "status_update"

  /** One request through the Facebook SDK. */
  datatype Call =
    | HasAppPermission(extPerm: string, uid: string)                        // users.hasAppPermission
    | StreamPublish(message: string, attachment: StreamAttachment, uid: string)  // stream.publish
    | SetStatus(status: string, statusIncludesVerb: bool, uid: string)      // users.setStatus
    | GraphPost(path: string, params: map<string, string>)                  // Graph API POST

  /** The SDK's answer: a value, or a FacebookApiException. */
  datatype Reply = Value(value: int) | Raises(error: FacebookError)

  /** What the relay does to the outside world, with the result each collaborator reported. */
  datatype Effect =
    | RemoteCall(call: Call)
    | DeleteLink(userId: int, deleted: bool)     // Foreign_link::delete()
    | MailDisconnect(userId: int, sent: bool)    // the "connection removed" mail

  /**
   * The outside world: the SDK's answer to each call, whether delete and mail succeed,
   * and PCRE's Unicode table (which non-ASCII characters are letters or digits).
   */
  datatype World = World(api: Call -> Reply, deleteSucceeds: bool, mailSucceeds: bool, unicodeWord: char -> bool)

  /** `checkPermission`'s test of the SDK's answer: `$hasPermission == 1`. */
  predicate Granted(r: Reply) {
    r.Value? && r.value == 1
  }

  function PermissionCall(perm: string, link: ForeignLink): Call {
    HasAppPermission(perm, link.foreignId)
  }

  function GraphCall(n: Notice, link: ForeignLink): Call {
    GraphPost("/" + link.foreignId + "/feed", GraphParams(link.credentials, n.content, n.attachments))
  }

  function StreamPublishCall(n: Notice, link: ForeignLink): Call {
    StreamPublish(n.content, StreamAttachmentOf(n.attachments), link.foreignId)
  }

  function SetStatusCall(n: Notice, link: ForeignLink): Call {
    SetStatus(n.content, true, link.foreignId)
  }

  /** `disconnect`: delete the link, then mail the user whatever the delete returned. */
  function DisconnectEffects(link: ForeignLink, w: World): seq<Effect> {
    [DeleteLink(link.userId, w.deleteSucceeds), MailDisconnect(link.userId, w.mailSucceeds)]
  }

  /** `handleFacebookError`: only a revoking error has effects. */
  function ErrorEffects(link: ForeignLink, e: FacebookError, w: World): seq<Effect> {
    if Revokes(e) then DisconnectEffects(link, w) else []
  }

  /** One SDK call and, if it throws, the handling of the exception. */
  function CallEffects(link: ForeignLink, c: Call, w: World): seq<Effect> {
    [RemoteCall(c)] + match w.api(c) case Raises(e) => ErrorEffects(link, e, w) case Value(_) => []
  }

  /** `sendGraph`. */
  function GraphEffects(n: Notice, link: ForeignLink, w: World): seq<Effect> {
    CallEffects(link, GraphCall(n, link), w)
  }

  /**
   * `sendOldRest`: query both permissions, then post through stream.publish if
   * publishing is granted, else through users.setStatus if updating is granted, else
   * not at all. An exception ends the sequence and is handled.
   */
  function OldRestEffects(n: Notice, link: ForeignLink, w: World): seq<Effect> {
    var pub := PermissionCall(PUBLISH_STREAM, link);
    var upd := PermissionCall(STATUS_UPDATE, link);
    CallEffects(link, pub, w) +
    if w.api(pub).Raises? then [] else
      CallEffects(link, upd, w) +
      if w.api(upd).Raises? then []
      else if Granted(w.api(pub)) then CallEffects(link, StreamPublishCall(n, link), w)
      else if Granted(w.api(upd)) then CallEffects(link, SetStatusCall(n, link), w)
      else []
  }

  /** `sendNotice`: nothing for an ineligible notice, else the path the credentials select. */
  function NoticeEffects(n: Notice, link: Option<ForeignLink>, w: World): seq<Effect> {
    if !IsFacebookBound(link, n, w.unicodeWord) then []
    else if Php.Empty(link.value.credentials) then OldRestEffects(n, link.value, w)
    else GraphEffects(n, link.value, w)
  }

  // ---------------------------------------------------------------------------
  // Counting effects

  predicate IsPost(e: Effect) {
    e.RemoteCall? && !e.call.HasAppPermission?
  }

  predicate IsQuery(e: Effect) {
    e.RemoteCall? && e.call.HasAppPermission?
  }

  predicate IsDelete(e: Effect) {
    e.DeleteLink?
  }

  predicate IsMail(e: Effect) {
    e.MailDisconnect?
  }

  function Count(es: seq<Effect>, p: Effect -> bool): nat {
    if es == [] then 0 else Count(es[..|es| - 1], p) + (if p(es[|es| - 1]) then 1 else 0)
  }

  lemma {:induction false} CountAppend(xs: seq<Effect>, ys: seq<Effect>, p: Effect -> bool)
    ensures Count(xs + ys, p) == Count(xs, p) + Count(ys, p)
    decreases |ys|
  {
    if ys == [] {
      assert xs + ys == xs;
    } else {
      var zs := xs + ys;
      assert zs[..|zs| - 1] == xs + ys[..|ys| - 1];
      CountAppend(xs, ys[..|ys| - 1], p);
    }
  }

  /** The counts of one handled call: one request; one delete and one mail exactly when it revokes. */
  lemma CallEffectsCounts(link: ForeignLink, c: Call, w: World)
    ensures var es := CallEffects(link, c, w);
      && Count(es, IsPost) == (if c.HasAppPermission? then 0 else 1)
      && Count(es, IsQuery) == (if c.HasAppPermission? then 1 else 0)
      && Count(es, IsDelete) == Count(es, IsMail)
      && Count(es, IsDelete) == (if w.api(c).Raises? && Revokes(w.api(c).error) then 1 else 0)
  {
    var tail := match w.api(c) case Raises(e) => ErrorEffects(link, e, w) case Value(_) => [];
    CountAppend([RemoteCall(c)], tail, IsPost);
    CountAppend([RemoteCall(c)], tail, IsQuery);
    CountAppend([RemoteCall(c)], tail, IsDelete);
    CountAppend([RemoteCall(c)], tail, IsMail);
    if tail != [] {
      var d := DisconnectEffects(link, w);
      assert d[..1] == [d[0]];
      CountAppend([d[0]], [d[1]], IsPost);
      CountAppend([d[0]], [d[1]], IsQuery);
      CountAppend([d[0]], [d[1]], IsDelete);
      CountAppend([d[0]], [d[1]], IsMail);
    }
  }

  // ---------------------------------------------------------------------------
  // Properties of a relay

  /** A notice that came from Facebook is never sent back: no effect at all. */
  lemma LoopGuard(n: Notice, link: Option<ForeignLink>, w: World)
    requires n.source == FACEBOOK_SOURCE
    ensures NoticeEffects(n, link, w) == []
  {
  }

  /** A reply is not relayed unless the link has the send-replies bit. */
  lemma ReplyPolicy(n: Notice, link: ForeignLink, w: World)
    requires Mention.HasMention(n.content, w.unicodeWord)
    requires (link.noticesync & FOREIGN_NOTICE_SEND_REPLY) == 0
    ensures NoticeEffects(n, Some(link), w) == []
  {
  }

  /** With no link there is nothing to do, however often the notice is relayed. */
  lemma NoLinkNoEffects(n: Notice, w: World)
    ensures NoticeEffects(n, None, w) == []
  {
  }

  /**
   * A link with credentials is served by the Graph API alone: the first effect is the
   * Graph post and no permission is ever queried.
   */
  lemma GraphPathSkipsPermissions(n: Notice, link: ForeignLink, w: World)
    requires IsFacebookBound(Some(link), n, w.unicodeWord) && !Php.Empty(link.credentials)
    ensures var es := NoticeEffects(n, Some(link), w);
      es != [] && es[0] == RemoteCall(GraphCall(n, link)) && Count(es, IsQuery) == 0
  {
    CallEffectsCounts(link, GraphCall(n, link), w);
  }

  /**
   * A link without credentials takes the old REST API: publish_stream is queried first,
   * then, unless that threw, status_update; the post that follows (if any) is
   * stream.publish when publishing is granted, else users.setStatus when updating is.
   */
  lemma OldRestOrder(n: Notice, link: ForeignLink, w: World)
    requires IsFacebookBound(Some(link), n, w.unicodeWord) && Php.Empty(link.credentials)
    ensures var es := NoticeEffects(n, Some(link), w);
      && es[0] == RemoteCall(PermissionCall(PUBLISH_STREAM, link))
      && (w.api(PermissionCall(PUBLISH_STREAM, link)).Value? ==>
            es[1] == RemoteCall(PermissionCall(STATUS_UPDATE, link)))
      && (w.api(PermissionCall(PUBLISH_STREAM, link)).Value? && w.api(PermissionCall(STATUS_UPDATE, link)).Value? ==>
            && (Granted(w.api(PermissionCall(PUBLISH_STREAM, link))) ==>
                  |es| > 2 && es[2] == RemoteCall(StreamPublishCall(n, link)))
            && (!Granted(w.api(PermissionCall(PUBLISH_STREAM, link))) && Granted(w.api(PermissionCall(STATUS_UPDATE, link))) ==>
                  |es| > 2 && es[2] == RemoteCall(SetStatusCall(n, link)))
            && (!Granted(w.api(PermissionCall(PUBLISH_STREAM, link))) && !Granted(w.api(PermissionCall(STATUS_UPDATE, link))) ==>
                  es == [es[0], es[1]]))
  {
  }

  /**
   * Whatever the world answers, one relay makes at most one post, at most one link
   * deletion, and exactly as many disconnect mails as deletions.
   */
  lemma {:induction false} AtMostOnePostAndDelete(n: Notice, link: Option<ForeignLink>, w: World)
    ensures var es := NoticeEffects(n, link, w);
      && Count(es, IsPost) <= 1
      && Count(es, IsDelete) <= 1
      && Count(es, IsMail) == Count(es, IsDelete)
  {
    if IsFacebookBound(link, n, w.unicodeWord) {
      var l := link.value;
      if !Php.Empty(l.credentials) {
        CallEffectsCounts(l, GraphCall(n, l), w);
      } else {
        OldRestCounts(n, l, w);
      }
    }
  }

  lemma {:induction false} OldRestCounts(n: Notice, link: ForeignLink, w: World)
    ensures var es := OldRestEffects(n, link, w);
      && Count(es, IsPost) <= 1
      && Count(es, IsDelete) <= 1
      && Count(es, IsMail) == Count(es, IsDelete)
  {
    var pub := PermissionCall(PUBLISH_STREAM, link);
    var upd := PermissionCall(STATUS_UPDATE, link);
    var first := CallEffects(link, pub, w);
    CallEffectsCounts(link, pub, w);
    if w.api(pub).Value? {
      var second := CallEffects(link, upd, w);
      CallEffectsCounts(link, upd, w);
      var post :=
        if w.api(upd).Raises? then []
        else if Granted(w.api(pub)) then CallEffects(link, StreamPublishCall(n, link), w)
        else if Granted(w.api(upd)) then CallEffects(link, SetStatusCall(n, link), w)
        else [];
      CallEffectsCounts(link, StreamPublishCall(n, link), w);
      CallEffectsCounts(link, SetStatusCall(n, link), w);
      assert OldRestEffects(n, link, w) == first + (second + post);
      CountAppend(second, post, IsPost);
      CountAppend(second, post, IsDelete);
      CountAppend(second, post, IsMail);
      CountAppend(first, second + post, IsPost);
      CountAppend(first, second + post, IsDelete);
      CountAppend(first, second + post, IsMail);
    } else {
      assert OldRestEffects(n, link, w) == first + [];
      assert first + [] == first;
    }
  }

  /** A deletion is always followed by the mail, even when the delete reported failure. */
  lemma DisconnectAlwaysMails(link: ForeignLink, e: FacebookError, w: World)
    requires Revokes(e)
    ensures ErrorEffects(link, e, w) == [DeleteLink(link.userId, w.deleteSucceeds), MailDisconnect(link.userId, w.mailSucceeds)]
  {
  }
}
