/**
 * `Facebookclient`: relays one notice to its author's Facebook account. The SDK, the
 * link store and the mailer are the `world`; every request to them is appended to the
 * ghost `trace`, and each method is proved to record the trace `Relay` specifies.
 */
module Client {
  import opened Options
  import opened Notices
  import Php
  import opened Eligibility
  import opened ErrorCodes
  import opened Media
  import opened Relay

  /** An exception a method lets escape. */
  datatype Thrown = FacebookApiException(error: FacebookError) | ServerException(message: string)

  /** A method's result: a value, or the exception it threw. */
  datatype Outcome<T> = Returned(value: T) | Threw(exc: Thrown)

  class Facebookclient {
    const notice: Notice
    /** The author's Foreign_link, None when the author has none. */
    const flink: Option<ForeignLink>
    const world: World
    /** Every request made to the outside world so far, in order. */
    ghost var trace: seq<Effect>

    /**
     * Binds the client to a notice and its author's link. Unlike the source (see
     * `AsWritten.BroadcastAsWritten`), a missing link is kept as None rather than
     * dereferenced.
     */
    constructor (notice: Notice, flink: Option<ForeignLink>, world: World)
      ensures this.notice == notice && this.flink == flink && this.world == world
      ensures trace == []
    {
      this.notice := notice;
      this.flink := flink;
      this.world := world;
      trace := [];
    }

    /** `facebookBroadcastNotice`: build a client and send. The source returns null. */
    static method FacebookBroadcastNotice(notice: Notice, flink: Option<ForeignLink>, world: World)
      returns (client: Facebookclient)
      ensures fresh(client)
      ensures client.trace == NoticeEffects(notice, flink, world)
    {
      client := new Facebookclient(notice, flink, world);
      client.SendNotice();
    }

    /** `$this->facebook->api(...)`. */
    method Api(c: Call) returns (r: Reply)
      modifies this
      ensures r == world.api(c)
      ensures trace == old(trace) + [RemoteCall(c)]
    {
      r := world.api(c);
      trace := trace + [RemoteCall(c)];
    }

    /** `sendNotice`: send an eligible notice by the path its link's credentials select. */
    method SendNotice()
      modifies this
      ensures trace == old(trace) + NoticeEffects(notice, flink, world)
    {
      if IsFacebookBound(flink, notice, world.unicodeWord) {
        if Php.Empty(flink.value.credentials) {
          var _ := SendOldRest();
        } else {
          var _ := SendGraph();
        }
      }
    }

    /** `sendGraph`: one Graph API post; its parameters are built up in place. Always dequeues. */
    method SendGraph() returns (dequeue: bool)
      requires flink.Some?
      modifies this
      ensures dequeue
      ensures trace == old(trace) + GraphEffects(notice, flink.value, world)
    {
      var fbuid := flink.value.foreignId;
      var params := map["access_token" := flink.value.credentials, "message" := notice.content];
      var attachments := notice.attachments;
      if attachments != [] {
        // Only one attachment can go through the Graph API.
        var first := attachments[0];
        if Php.HasPrefix(first.mimetype, IMAGE_PREFIX) || first.mimetype in [FLASH_TYPE, MP3_TYPE] {
          params := params["picture" := first.url];
          params := params["caption" := GRAPH_CAPTION];
          params := params["source" := first.url];
        }
      }
      assert params == GraphParams(flink.value.credentials, notice.content, notice.attachments);
      var result := Api(GraphPost("/" + fbuid + "/feed", params));
      if result.Raises? {
        dequeue := HandleFacebookError(result.error);
        return;
      }
      dequeue := true;
    }

    /** `sendOldRest`: query both permissions, then post by the best granted method. Always dequeues. */
    method SendOldRest() returns (dequeue: bool)
      requires flink.Some?
      modifies this
      ensures dequeue
      ensures trace == old(trace) + OldRestEffects(notice, flink.value, world)
    {
      var canPublish := CheckPermission(PUBLISH_STREAM);
      if canPublish.Threw? {
        dequeue := HandleFacebookError(canPublish.exc.error);
        return;
      }
      var canUpdate := CheckPermission(STATUS_UPDATE);
      if canUpdate.Threw? {
        dequeue := HandleFacebookError(canUpdate.exc.error);
        return;
      }
      var thrown: Option<FacebookError> := None;
      if canPublish.value {
        thrown := RestPublishStream();
      } else if canUpdate.value {
        thrown := RestStatusUpdate();
      }
      if thrown.Some? {
        dequeue := HandleFacebookError(thrown.value);
        return;
      }
      dequeue := true;
    }

    /** `checkPermission`: ask the SDK whether the user granted the permission. */
    method CheckPermission(permission: string) returns (r: Outcome<bool>)
      requires flink.Some?
      modifies this
      ensures permission != PUBLISH_STREAM && permission != STATUS_UPDATE ==>
        r == Threw(ServerException("No such permission!")) && trace == old(trace)
      ensures permission == PUBLISH_STREAM || permission == STATUS_UPDATE ==>
        && trace == old(trace) + [RemoteCall(PermissionCall(permission, flink.value))]
        && r == match world.api(PermissionCall(permission, flink.value))
                case Raises(e) => Threw(FacebookApiException(e))
                case Value(v) => Returned(v == 1)
    {
      if permission != PUBLISH_STREAM && permission != STATUS_UPDATE {
        return Threw(ServerException("No such permission!"));
      }
      var hasPermission := Api(HasAppPermission(permission, flink.value.foreignId));
      if hasPermission.Raises? {
        return Threw(FacebookApiException(hasPermission.error));
      }
      r := Returned(hasPermission.value == 1);
    }

    /** `restStatusUpdate`: post the content through users.setStatus; returns what it throws. */
    method RestStatusUpdate() returns (thrown: Option<FacebookError>)
      requires flink.Some?
      modifies this
      ensures trace == old(trace) + [RemoteCall(SetStatusCall(notice, flink.value))]
      ensures thrown.Some? <==> world.api(SetStatusCall(notice, flink.value)).Raises?
      ensures thrown.Some? ==> thrown.value == world.api(SetStatusCall(notice, flink.value)).error
    {
      var result := Api(SetStatus(notice.content, true, flink.value.foreignId));
      thrown := if result.Raises? then Some(result.error) else None;
    }

    /** `restPublishStream`: post the content and its attachments through stream.publish. */
    method RestPublishStream() returns (thrown: Option<FacebookError>)
      requires flink.Some?
      modifies this
      ensures trace == old(trace) + [RemoteCall(StreamPublishCall(notice, flink.value))]
      ensures thrown.Some? <==> world.api(StreamPublishCall(notice, flink.value)).Raises?
      ensures thrown.Some? ==> thrown.value == world.api(StreamPublishCall(notice, flink.value)).error
    {
      var fbattachment := FormatAttachments();
      var result := Api(StreamPublish(notice.content, fbattachment, flink.value.foreignId));
      thrown := if result.Raises? then Some(result.error) else None;
    }

    /**
     * `formatAttachments`: walk the attachments, appending each typed one's media entry
     * and overwriting `name`/`href` with each untyped one; drop `name`/`href` when any
     * media was found.
     */
    method FormatAttachments() returns (fb: StreamAttachment)
      ensures fb == StreamAttachmentOf(notice.attachments)
    {
      var attachments := notice.attachments;
      var media: seq<FbMedia> := [];
      var name: Option<string> := None;
      var href: Option<string> := None;
      var i := 0;
      while i < |attachments|
        invariant 0 <= i <= |attachments|
        invariant media == MediaOf(attachments[..i])
        invariant match LastUntyped(attachments[..i])
          case Some(a) => name == Some(LinkName(a)) && href == Some(a.url)
          case None => name.None? && href.None?
      {
        var attachment := attachments[i];
        var fbmedia := if attachment.enclosure.Some? then GetFacebookMedia(attachment.enclosure.value)
                       else GetFacebookMedia(File(attachment.mimetype, attachment.url));
        if fbmedia.Some? {
          media := media + [fbmedia.value];
        } else {
          name := Some(if Php.Empty(attachment.title) then attachment.url else attachment.title);
          href := Some(attachment.url);
        }
        assert attachments[..i + 1][..i] == attachments[..i];
        i := i + 1;
      }
      assert attachments[..i] == attachments;
      if |media| > 0 {
        name := None;
        href := None;
      }
      fb := StreamAttachment(media, name, href);
    }

    /** `handleFacebookError`: classify the error; revoke the link on 200 or 250. Always dequeues. */
    method HandleFacebookError(e: FacebookError) returns (dequeue: bool)
      requires flink.Some?
      modifies this
      ensures dequeue
      ensures trace == old(trace) + ErrorEffects(flink.value, e, world)
    {
      var code := EffectiveCode(e);
      match Classify(code)
      case InvalidParameter =>
        dequeue := true;
      case PermissionRevoked =>
        Disconnect();
        dequeue := true;
      case RateLimited =>
        // The source notes that it would rather retry later; it dequeues.
        dequeue := true;
      case Unrecognised =>
        dequeue := true;
    }

    /** `disconnect`: delete the link, then mail the user even if the delete failed. */
    method Disconnect()
      requires flink.Some?
      modifies this
      ensures trace == old(trace) + DisconnectEffects(flink.value, world)
    {
      var deleted := DeleteForeignLink();
      // A failed delete is only logged.
      var sent := MailFacebookDisconnect();
      // A failed mail is only logged.
    }

    /** `$this->flink->delete()`. */
    method DeleteForeignLink() returns (deleted: bool)
      requires flink.Some?
      modifies this
      ensures deleted == world.deleteSucceeds
      ensures trace == old(trace) + [DeleteLink(flink.value.userId, deleted)]
    {
      deleted := world.deleteSucceeds;
      trace := trace + [DeleteLink(flink.value.userId, deleted)];
    }

    /** `mailFacebookDisconnect`: tell the link's user that the connection was removed. */
    method MailFacebookDisconnect() returns (sent: bool)
      requires flink.Some?
      modifies this
      ensures sent == world.mailSucceeds
      ensures trace == old(trace) + [MailDisconnect(flink.value.userId, sent)]
    {
      sent := world.mailSucceeds;
      trace := trace + [MailDisconnect(flink.value.userId, sent)];
    }
  }
}
