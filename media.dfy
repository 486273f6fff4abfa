/**
 * Attachment translation: `getFacebookMedia`, the stream attachment that
 * `formatAttachments` builds for the old REST API, and the Graph API parameters of
 * `sendGraph`.
 */
module Media {
  import opened Options
  import opened Notices
  import Php

  const IMAGE_PREFIX: string := "image/"
  const MP3_TYPE: string := "audio/mpeg"
  const FLASH_TYPE: string := "application/x-shockwave-flash"
  const GRAPH_CAPTION: string := "Click for full size"

  /** A stream.publish media entry: its `type` and the keys that type carries. */
  datatype FbMedia = Image(src: string, href: string) | Mp3(src: string) | Flash(swfsrc: string)

  /** The URL a media entry points at. */
  function MediaUrl(m: FbMedia): string {
    match m
    case Image(src, _) => src
    case Mp3(src) => src
    case Flash(swfsrc) => swfsrc
  }

  /** The types both APIs send as rich media: any image, MP3 audio, or Flash. */
  predicate RichType(mimetype: string) {
    Php.HasPrefix(mimetype, IMAGE_PREFIX) || mimetype == MP3_TYPE || mimetype == FLASH_TYPE
  }

  /** `getFacebookMedia`: the media entry of a File, or None (PHP's `false`) for other types. */
  function GetFacebookMedia(f: File): (m: Option<FbMedia>)
    ensures m.Some? <==> RichType(f.mimetype)
    ensures m.Some? ==> MediaUrl(m.value) == f.url
    ensures m.Some? && m.value.Image? ==> m.value.href == f.url
    ensures m.Some? && m.value.Image? <==> Php.HasPrefix(f.mimetype, IMAGE_PREFIX)
    ensures m.Some? && m.value.Mp3? <==> f.mimetype == MP3_TYPE
    ensures m.Some? && m.value.Flash? <==> f.mimetype == FLASH_TYPE
  {
    assert MP3_TYPE[0] != IMAGE_PREFIX[0] && FLASH_TYPE[0] != IMAGE_PREFIX[0];
    if Php.HasPrefix(f.mimetype, IMAGE_PREFIX) then Some(Image(f.url, f.url))
    else if f.mimetype == MP3_TYPE then Some(Mp3(f.url))
    else if f.mimetype == FLASH_TYPE then Some(Flash(f.url))
    else None
  }

  /** The media entry `formatAttachments` derives from one attachment. */
  function MediaFor(a: Attachment): Option<FbMedia> {
    GetFacebookMedia(MediaSource(a))
  }

  /** The media list: the typed attachments' entries, in attachment order. */
  function MediaOf(atts: seq<Attachment>): (ms: seq<FbMedia>)
    ensures |ms| <= |atts|
  {
    if atts == [] then []
    else
      var last := atts[|atts| - 1];
      MediaOf(atts[..|atts| - 1]) + match MediaFor(last) case Some(m) => [m] case None => []
  }

  /** The last attachment that has no media entry. */
  function LastUntyped(atts: seq<Attachment>): Option<Attachment> {
    if atts == [] then None
    else if MediaFor(atts[|atts| - 1]).None? then Some(atts[|atts| - 1])
    else LastUntyped(atts[..|atts| - 1])
  }

  /** The `name` of a link fallback: the title unless it is empty (or "0"), else the URL. */
  function LinkName(a: Attachment): string {
    if Php.Empty(a.title) then a.url else a.title
  }

  /** The `$fbattachment` array: a media list and the optional `name`/`href` keys. */
  datatype StreamAttachment = StreamAttachment(media: seq<FbMedia>, name: Option<string>, href: Option<string>)

  /** What `formatAttachments` returns for a notice's attachments. */
  function StreamAttachmentOf(atts: seq<Attachment>): (r: StreamAttachment)
    ensures r.media == MediaOf(atts)
    ensures r.media != [] ==> r.name.None? && r.href.None?
    ensures r.media == [] ==>
      match LastUntyped(atts)
      case Some(a) => r.name == Some(LinkName(a)) && r.href == Some(a.url)
      case None => r.name.None? && r.href.None?
  {
    var ms := MediaOf(atts);
    if ms != [] then StreamAttachment(ms, None, None)
    else match LastUntyped(atts)
      case Some(a) => StreamAttachment([], Some(LinkName(a)), Some(a.url))
      case None => StreamAttachment([], None, None)
  }

  /** Media entries keep attachment order: the list of a concatenation is the concatenation. */
  lemma {:induction false} MediaOfAppend(xs: seq<Attachment>, ys: seq<Attachment>)
    ensures MediaOf(xs + ys) == MediaOf(xs) + MediaOf(ys)
    decreases |ys|
  {
    if ys != [] {
      var zs := xs + ys;
      assert zs[..|zs| - 1] == xs + ys[..|ys| - 1];
      assert zs[|zs| - 1] == ys[|ys| - 1];
      MediaOfAppend(xs, ys[..|ys| - 1]);
    } else {
      assert xs + ys == xs;
    }
  }

  /** Every media entry comes from some attachment, through its enclosure if it has one. */
  lemma {:induction false} MediaOfFromAttachments(atts: seq<Attachment>, k: nat)
    requires k < |MediaOf(atts)|
    ensures exists i :: 0 <= i < |atts| && MediaFor(atts[i]) == Some(MediaOf(atts)[k])
  {
    var init := atts[..|atts| - 1];
    if k < |MediaOf(init)| {
      MediaOfFromAttachments(init, k);
      var i :| 0 <= i < |init| && MediaFor(init[i]) == Some(MediaOf(init)[k]);
      assert atts[i] == init[i];
    } else {
      assert MediaFor(atts[|atts| - 1]) == Some(MediaOf(atts)[k]);
    }
  }

  /** The media list is empty exactly when no attachment is of a rich type. */
  lemma {:induction false} MediaOfEmpty(atts: seq<Attachment>)
    ensures MediaOf(atts) == [] <==> forall i :: 0 <= i < |atts| ==> MediaFor(atts[i]).None?
  {
    if atts != [] {
      var init := atts[..|atts| - 1];
      MediaOfEmpty(init);
      assert forall i :: 0 <= i < |init| ==> init[i] == atts[i];
    }
  }

  /**
   * `LastUntyped` is the last attachment without a media entry: every attachment after
   * it has one; it is None only when every attachment has one.
   */
  lemma {:induction false} LastUntypedIsLast(atts: seq<Attachment>)
    ensures LastUntyped(atts).None? <==> forall i :: 0 <= i < |atts| ==> MediaFor(atts[i]).Some?
    ensures LastUntyped(atts).Some? ==>
      exists i :: 0 <= i < |atts| && atts[i] == LastUntyped(atts).value && MediaFor(atts[i]).None?
        && forall j :: i < j < |atts| ==> MediaFor(atts[j]).Some?
  {
    if atts != [] {
      var init := atts[..|atts| - 1];
      LastUntypedIsLast(init);
      assert forall i :: 0 <= i < |init| ==> init[i] == atts[i];
      if MediaFor(atts[|atts| - 1]).None? {
        assert atts[|atts| - 1] == LastUntyped(atts).value;
      } else if LastUntyped(init).Some? {
        var i :| 0 <= i < |init| && init[i] == LastUntyped(init).value && MediaFor(init[i]).None?
          && forall j :: i < j < |init| ==> MediaFor(init[j]).Some?;
        assert atts[i] == LastUntyped(atts).value;
      }
    }
  }

  /**
   * With attachments present, the stream attachment carries exactly one of the two
   * representations: a non-empty media list or a `name`/`href` link.
   */
  lemma OneRepresentation(atts: seq<Attachment>)
    requires atts != []
    ensures var r := StreamAttachmentOf(atts);
      (r.media != []) != (r.name.Some? && r.href.Some?)
  {
  }

  /**
   * The Graph API parameters that `sendGraph` builds. Only the first attachment is
   * looked at; it is sent as a picture exactly when it is of a rich type.
   */
  function GraphParams(credentials: string, content: string, atts: seq<Attachment>): (p: map<string, string>)
    ensures "access_token" in p && p["access_token"] == credentials
    ensures "message" in p && p["message"] == content
    ensures "picture" in p <==> atts != [] && RichType(atts[0].mimetype)
    ensures "picture" in p ==>
      && "caption" in p && "source" in p
      && p["picture"] == atts[0].url && p["source"] == atts[0].url && p["caption"] == GRAPH_CAPTION
    ensures p.Keys <= {"access_token", "message", "picture", "caption", "source"}
    ensures "caption" in p <==> "picture" in p
    ensures "source" in p <==> "picture" in p
  {
    var p := map["access_token" := credentials, "message" := content];
    if atts != [] && RichType(atts[0].mimetype) then
      p["picture" := atts[0].url]["caption" := GRAPH_CAPTION]["source" := atts[0].url]
    else p
  }

  /**
   * The two spellings of the allow-list agree: `sendGraph`'s `substr(...) == 'image/'`
   * or membership in the Flash/MP3 list accepts a type exactly when `getFacebookMedia`'s
   * `strncmp` and `==` tests give it a media entry.
   */
  lemma GraphAgreesWithRest(mimetype: string, url: string)
    ensures (Php.HasPrefix(mimetype, IMAGE_PREFIX) || mimetype in [FLASH_TYPE, MP3_TYPE])
      <==> GetFacebookMedia(File(mimetype, url)).Some?
  {
  }
}
