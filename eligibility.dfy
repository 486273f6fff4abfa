/** `Facebookclient::isFacebookBound`: should a notice go to Facebook? */
module Eligibility {
  import opened Options
  import opened Notices
  import Mention

  /** Bits of `Foreign_link.noticesync` (StatusNet's framework constants). */
  const FOREIGN_NOTICE_SEND: bv64 := 1
  const FOREIGN_NOTICE_SEND_REPLY: bv64 := 4

  /** The `source` of notices that were imported from Facebook. */
  const FACEBOOK_SOURCE: string := "Facebook"

  /**
   * The send test as PHP parses `noticesync & FOREIGN_NOTICE_SEND == FOREIGN_NOTICE_SEND`:
   * `==` binds tighter than `&`, so the mask is the boolean `true`, converted to 1.
   * Because FOREIGN_NOTICE_SEND is 1 this is still the intended bit test.
   */
  function SendTest(noticesync: bv64): (r: bool)
    ensures r <==> (noticesync & FOREIGN_NOTICE_SEND) == FOREIGN_NOTICE_SEND
  {
    var mask: bv64 := if FOREIGN_NOTICE_SEND == FOREIGN_NOTICE_SEND then 1 else 0;
    (noticesync & mask) != 0
  }

  /** Which check stopped the notice, or `Bound` when none did. */
  datatype Verdict = NoLink | FromFacebook | SendDisabled | ReplyDisabled | Bound

  /**
   * The checks of `isFacebookBound`, in the order the source makes them. `unicodeWord`
   * tells which non-ASCII characters are Unicode letters or digits (see `Mention`).
   */
  function Assess(link: Option<ForeignLink>, notice: Notice, unicodeWord: char -> bool): (v: Verdict)
    ensures v == NoLink <==> link.None?
    ensures v == FromFacebook <==> link.Some? && notice.source == FACEBOOK_SOURCE
    ensures v == SendDisabled <==>
      link.Some? && notice.source != FACEBOOK_SOURCE && (link.value.noticesync & FOREIGN_NOTICE_SEND) == 0
    ensures v == ReplyDisabled <==>
      && link.Some? && notice.source != FACEBOOK_SOURCE
      && (link.value.noticesync & FOREIGN_NOTICE_SEND) != 0
      && Mention.HasMention(notice.content, unicodeWord)
      && (link.value.noticesync & FOREIGN_NOTICE_SEND_REPLY) == 0
  {
    if link.None? then NoLink
    else if notice.source == FACEBOOK_SOURCE then FromFacebook
    else if !SendTest(link.value.noticesync) then SendDisabled
    else if !Mention.ContainsMention(notice.content, unicodeWord)
      || (link.value.noticesync & FOREIGN_NOTICE_SEND_REPLY) != 0 then Bound
    else ReplyDisabled
  }

  /**
   * The notice goes out exactly when the author has a link, the notice did not come
   * from Facebook, the send bit is on, and it is not a reply or replies are wanted.
   */
  function IsFacebookBound(link: Option<ForeignLink>, notice: Notice, unicodeWord: char -> bool): (r: bool)
    ensures r <==>
      && link.Some?
      && notice.source != FACEBOOK_SOURCE
      && (link.value.noticesync & FOREIGN_NOTICE_SEND) != 0
      && (!Mention.HasMention(notice.content, unicodeWord) || (link.value.noticesync & FOREIGN_NOTICE_SEND_REPLY) != 0)
  {
    Assess(link, notice, unicodeWord) == Bound
  }
}
