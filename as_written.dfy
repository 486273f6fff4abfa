/**
 * Two places where `facebookclient.php` as written aborts before the behaviour its
 * own code evidently intends. The rest of the model follows the intended behaviour;
 * these members record what the code does instead.
 */
module AsWritten {
  import opened Options
  import opened Notices
  import opened Eligibility
  import opened Relay

  /** A run that either completes or stops on a PHP fatal error at a source line. */
  datatype Run = Completed(effects: seq<Effect>) | Aborted(effects: seq<Effect>, line: nat)

  /**
   * `facebookBroadcastNotice` as written: the constructor calls `getUser()` on the link
   * (line 61) before `isFacebookBound` can test it for emptiness (line 116). The abort
   * is recorded by stipulation: PHP's fatal error on a method call on null is not
   * derived here.
   */
  function BroadcastAsWritten(n: Notice, link: Option<ForeignLink>, w: World): Run {
    if link.None? then Aborted([], 61) else Completed(NoticeEffects(n, link, w))
  }

  /** For an author without a link the source aborts, while its own guard meant to skip. */
  lemma NoLinkAbortsAsWritten(n: Notice, w: World)
    ensures BroadcastAsWritten(n, None, w) == Aborted([], 61)
    ensures Assess(None, n, w.unicodeWord) == NoLink && NoticeEffects(n, None, w) == []
  {
  }

  /**
   * `disconnect` as written: after the delete, `mailFacebookDisconnect` calls
   * `getProfile()` on the undefined local `$user` (line 676), so no mail is sent. The
   * abort after the delete is recorded by stipulation, as above.
   */
  function DisconnectAsWritten(link: ForeignLink, w: World): Run {
    Aborted([DeleteLink(link.userId, w.deleteSucceeds)], 676)
  }

  /** As written, a revoked user is never mailed; the intended `disconnect` always mails. */
  lemma DisconnectAsWrittenNeverMails(link: ForeignLink, w: World)
    ensures var r := DisconnectAsWritten(link, w);
      r.Aborted? && forall k :: 0 <= k < |r.effects| ==> !r.effects[k].MailDisconnect?
    ensures DisconnectEffects(link, w)[1] == MailDisconnect(link.userId, w.mailSucceeds)
  {
  }
}
