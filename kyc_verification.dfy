/**
 * Identity verification records: one per user, created pending, moved to
 * approved, back to pending, or deleted on rejection by an administrator.
 */
module KycVerification {
  import opened Common
  import Notifications

  const Pending: string := "pending"
  const Approved: string := "approved"
  const Rejected: string := "rejected"
  const VerificationStatuses: seq<string> := [Pending, Approved, Rejected]

  /** A row of kyc_verification (kyc-verification.entity.ts:13-49), without its uuid and timestamps. */
  datatype Verification = Verification(
    userId: int,
    frontIdCardImage: string,
    backIdCardImage: string,
    faceImage: string,
    governmentId: string,
    status: string,
    verifiedAt: Option<int>)

  /** The fields a verification update may supply. */
  datatype VerificationPatch = VerificationPatch(
    frontIdCardImage: Option<string>,
    backIdCardImage: Option<string>,
    faceImage: Option<string>,
    governmentId: Option<string>,
    status: Option<string>)

  /**
   * The entity's before-update hook (kyc-verification.entity.ts:50-55): an
   * approved record that has no verification time yet gets the current one.
   */
  function BeforeUpdate(v: Verification, now: int): (r: Verification)
    ensures v.status == Approved && v.verifiedAt.None? ==> r == v.(verifiedAt := Some(now))
    ensures !(v.status == Approved && v.verifiedAt.None?) ==> r == v
  {
    if v.status == Approved && v.verifiedAt.None? then v.(verifiedAt := Some(now)) else v
  }

  /** Once set, the verification time is never moved by a later save: the first approval's time is kept. */
  lemma VerifiedAtKeepsFirstApproval(v: Verification, t1: int, t2: int)
    ensures BeforeUpdate(BeforeUpdate(v, t1), t2) == BeforeUpdate(v, t1)
    ensures v.verifiedAt.Some? ==> BeforeUpdate(v, t1).verifiedAt == v.verifiedAt
  {
  }

  lemma LowerIsIdempotent(s: string)
    ensures Lower(Lower(s)) == Lower(s)
  {
    assert forall i :: 0 <= i < |s| ==> LowerChar(LowerChar(s[i])) == LowerChar(s[i]);
  }

  /**
   * Status normalisation (kyc-verification.service.ts:73-78): the value is
   * lower-cased and must then be pending, approved or rejected.
   */
  function NormalizeStatus(s: string): (r: Result<string>)
    ensures r.Ok? <==> Lower(s) in VerificationStatuses
    ensures r.Ok? ==> r.value == Lower(s) && r.value in VerificationStatuses
    ensures r.Err? ==> r.error == BadRequest("Invalid verification status")
  {
    var n := Lower(s);
    if n in VerificationStatuses then Ok(n) else Err(BadRequest("Invalid verification status"))
  }

  /** Normalisation ignores ASCII case: a status and its lower-cased form are treated alike. */
  lemma NormalizeIgnoresCase(s: string)
    ensures NormalizeStatus(s) == NormalizeStatus(Lower(s))
  {
    LowerIsIdempotent(s);
  }

  /** An upper-case status from the client is accepted as its lower-case form. */
  lemma UpperCaseApprovedIsAccepted()
    ensures NormalizeStatus("APPROVED") == Ok(Approved)
  {
    assert Lower("APPROVED") == "approved";
  }

  /** The position of the first record of a user. */
  function FirstOfUser(records: seq<Option<Verification>>, userId: int): (r: Option<nat>)
    ensures r.Some? ==> r.value < |records| && records[r.value].Some? && records[r.value].value.userId == userId
    ensures r.Some? ==> forall j :: 0 <= j < r.value ==> !(records[j].Some? && records[j].value.userId == userId)
    ensures r.None? <==> forall j :: 0 <= j < |records| ==> !(records[j].Some? && records[j].value.userId == userId)
  {
    if |records| == 0 then None
    else if records[0].Some? && records[0].value.userId == userId then Some(0)
    else
      match FirstOfUser(records[1..], userId)
      case None => None
      case Some(k) => Some(k + 1)
  }

  /** No user has two live records: the unique index on the user link. */
  predicate OneRecordPerUser(records: seq<Option<Verification>>)
  {
    forall i, j :: 0 <= i < j < |records| && records[i].Some? && records[j].Some? ==>
      records[i].value.userId != records[j].value.userId
  }

  /** The table with every record of a user deleted (a deleted row is `None`). */
  function Erase(records: seq<Option<Verification>>, userId: int): (r: seq<Option<Verification>>)
    ensures |r| == |records|
    ensures forall j :: 0 <= j < |r| ==>
      r[j] == if records[j].Some? && records[j].value.userId == userId then None else records[j]
  {
    seq(|records|, j requires 0 <= j < |records| =>
      if records[j].Some? && records[j].value.userId == userId then None else records[j])
  }

  /** After the erase the user has no record, and every other user keeps theirs. */
  lemma EraseRemovesOnlyTheUser(records: seq<Option<Verification>>, userId: int, other: int)
    requires other != userId
    ensures FirstOfUser(Erase(records, userId), userId).None?
    ensures FirstOfUser(Erase(records, userId), other) == FirstOfUser(records, other)
  {
  }

  /** The merge of updateVerification (kyc-verification.service.ts:160-164): supplied fields win, and the status is pending. */
  function Merge(v: Verification, p: VerificationPatch): (r: Verification)
    ensures r.status == Pending && r.userId == v.userId && r.verifiedAt == v.verifiedAt
    ensures r.frontIdCardImage == (if p.frontIdCardImage.Some? then p.frontIdCardImage.value else v.frontIdCardImage)
    ensures r.backIdCardImage == (if p.backIdCardImage.Some? then p.backIdCardImage.value else v.backIdCardImage)
    ensures r.faceImage == (if p.faceImage.Some? then p.faceImage.value else v.faceImage)
    ensures r.governmentId == (if p.governmentId.Some? then p.governmentId.value else v.governmentId)
  {
    Verification(
      v.userId,
      if p.frontIdCardImage.Some? then p.frontIdCardImage.value else v.frontIdCardImage,
      if p.backIdCardImage.Some? then p.backIdCardImage.value else v.backIdCardImage,
      if p.faceImage.Some? then p.faceImage.value else v.faceImage,
      if p.governmentId.Some? then p.governmentId.value else v.governmentId,
      Pending,
      v.verifiedAt)
  }

  /** The template of the notice sent when a verification is approved or rejected (kyc-verification.service.ts:84-87). */
  function NoticeTemplate(status: string): string
  {
    if status == Approved then "verification-approved" else "verification-rejected"
  }

  /** The `{ name }` data of the notice. */
  function NoticeData(firstName: string): Option<map<string, Notifications.JsValue>>
  {
    Some(map["name" := Notifications.Str(firstName)])
  }

  /** The notice's texts, substituted once: both sends use the same template and data and differ only in their address. */
  function NoticeJob(template: Notifications.Template, firstName: string): Notifications.Job
  {
    Notifications.NewJob(template, "", NoticeData(firstName), true)
  }

  /** The row one send of the notice leaves, on a channel that passed the checks. */
  function NoticeRecord(t: string, recipient: string, firstName: string, channel: string,
                        job: Notifications.Job, deliver: Notifications.Deliver): Notifications.Notification
  {
    Notifications.SentRecord(t, recipient, NoticeData(firstName), [channel],
                             Notifications.FailureFrom([channel], 0, job.(recipient := recipient), deliver))
  }

  /** The deliveries one send of the notice hands to the providers. */
  function NoticeSends(recipient: string, channel: string, job: Notifications.Job,
                       deliver: Notifications.Deliver): seq<Notifications.Delivery>
  {
    Notifications.DeliveriesFrom([channel], 0, job.(recipient := recipient), deliver)
  }

  /** The two rows the notice leaves in the Notifications table: its e-mail send, then its push send. */
  function NoticeRecords(templates: map<string, Notifications.Template>, t: string, email: string, userId: int,
                         firstName: string, deliver: Notifications.Deliver): seq<Notifications.Notification>
    requires t in templates
  {
    var job := NoticeJob(templates[t], firstName);
    [NoticeRecord(t, email, firstName, Notifications.Email, job, deliver),
     NoticeRecord(t, IntString(userId), firstName, Notifications.Push, job, deliver)]
  }

  /** What the notice hands to the providers: the e-mail deliveries, then the push ones. */
  function NoticeDeliveries(templates: map<string, Notifications.Template>, t: string, email: string, userId: int,
                            firstName: string, deliver: Notifications.Deliver): seq<Notifications.Delivery>
    requires t in templates
  {
    var job := NoticeJob(templates[t], firstName);
    NoticeSends(email, Notifications.Email, job, deliver) + NoticeSends(IntString(userId), Notifications.Push, job, deliver)
  }

  class KycVerificationService {
    const notifications: Notifications.NotificationService
    /** The kyc_verification table; a deleted row is `None`, and a row's id is its position. */
    var records: seq<Option<Verification>>

    constructor(notifications: Notifications.NotificationService)
      ensures this.notifications == notifications && records == []
    {
      this.notifications := notifications;
      records := [];
    }

    /** getVerification (kyc-verification.service.ts:37-46). */
    function GetVerification(userId: int): (r: Result<Verification>)
      reads this
      ensures r.Ok? <==> FirstOfUser(records, userId).Some?
      ensures r.Ok? ==> r.value == records[FirstOfUser(records, userId).value].value && r.value.userId == userId
      ensures r.Err? ==> r.error == NotFound("Identity verification not found")
    {
      match FirstOfUser(records, userId)
      case None => Err(NotFound("Identity verification not found"))
      case Some(k) => Ok(records[k].value)
    }

    /**
     * createVerification (kyc-verification.service.ts:26-35). The user link
     * is a one-to-one join column (kyc-verification.entity.ts:18-20), which
     * carries a unique index, so a second live record of a user is refused
     * by the store.
     */
    method CreateVerification(userId: int, front: string, back: string, face: string, governmentId: string, status: string)
      returns (r: Result<Verification>)
      modifies this
      ensures old(FirstOfUser(records, userId)).Some? ==>
        r == Err(Failure("Duplicate entry for the user's verification")) && records == old(records)
      ensures old(FirstOfUser(records, userId)).None? ==>
        r == Ok(Verification(userId, front, back, face, governmentId, status, None))
        && records == old(records) + [Some(r.value)]
      ensures OneRecordPerUser(old(records)) ==> OneRecordPerUser(records)
    {
      if FirstOfUser(records, userId).Some? {
        return Err(Failure("Duplicate entry for the user's verification"));
      }
      var v := Verification(userId, front, back, face, governmentId, status, None);
      records := records + [Some(v)];
      r := Ok(v);
    }

    /** deleteVerificationAndImages (kyc-verification.service.ts:120-153), without the image files. */
    method DeleteVerificationAndImages(userId: int) returns (r: Result<()>)
      modifies this
      ensures old(FirstOfUser(records, userId)).None? ==>
        r == Err(NotFound("Verification data not found")) && records == old(records)
      ensures old(FirstOfUser(records, userId)).Some? ==> r == Ok(()) && records == Erase(old(records), userId)
    {
      if FirstOfUser(records, userId).None? {
        return Err(NotFound("Verification data not found"));
      }
      records := Erase(records, userId);
      r := Ok(());
    }

    /** One send of the notice over a single supported channel, stopping at its failure. */
    method SendOne(t: string, recipient: string, firstName: string, channel: string, deliver: Notifications.Deliver)
      returns (r: Result<()>)
      requires channel in Notifications.SupportedChannels
      modifies notifications
      ensures t !in notifications.templates ==>
        r == Err(Failure("Template " + t + " not found"))
        && notifications.records == old(notifications.records) && notifications.outbox == old(notifications.outbox)
      ensures t in notifications.templates ==>
        r == Ok(())
        && notifications.records == old(notifications.records)
             + [NoticeRecord(t, recipient, firstName, channel, NoticeJob(notifications.templates[t], firstName), deliver)]
        && notifications.outbox == old(notifications.outbox)
             + NoticeSends(recipient, channel, NoticeJob(notifications.templates[t], firstName), deliver)
    {
      assert t in notifications.templates ==>
        NoticeJob(notifications.templates[t], firstName).(recipient := recipient)
          == Notifications.NewJob(notifications.templates[t], recipient, NoticeData(firstName), true);
      var sent := notifications.SendNotification(t, recipient, NoticeData(firstName), Some([channel]), true, deliver);
      if sent.Err? {
        return Err(sent.error);
      }
      r := Ok(());
    }

    /**
     * The awaited pair of sends of a notice (kyc-verification.service.ts:
     * 90-105): by e-mail, then by push to the user's id, each stopping at its
     * first failed channel. A missing template fails both before anything is
     * written.
     */
    method SendNotice(t: string, email: string, userId: int, firstName: string, deliver: Notifications.Deliver)
      returns (r: Result<()>)
      modifies notifications
      ensures t !in notifications.templates ==>
        r == Err(Failure("Template " + t + " not found"))
        && notifications.records == old(notifications.records) && notifications.outbox == old(notifications.outbox)
      ensures t in notifications.templates ==>
        r == Ok(())
        && notifications.records == old(notifications.records) + NoticeRecords(notifications.templates, t, email, userId, firstName, deliver)
        && notifications.outbox == old(notifications.outbox) + NoticeDeliveries(notifications.templates, t, email, userId, firstName, deliver)
    {
      var byMail := SendOne(t, email, firstName, Notifications.Email, deliver);
      var byPush := SendOne(t, IntString(userId), firstName, Notifications.Push, deliver);
      if byMail.Err? {
        return Err(byMail.error);
      }
      r := Ok(());
    }

    /**
     * updateVerificationStatus (kyc-verification.service.ts:54-118).
     * `firstName` is the first name in the user's personal information,
     * `None` when the user has none; approving or rejecting reads it for the
     * notification. Approval saves the record (so the hook may stamp the
     * verification time), rejection deletes the user's records and answers
     * null, pending saves the record. Before approving or rejecting, the
     * notice is sent and awaited twice (lines 88-106): by e-mail to `email`,
     * the user's e-mail address, then by push to the user's id, each stopping
     * at the first failed channel; a missing template makes both sends, and
     * the call, fail before anything is written.
     */
    method UpdateVerificationStatus(userId: int, status: Option<string>, firstName: Option<string>, email: string,
                                    now: int, deliver: Notifications.Deliver)
      returns (r: Result<Option<Verification>>)
      modifies this, notifications
      ensures (status.None? || status == Some("")) ==>
        r == Err(BadRequest("A verificationStatus value must be supplied")) && records == old(records)
      ensures (status.Some? && status != Some("") && old(FirstOfUser(records, userId)).None?) ==>
        r == Err(NotFound("Verification data not found")) && records == old(records)
      ensures (status.Some? && status != Some("") && old(FirstOfUser(records, userId)).Some?
        && NormalizeStatus(status.value).Err?) ==>
        r == Err(BadRequest("Invalid verification status")) && records == old(records)
      ensures r.Err? ==> records == old(records)
      ensures r.Ok? ==>
        status.Some? && old(FirstOfUser(records, userId)).Some? && NormalizeStatus(status.value).Ok?
      ensures r.Ok? && NormalizeStatus(status.value).value == Rejected ==>
        r == Ok(None) && records == Erase(old(records), userId) && firstName.Some?
      ensures r.Ok? && NormalizeStatus(status.value).value != Rejected ==>
        var k := old(FirstOfUser(records, userId)).value;
        var saved := BeforeUpdate(old(records)[k].value.(status := NormalizeStatus(status.value).value), now);
        records == old(records)[k := Some(saved)] && r == Ok(Some(saved))
      ensures r.Ok? && NormalizeStatus(status.value).value == Approved ==> firstName.Some?
      ensures r.Ok? && NormalizeStatus(status.value).value != Pending ==>
        NoticeTemplate(NormalizeStatus(status.value).value) in notifications.templates
      ensures (status.Some? && status != Some("") && old(FirstOfUser(records, userId)).Some?
        && NormalizeStatus(status.value).Ok?
        && (NormalizeStatus(status.value).value != Pending ==>
              firstName.Some? && NoticeTemplate(NormalizeStatus(status.value).value) in notifications.templates)) ==>
        r.Ok?
      ensures !(status.Some? && status != Some("") && old(FirstOfUser(records, userId)).Some?
                && NormalizeStatus(status.value).Ok? && NormalizeStatus(status.value).value != Pending && firstName.Some?) ==>
        notifications.records == old(notifications.records) && notifications.outbox == old(notifications.outbox)
      ensures status.Some? && status != Some("") && old(FirstOfUser(records, userId)).Some?
              && NormalizeStatus(status.value).Ok? && NormalizeStatus(status.value).value != Pending && firstName.Some? ==>
        var t := NoticeTemplate(NormalizeStatus(status.value).value);
        if t !in notifications.templates then
          r == Err(Failure("Template " + t + " not found")) && records == old(records)
          && notifications.records == old(notifications.records) && notifications.outbox == old(notifications.outbox)
        else
          notifications.records == old(notifications.records) + NoticeRecords(notifications.templates, t, email, userId, firstName.value, deliver)
          && notifications.outbox == old(notifications.outbox) + NoticeDeliveries(notifications.templates, t, email, userId, firstName.value, deliver)
    {
      if status.None? || status.value == "" {
        return Err(BadRequest("A verificationStatus value must be supplied"));
      }
      var found := FirstOfUser(records, userId);
      if found.None? {
        return Err(NotFound("Verification data not found"));
      }
      var k := found.value;
      var normalized := NormalizeStatus(status.value);
      if normalized.Err? {
        return Err(normalized.error);
      }
      var s := normalized.value;
      if (s == Approved || s == Rejected) && firstName.None? {
        return Err(TypeError("Cannot read properties of null (reading 'firstName')"));
      }
      if s == Approved || s == Rejected {
        var sent := SendNotice(NoticeTemplate(s), email, userId, firstName.value, deliver);
        if sent.Err? {
          return Err(sent.error);
        }
      }
      if s == Rejected {
        records := Erase(records, userId);
        return Ok(None);
      }
      var saved := BeforeUpdate(records[k].value.(status := s), now);
      records := records[k := Some(saved)];
      r := Ok(Some(saved));
    }

    /** updateVerification (kyc-verification.service.ts:155-166): the supplied fields are merged and the status goes back to pending. */
    method UpdateVerification(userId: int, patch: VerificationPatch, now: int) returns (r: Result<Verification>)
      modifies this
      ensures old(FirstOfUser(records, userId)).None? ==>
        r == Err(NotFound("Identity verification not found")) && records == old(records)
      ensures old(FirstOfUser(records, userId)).Some? ==>
        var k := old(FirstOfUser(records, userId)).value;
        records == old(records)[k := Some(Merge(old(records)[k].value, patch))]
        && r == Ok(Merge(old(records)[k].value, patch))
      ensures r.Ok? ==> r.value.status == Pending
    {
      var found := GetVerification(userId);
      if found.Err? {
        return Err(found.error);
      }
      var k := FirstOfUser(records, userId).value;
      var saved := BeforeUpdate(Merge(found.value, patch), now);
      records := records[k := Some(saved)];
      r := Ok(saved);
    }
  }
}
