/**
 * The cron job that sends scheduled notifications: every due row is
 * dispatched, to every user when it is public and to one user otherwise,
 * and is marked sent or failed.
 */
module ScheduledNotifications {
  import opened Common
  import Users
  import opened Notifications

  /** Selected by the job: a scheduled row whose time has come. */
  predicate IsDue(n: Notification, now: int)
  {
    n.scheduledAt.Some? && n.scheduledAt.value <= now && n.status == Scheduled
  }

  /** The ids of the due rows among the first `upTo`, in table order. */
  function DueIdsUpTo(records: seq<Notification>, upTo: nat, now: int): (r: seq<nat>)
    requires upTo <= |records|
    ensures forall k :: 0 <= k < |r| ==> r[k] < upTo && IsDue(records[r[k]], now)
    ensures forall j :: 0 <= j < upTo && IsDue(records[j], now) ==> j in r
    ensures forall a, b :: 0 <= a < b < |r| ==> r[a] < r[b]
  {
    if upTo == 0 then []
    else DueIdsUpTo(records, upTo - 1, now) + (if IsDue(records[upTo - 1], now) then [upTo - 1] else [])
  }

  /** The rows the job's query returns (scheduled-notifications.service.ts:24-29). */
  function DueIds(records: seq<Notification>, now: int): (r: seq<nat>)
    ensures forall k :: 0 <= k < |r| ==> r[k] < |records| && IsDue(records[r[k]], now)
    ensures forall j :: 0 <= j < |records| && IsDue(records[j], now) ==> j in r
    ensures forall a, b :: 0 <= a < b < |r| ==> r[a] < r[b]
  {
    DueIdsUpTo(records, |records|, now)
  }

  /** validateNotificationData (scheduled-notifications.service.ts:84-95): a string is parsed, and a string that does not parse becomes `{}`. */
  function Normalize(data: Payload, parse: string -> Option<map<string, JsValue>>): (r: Payload)
    ensures !r.Serialized?
    ensures !data.Serialized? ==> r == data
  {
    match data
    case Serialized(text) =>
      var parsed := parse(text);
      if parsed.Some? then Object(parsed.value) else Object(map[])
    case _ => data
  }

  /** The data argument sendNotification receives. */
  function SendData(p: Payload): Option<map<string, JsValue>>
  {
    if p.Object? then Some(p.fields) else None
  }

  function Emails(users: seq<Users.User>): (r: seq<string>)
    ensures |r| == |users| && forall k :: 0 <= k < |users| ==> r[k] == users[k].email
  {
    seq(|users|, k requires 0 <= k < |users| => users[k].email)
  }

  /**
   * The addresses a due row goes to: every user's for a public row
   * (sendPublicNotification, lines 62-72), the one looked up by its user id
   * otherwise (sendPrivateNotification, lines 74-82).
   */
  function Recipients(n: Notification, users: seq<Users.User>): (r: Result<seq<string>>)
    ensures n.visibility == "public" ==> r == Ok(Emails(users))
    ensures n.visibility != "public" && !(1 <= LookupId(n.userId) <= |users|) ==> r == Err(NotFound("User not found"))
    ensures n.visibility != "public" && 1 <= LookupId(n.userId) <= |users| ==> r == Ok([users[LookupId(n.userId) - 1].email])
  {
    if n.visibility == "public" then Ok(Emails(users))
    else if 1 <= LookupId(n.userId) <= |users| then Ok([users[LookupId(n.userId) - 1].email])
    else Err(NotFound("User not found"))
  }

  /**
   * The error that makes a due row fail: the user lookup, or the template
   * and channel checks of the first send. A provider failing is recorded
   * on the sent row, so it never makes the scheduled row fail.
   */
  function DispatchFailure(templates: map<string, Template>, users: seq<Users.User>, n: Notification): (r: Option<string>)
    ensures r.Some? <==>
      Recipients(n, users).Err?
      || (|Recipients(n, users).value| > 0 && SendCheck(templates, n.templateId, Some(n.channels)).Err?)
    ensures Recipients(n, users).Err? ==> r == Some("User not found")
    ensures Recipients(n, users).Ok? && r.Some? ==> r == Some(SendCheck(templates, n.templateId, Some(n.channels)).error.message)
  {
    match Recipients(n, users)
    case Err(e) => Some(e.message)
    case Ok(rs) =>
      var check := SendCheck(templates, n.templateId, Some(n.channels));
      if |rs| > 0 && check.Err? then Some(check.error.message) else None
  }

  /** The row a due notification becomes after one run of the job (lines 31-49). */
  function Processed(templates: map<string, Template>, users: seq<Users.User>, n: Notification,
                     parse: string -> Option<map<string, JsValue>>): (r: Notification)
    ensures r.status == Sent || r.status == Failed
    ensures r.status == Failed <==> DispatchFailure(templates, users, n).Some?
    ensures r.status == Failed ==> r.error == DispatchFailure(templates, users, n)
    ensures r.status == Sent ==> r.error == n.error
    ensures r.data == Normalize(n.data, parse)
    ensures r.templateId == n.templateId && r.recipient == n.recipient && r.channels == n.channels
      && r.scheduledAt == n.scheduledAt && r.visibility == n.visibility && r.userId == n.userId
  {
    var failure := DispatchFailure(templates, users, n);
    n.(data := Normalize(n.data, parse),
       status := if failure.None? then Sent else Failed,
       error := if failure.None? then n.error else failure)
  }

  /**
   * The job of a send to everyone: sendNotification substitutes the same
   * template and data for every recipient, so the jobs of the loop differ
   * only in their address, which `RecordFor` and `DeliveriesFor` fill in.
   */
  function Unaddressed(t: Template, data: Option<map<string, JsValue>>): Job
  {
    NewJob(t, "", data, true)
  }

  /** The row appended for one recipient, sent with stopOnFailure. */
  function RecordFor(templateId: string, recipient: string, job: Job, chans: seq<string>,
                     data: Option<map<string, JsValue>>, deliver: Deliver): (r: Notification)
    ensures r.scheduledAt.None? && (r.status == Sent || r.status == Failed) && r.recipient == recipient
  {
    SentRecord(templateId, recipient, data, chans, FailureFrom(chans, 0, job.(recipient := recipient), deliver))
  }

  /** The provider sends for one recipient, sent with stopOnFailure. */
  function DeliveriesFor(recipient: string, job: Job, chans: seq<string>, deliver: Deliver): (r: seq<Delivery>)
    ensures forall k :: 0 <= k < |r| ==> r[k].recipient == recipient
  {
    DeliveriesFrom(chans, 0, job.(recipient := recipient), deliver)
  }

  /** The rows appended by sending to the recipients from `i` on, once the checks have passed. */
  function FanoutRecords(rs: seq<string>, i: nat, templateId: string, job: Job, chans: seq<string>,
                         data: Option<map<string, JsValue>>, deliver: Deliver): (r: seq<Notification>)
    requires i <= |rs|
    ensures |r| == |rs| - i
    ensures forall k :: 0 <= k < |r| ==>
      r[k].scheduledAt.None? && (r[k].status == Sent || r[k].status == Failed) && r[k].recipient == rs[i + k]
    decreases |rs| - i
  {
    if i == |rs| then []
    else
      var head := RecordFor(templateId, rs[i], job, chans, data, deliver);
      var rest := FanoutRecords(rs, i + 1, templateId, job, chans, data, deliver);
      var r := [head] + rest;
      assert r[0] == head;
      assert forall k :: 1 <= k < |r| ==> r[k] == rest[k - 1] && rs[i + k] == rs[(i + 1) + (k - 1)];
      r
  }

  /** The provider sends made for the recipients from `i` on, once the checks have passed. */
  function FanoutDeliveries(rs: seq<string>, i: nat, job: Job, chans: seq<string>, deliver: Deliver): (r: seq<Delivery>)
    requires i <= |rs|
    ensures forall k :: 0 <= k < |r| ==> r[k].recipient in rs[i..]
    decreases |rs| - i
  {
    if i == |rs| then []
    else DeliveriesFor(rs[i], job, chans, deliver) + FanoutDeliveries(rs, i + 1, job, chans, deliver)
  }

  class ScheduledNotificationsService {
    const notifications: NotificationService
    const users: Users.UsersService

    constructor(notifications: NotificationService, users: Users.UsersService)
      ensures this.notifications == notifications && this.users == users
    {
      this.notifications := notifications;
      this.users := users;
    }

    /**
     * processNotification (lines 52-82) for a row whose data is already
     * normalised: one sendNotification per recipient, stopping at the
     * first one that raises.
     */
    method Dispatch(n: Notification, deliver: Deliver) returns (failure: Option<string>)
      modifies notifications
      ensures failure == DispatchFailure(notifications.templates, users.users, n)
      ensures failure.Some? || SendCheck(notifications.templates, n.templateId, Some(n.channels)).Err? ==>
        notifications.records == old(notifications.records) && notifications.outbox == old(notifications.outbox)
      ensures failure.None? && SendCheck(notifications.templates, n.templateId, Some(n.channels)).Ok? ==>
        var rs := Recipients(n, users.users).value;
        var t := notifications.templates[n.templateId];
        var data := SendData(n.data);
        notifications.records == old(notifications.records) + FanoutRecords(rs, 0, n.templateId, Unaddressed(t, data), n.channels, data, deliver)
        && notifications.outbox == old(notifications.outbox) + FanoutDeliveries(rs, 0, Unaddressed(t, data), n.channels, deliver)
    {
      var recipients := Recipients(n, users.users);
      if recipients.Err? {
        return Some(recipients.error.message);
      }
      var rs := recipients.value;
      if |rs| == 0 {
        return None;
      }
      var check := SendCheck(notifications.templates, n.templateId, Some(n.channels));
      var data := SendData(n.data);
      if check.Err? {
        var refused := notifications.SendNotification(n.templateId, rs[0], data, Some(n.channels), true, deliver);
        return Some(refused.error.message);
      }
      var t := notifications.templates[n.templateId];
      Fanout(rs, n.templateId, t, data, n.channels, deliver);
      failure := None;
    }

    /** sendPublicNotification's loop (lines 64-71), once the checks have passed: one send per recipient, in order. */
    method Fanout(rs: seq<string>, templateId: string, t: Template, data: Option<map<string, JsValue>>,
                  chans: seq<string>, deliver: Deliver)
      requires SendCheck(notifications.templates, templateId, Some(chans)).Ok?
      requires t == notifications.templates[templateId]
      modifies notifications
      ensures notifications.records == old(notifications.records) + FanoutRecords(rs, 0, templateId, Unaddressed(t, data), chans, data, deliver)
      ensures notifications.outbox == old(notifications.outbox) + FanoutDeliveries(rs, 0, Unaddressed(t, data), chans, deliver)
    {
      ghost var job := Unaddressed(t, data);
      ghost var records0 := notifications.records;
      ghost var outbox0 := notifications.outbox;
      var i := 0;
      while i < |rs|
        invariant 0 <= i <= |rs|
        invariant records0 + FanoutRecords(rs, 0, templateId, job, chans, data, deliver)
             == notifications.records + FanoutRecords(rs, i, templateId, job, chans, data, deliver)
        invariant outbox0 + FanoutDeliveries(rs, 0, job, chans, deliver)
             == notifications.outbox + FanoutDeliveries(rs, i, job, chans, deliver)
      {
        ghost var before := notifications.records;
        ghost var beforeOutbox := notifications.outbox;
        ghost var record := RecordFor(templateId, rs[i], job, chans, data, deliver);
        ghost var sends := DeliveriesFor(rs[i], job, chans, deliver);
        ghost var restR := FanoutRecords(rs, i + 1, templateId, job, chans, data, deliver);
        ghost var restD := FanoutDeliveries(rs, i + 1, job, chans, deliver);
        assert FanoutRecords(rs, i, templateId, job, chans, data, deliver) == [record] + restR;
        assert FanoutDeliveries(rs, i, job, chans, deliver) == sends + restD;
        SendTo(templateId, t, rs[i], data, chans, deliver);
        Shift(records0 + FanoutRecords(rs, 0, templateId, job, chans, data, deliver), before,
              FanoutRecords(rs, i, templateId, job, chans, data, deliver), [record], restR, notifications.records);
        Shift(outbox0 + FanoutDeliveries(rs, 0, job, chans, deliver), beforeOutbox,
              FanoutDeliveries(rs, i, job, chans, deliver), sends, restD, notifications.outbox);
        i := i + 1;
      }
      assert notifications.records + [] == notifications.records;
      assert notifications.outbox + [] == notifications.outbox;
    }

    /** One sendNotification that passes its checks: one row and the sends of its channels. */
    method SendTo(templateId: string, t: Template, recipient: string, data: Option<map<string, JsValue>>,
                  chans: seq<string>, deliver: Deliver)
      requires SendCheck(notifications.templates, templateId, Some(chans)).Ok?
      requires t == notifications.templates[templateId]
      modifies notifications
      ensures notifications.records == old(notifications.records) + [RecordFor(templateId, recipient, Unaddressed(t, data), chans, data, deliver)]
      ensures notifications.outbox == old(notifications.outbox) + DeliveriesFor(recipient, Unaddressed(t, data), chans, deliver)
    {
      assert Unaddressed(t, data).(recipient := recipient) == NewJob(t, recipient, data, true);
      var sent := notifications.SendNotification(templateId, recipient, data, Some(chans), true, deliver);
    }

    /** One iteration of the job: the due row `id` is dispatched and written back. */
    method ProcessOne(id: nat, parse: string -> Option<map<string, JsValue>>, deliver: Deliver)
      requires id < |notifications.records|
      modifies notifications
      ensures |notifications.records| >= old(|notifications.records|)
      ensures notifications.records[..old(|notifications.records|)]
        == old(notifications.records)[id := Processed(notifications.templates, users.users, old(notifications.records)[id], parse)]
      ensures AppendedAfter(notifications.records, old(|notifications.records|))
      ensures old(notifications.outbox) <= notifications.outbox
    {
      var n := notifications.records[id];
      var data := Normalize(n.data, parse);
      ghost var before := notifications.records;
      ghost var beforeOutbox := notifications.outbox;
      var failure := Dispatch(n.(data := data), deliver);
      assert DispatchFailure(notifications.templates, users.users, n.(data := data))
          == DispatchFailure(notifications.templates, users.users, n);
      FanoutShape(before, notifications.records, beforeOutbox, notifications.outbox);
      var done := n.(data := data,
                     status := if failure.None? then Sent else Failed,
                     error := if failure.None? then n.error else failure);
      notifications.Store(id, done);
    }

    /**
     * handleScheduledNotifications (scheduled-notifications.service.ts:20-50):
     * each due row is dispatched and written back sent, or failed with the
     * error's message. Rows that were not due keep their contents, the rows
     * the sends append are never due, and so nothing is left due.
     */
    method HandleScheduledNotifications(now: int, parse: string -> Option<map<string, JsValue>>, deliver: Deliver)
      modifies notifications
      ensures |notifications.records| >= old(|notifications.records|)
      ensures var due := DueIds(old(notifications.records), now);
        forall k :: 0 <= k < |due| ==>
          notifications.records[due[k]] == Processed(notifications.templates, users.users, old(notifications.records)[due[k]], parse)
      ensures forall j :: 0 <= j < old(|notifications.records|) && !IsDue(old(notifications.records)[j], now) ==>
        notifications.records[j] == old(notifications.records)[j]
      ensures AppendedAfter(notifications.records, old(|notifications.records|))
      ensures old(notifications.outbox) <= notifications.outbox
      ensures forall j :: 0 <= j < |notifications.records| ==> !IsDue(notifications.records[j], now)
      ensures DueIds(notifications.records, now) == []
    {
      var due := DueIds(notifications.records, now);
      ghost var before := notifications.records;
      ghost var templates := notifications.templates;
      ghost var us := users.users;
      var i := 0;
      while i < |due|
        invariant 0 <= i <= |due|
        invariant users.users == us
        invariant Progress(before, notifications.records, due, i, templates, us, parse, now)
        invariant old(notifications.outbox) <= notifications.outbox
      {
        ghost var mid := notifications.records;
        ProcessOne(due[i], parse, deliver);
        ProgressStep(before, mid, notifications.records, due, i, templates, us, parse, now);
        i := i + 1;
      }
      NoneLeftDue(before, notifications.records, due, now);
      NothingDue(notifications.records, now);
    }
  }

  /** No appended row (from position `from` on) is ever due: it has no schedule and a final status. */
  ghost predicate AppendedAfter(records: seq<Notification>, from: nat)
  {
    forall j :: from <= j < |records| ==>
      records[j].scheduledAt.None? && (records[j].status == Sent || records[j].status == Failed)
  }

  /** The rows a dispatch appends are never due, and the provider log only grows. */
  lemma FanoutShape(before: seq<Notification>, after: seq<Notification>, beforeOutbox: seq<Delivery>, afterOutbox: seq<Delivery>)
    requires (after == before && afterOutbox == beforeOutbox)
      || exists rs: seq<string>, templateId, job, chans, data, deliver ::
           after == before + FanoutRecords(rs, 0, templateId, job, chans, data, deliver)
           && afterOutbox == beforeOutbox + FanoutDeliveries(rs, 0, job, chans, deliver)
    ensures |after| >= |before| && after[..|before|] == before && AppendedAfter(after, |before|)
    ensures beforeOutbox <= afterOutbox
  {
    if !(after == before && afterOutbox == beforeOutbox) {
      var rs: seq<string>, templateId, job, chans, data, deliver :|
        after == before + FanoutRecords(rs, 0, templateId, job, chans, data, deliver)
        && afterOutbox == beforeOutbox + FanoutDeliveries(rs, 0, job, chans, deliver);
      var added := FanoutRecords(rs, 0, templateId, job, chans, data, deliver);
      assert forall j :: |before| <= j < |after| ==> after[j] == added[j - |before|];
    }
  }

  /**
   * The state of the cron job after the first `i` due rows: those are
   * processed, the other due rows and the non-due rows are as they were,
   * and every appended row is a sent or failed immediate notification.
   */
  ghost predicate Progress(before: seq<Notification>, cur: seq<Notification>, due: seq<nat>, i: nat,
                           templates: map<string, Template>, us: seq<Users.User>,
                           parse: string -> Option<map<string, JsValue>>, now: int)
  {
    i <= |due| && |cur| >= |before|
    && (forall k :: 0 <= k < |due| ==> due[k] < |before| && IsDue(before[due[k]], now))
    && (forall a, b :: 0 <= a < b < |due| ==> due[a] < due[b])
    && (forall k :: 0 <= k < i ==> cur[due[k]] == Processed(templates, us, before[due[k]], parse))
    && (forall k :: i <= k < |due| ==> cur[due[k]] == before[due[k]])
    && (forall j :: 0 <= j < |before| && !IsDue(before[j], now) ==> cur[j] == before[j])
    && AppendedAfter(cur, |before|)
  }

  /** Processing the next due row keeps the job's progress. */
  lemma ProgressStep(before: seq<Notification>, mid: seq<Notification>, after: seq<Notification>, due: seq<nat>, i: nat,
                     templates: map<string, Template>, us: seq<Users.User>,
                     parse: string -> Option<map<string, JsValue>>, now: int)
    requires Progress(before, mid, due, i, templates, us, parse, now) && i < |due|
    requires |after| >= |mid|
    requires after[..|mid|] == mid[due[i] := Processed(templates, us, mid[due[i]], parse)]
    requires AppendedAfter(after, |mid|)
    ensures Progress(before, after, due, i + 1, templates, us, parse, now)
  {
    assert forall j :: 0 <= j < |mid| ==> after[j] == after[..|mid|][j];
    assert mid[due[i]] == before[due[i]];
  }

  /** Moving the next piece of the remaining work onto the done part keeps the total. */
  lemma Shift<T>(total: seq<T>, done: seq<T>, rest: seq<T>, head: seq<T>, tail: seq<T>, done': seq<T>)
    requires total == done + rest && rest == head + tail && done' == done + head
    ensures total == done' + tail
  {
  }

  /** After every due row is settled, no row of the table is due. */
  lemma NoneLeftDue(before: seq<Notification>, after: seq<Notification>, due: seq<nat>, now: int)
    requires |after| >= |before|
    requires forall j :: 0 <= j < |before| && IsDue(before[j], now) ==> j in due
    requires forall k :: 0 <= k < |due| ==> due[k] < |before|
    requires forall k :: 0 <= k < |due| ==> after[due[k]].status == Sent || after[due[k]].status == Failed
    requires forall j :: 0 <= j < |before| && !IsDue(before[j], now) ==> after[j] == before[j]
    requires AppendedAfter(after, |before|)
    ensures forall j :: 0 <= j < |after| ==> !IsDue(after[j], now)
  {
    forall j | 0 <= j < |after|
      ensures !IsDue(after[j], now)
    {
      if j < |before| && IsDue(before[j], now) {
        var k :| 0 <= k < |due| && due[k] == j;
      }
    }
  }

  /** With no due row left, a further run of the job selects nothing. */
  lemma NothingDue(records: seq<Notification>, now: int)
    requires forall j :: 0 <= j < |records| ==> !IsDue(records[j], now)
    ensures DueIds(records, now) == []
  {
    NothingDueUpTo(records, |records|, now);
  }

  lemma {:induction false} NothingDueUpTo(records: seq<Notification>, upTo: nat, now: int)
    requires upTo <= |records|
    requires forall j :: 0 <= j < |records| ==> !IsDue(records[j], now)
    ensures DueIdsUpTo(records, upTo, now) == []
  {
    if upTo > 0 {
      NothingDueUpTo(records, upTo - 1, now);
      assert !IsDue(records[upTo - 1], now);
    }
  }
}
