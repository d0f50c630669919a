/**
 * Bid admission (bids.service.ts): eligibility checks, the daily cap taken
 * from the freelancer's current subscription, and the per-freelancer
 * remaining-bids counter that is refilled when the calendar day changes.
 */
module Bids {
  import opened Common
  import Users
  import Subscriptions
  import Projects

  /** The cap when no current subscription sets one (bids.service.ts:63). */
  const DefaultCap: int := 5

  /** The UTC calendar day of an instant (`toISOString().split('T')[0]`). */
  function Today(now: int): int
  {
    now / MsPerDay
  }

  /**
   * The first of the user's subscriptions that is 'active' and whose period
   * contains `now` (both ends included).
   */
  function FirstCurrent(subs: seq<Subscriptions.Subscription>, userId: int, now: int): (r: Option<nat>)
    ensures r.Some? ==>
      r.value < |subs| && subs[r.value].userId == userId && subs[r.value].status == "active"
      && subs[r.value].startDate <= now <= subs[r.value].endDate
    ensures r.Some? ==> forall j :: 0 <= j < r.value ==>
      !(subs[j].userId == userId && subs[j].status == "active" && subs[j].startDate <= now <= subs[j].endDate)
    ensures r.None? ==> forall j :: 0 <= j < |subs| ==>
      !(subs[j].userId == userId && subs[j].status == "active" && subs[j].startDate <= now <= subs[j].endDate)
  {
    if |subs| == 0 then None
    else if subs[0].userId == userId && subs[0].status == "active" && subs[0].startDate <= now <= subs[0].endDate then Some(0)
    else match FirstCurrent(subs[1..], userId, now)
      case None => None
      case Some(k) => Some(k + 1)
  }

  /**
   * The daily cap (bids.service.ts:54-69): a current subscription's package
   * replaces 5 by a truthy `maxBidsPerDay`; a current subscription without a
   * package makes the read of `package.features` throw.
   */
  function DailyCap(subs: seq<Subscriptions.Subscription>, packages: seq<Subscriptions.Package>, userId: int, now: int): (r: Result<int>)
    ensures r.Ok? ==> r.value != 0
    ensures FirstCurrent(subs, userId, now).None? ==> r == Ok(DefaultCap)
    ensures r.Err? <==>
      FirstCurrent(subs, userId, now).Some?
      && (subs[FirstCurrent(subs, userId, now).value].packageId.None?
          || subs[FirstCurrent(subs, userId, now).value].packageId.value >= |packages|)
    ensures r.Ok? && r.value != DefaultCap ==>
      var s := subs[FirstCurrent(subs, userId, now).value];
      packages[s.packageId.value].features == Some(Subscriptions.FeatureSettings(r.value))
    ensures FirstCurrent(subs, userId, now).Some? ==>
      var s := subs[FirstCurrent(subs, userId, now).value];
      s.packageId.Some? && s.packageId.value < |packages| ==>
        match packages[s.packageId.value].features
        case Some(FeatureSettings(m)) => r == Ok(if m != 0 then m else DefaultCap)
        case _ => r == Ok(DefaultCap)
  {
    match FirstCurrent(subs, userId, now)
    case None => Ok(DefaultCap)
    case Some(i) =>
      var p := subs[i].packageId;
      if p.None? || p.value >= |packages| then Err(TypeError("Cannot read properties of null (reading 'features')"))
      else match packages[p.value].features
        case Some(FeatureSettings(m)) => if m != 0 then Ok(m) else Ok(DefaultCap)
        case _ => Ok(DefaultCap)
  }

  /** A freelancer's bid counter: the bids left and the day it was last refilled. */
  datatype Quota = Quota(remaining: int, lastReset: Option<int>)

  /** The counter as the admission check sees it: refilled to `cap` on a new day. */
  function Refill(q: Quota, today: int, cap: int): (r: Quota)
    ensures r.lastReset == Some(today)
    ensures q.lastReset == Some(today) ==> r == q
    ensures q.lastReset != Some(today) ==> r.remaining == cap
  {
    if q.lastReset != Some(today) then Quota(cap, Some(today)) else q
  }

  /**
   * One admission attempt (bids.service.ts:72-92): the refilled counter is
   * kept even when the attempt is refused; an admitted bid costs exactly one.
   */
  function Admit(q: Quota, today: int, cap: int): (r: (Quota, bool))
    ensures r.1 <==> Refill(q, today, cap).remaining > 0
    ensures r.0.lastReset == Some(today)
    ensures r.0.remaining == if r.1 then Refill(q, today, cap).remaining - 1 else Refill(q, today, cap).remaining
  {
    var q1 := Refill(q, today, cap);
    if q1.remaining <= 0 then (q1, false) else (q1.(remaining := q1.remaining - 1), true)
  }

  /** How many of a run of attempts on one day are admitted, the i-th seeing cap `caps[i]`. */
  function AdmittedCount(q: Quota, today: int, caps: seq<int>): nat
    decreases |caps|
  {
    if |caps| == 0 then 0
    else
      var (q1, ok) := Admit(q, today, caps[0]);
      (if ok then 1 else 0) + AdmittedCount(q1, today, caps[1..])
  }

  function Max0(x: int): nat
  {
    if x > 0 then x else 0
  }

  /** Once refilled today, at most the remaining count is admitted, whatever later caps say. */
  lemma {:induction false} SameDayBound(q: Quota, today: int, caps: seq<int>)
    requires q.lastReset == Some(today)
    ensures AdmittedCount(q, today, caps) <= Max0(q.remaining)
    decreases |caps|
  {
    if |caps| > 0 {
      var (q1, ok) := Admit(q, today, caps[0]);
      SameDayBound(q1, today, caps[1..]);
    }
  }

  /**
   * The rate limit: on a day the counter was not yet refilled, a run of
   * sequential attempts admits at most the cap in force at the first one.
   */
  lemma DailyLimit(q: Quota, today: int, caps: seq<int>)
    requires q.lastReset != Some(today) && |caps| > 0
    ensures AdmittedCount(q, today, caps) <= Max0(caps[0])
  {
    var (q1, ok) := Admit(q, today, caps[0]);
    SameDayBound(q1, today, caps[1..]);
  }

  /** A refused attempt leaves a counter that refuses every later attempt that day. */
  lemma {:induction false} ExhaustedStaysExhausted(q: Quota, today: int, caps: seq<int>)
    requires q.lastReset == Some(today) && q.remaining <= 0
    ensures AdmittedCount(q, today, caps) == 0
    decreases |caps|
  {
    if |caps| > 0 {
      var (q1, ok) := Admit(q, today, caps[0]);
      ExhaustedStaysExhausted(q1, today, caps[1..]);
    }
  }

  /** The request body of createBid; `status` is optional. */
  datatype BidRequest = BidRequest(
    amount: real,
    currency: Option<string>,
    projectId: int,
    freelancerId: int,
    ownerId: int,
    status: Option<string>)

  /** The bid row createBid saves: absent columns take their defaults. */
  function NewBid(req: BidRequest): (b: Projects.Bid)
    requires req.projectId >= 0
    ensures b.projectId == req.projectId && b.freelancerId == req.freelancerId && b.ownerId == req.ownerId
    ensures b.status == (if req.status.Some? then req.status.value else "pending")
    ensures b.currency == (if req.currency.Some? then req.currency.value else "SPY")
  {
    Projects.Bid(req.projectId, req.freelancerId, req.ownerId, req.amount,
      if req.currency.Some? then req.currency.value else "SPY",
      if req.status.Some? then req.status.value else "pending")
  }

  predicate HasBidOn(bids: seq<Projects.Bid>, freelancerId: int, projectId: int)
  {
    exists i :: 0 <= i < |bids| && bids[i].freelancerId == freelancerId && bids[i].projectId == projectId
  }

  class BidService {
    const users: Users.UsersService
    const projects: Projects.ProjectService
    const subscriptions: Subscriptions.SubscriptionService

    constructor(users: Users.UsersService, projects: Projects.ProjectService, subscriptions: Subscriptions.SubscriptionService)
      ensures this.users == users && this.projects == projects && this.subscriptions == subscriptions
    {
      this.users := users;
      this.projects := projects;
      this.subscriptions := subscriptions;
    }

    /** The counter stored on a user. */
    function QuotaOf(u: Users.User): Quota
    {
      Quota(u.remainingBids, u.lastBidReset)
    }

    /**
     * The eligibility checks of createBid (bids.service.ts:22-50), in their
     * order: freelancer, owner and project must exist, the project must be
     * pending, and the freelancer must not have bid on it already.
     */
    function Eligibility(req: BidRequest): (r: Result<()>)
      reads users, projects
      ensures r.Ok? <==>
        users.Find(req.freelancerId).Some? && users.Find(req.ownerId).Some?
        && 0 <= req.projectId < |projects.projects| && projects.projects[req.projectId].status == "pending"
        && !HasBidOn(projects.bids, req.freelancerId, req.projectId)
      ensures users.Find(req.freelancerId).None? ==> r == Err(NotFound("User does not exist"))
      ensures users.Find(req.freelancerId).Some? && users.Find(req.ownerId).None? ==> r == Err(NotFound("User not found"))
      ensures users.Find(req.freelancerId).Some? && users.Find(req.ownerId).Some?
              && !(0 <= req.projectId < |projects.projects|) ==>
        r == Err(NotFound("Project does not exist"))
      ensures users.Find(req.freelancerId).Some? && users.Find(req.ownerId).Some?
              && 0 <= req.projectId < |projects.projects| && projects.projects[req.projectId].status != "pending" ==>
        r == Err(BadRequest("The project is not active and cannot receive bids"))
      ensures users.Find(req.freelancerId).Some? && users.Find(req.ownerId).Some?
              && 0 <= req.projectId < |projects.projects| && projects.projects[req.projectId].status == "pending"
              && HasBidOn(projects.bids, req.freelancerId, req.projectId) ==>
        r == Err(BadRequest("You have already submitted a bid for this project"))
    {
      if users.Find(req.freelancerId).None? then Err(NotFound("User does not exist"))
      else if users.Find(req.ownerId).None? then Err(NotFound("User not found"))
      else if !(0 <= req.projectId < |projects.projects|) then Err(NotFound("Project does not exist"))
      else if projects.projects[req.projectId].status != "pending" then Err(BadRequest("The project is not active and cannot receive bids"))
      else if HasBidOn(projects.bids, req.freelancerId, req.projectId) then Err(BadRequest("You have already submitted a bid for this project"))
      else Ok(())
    }

    /**
     * The counter part of createBid (bids.service.ts:72-92): on a new day the
     * counter is refilled and saved; an admitted bid then saves it one lower.
     */
    method TakeBid(id: int, today: int, cap: int) returns (ok: bool)
      requires 1 <= id <= |users.users|
      modifies users
      ensures var u := old(users.users)[id - 1];
        var (q, admitted) := Admit(QuotaOf(u), today, cap);
        ok == admitted
        && users.users == old(users.users)[id - 1 := u.(remainingBids := q.remaining, lastBidReset := q.lastReset)]
        && users.tokens == old(users.tokens)
    {
      var u := users.users[id - 1];
      var remaining := u.remainingBids;
      if u.lastBidReset != Some(today) {
        remaining := cap;
        var _ := users.UpdateUser(id, Users.UserPatch(None, None, None, None, Some(remaining), Some(today)));
      }
      if remaining <= 0 {
        return false;
      }
      remaining := remaining - 1;
      var _ := users.UpdateUser(id, Users.UserPatch(None, None, None, None, Some(remaining), None));
      ok := true;
    }

    /**
     * createBid (bids.service.ts:21-102). A failed eligibility check writes
     * nothing; after it the refill is written, then either the attempt is
     * refused or the counter drops by one and the bid is saved.
     */
    method CreateBid(req: BidRequest, now: int) returns (r: Result<Projects.Bid>)
      requires projects.Valid()
      modifies users, projects
      ensures projects.Valid()
      ensures old(Eligibility(req)).Err? ==>
        r == Err(old(Eligibility(req)).error) && unchanged(users) && unchanged(projects)
      ensures old(Eligibility(req)).Ok? ==>
        projects.projects == old(projects.projects) && projects.contracts == old(projects.contracts)
        && users.tokens == old(users.tokens)
      ensures old(Eligibility(req)).Ok? && DailyCap(subscriptions.subs, subscriptions.packages, req.freelancerId, now).Err? ==>
        r == Err(DailyCap(subscriptions.subs, subscriptions.packages, req.freelancerId, now).error)
        && unchanged(users) && unchanged(projects)
      ensures old(Eligibility(req)).Ok? && DailyCap(subscriptions.subs, subscriptions.packages, req.freelancerId, now).Ok? ==>
        var u := old(users.users)[req.freelancerId - 1];
        var (q, ok) := Admit(QuotaOf(u), Today(now), DailyCap(subscriptions.subs, subscriptions.packages, req.freelancerId, now).value);
        users.users == old(users.users)[req.freelancerId - 1 := u.(remainingBids := q.remaining, lastBidReset := q.lastReset)]
        && (ok ==> projects.bids == old(projects.bids) + [NewBid(req)] && r == Ok(NewBid(req)))
        && (!ok ==> projects.bids == old(projects.bids)
                    && r == Err(BadRequest("You have used up your daily bids; try again tomorrow")))
    {
      var eligible := Eligibility(req);
      if eligible.Err? {
        return Err(eligible.error);
      }
      var cap := DailyCap(subscriptions.subs, subscriptions.packages, req.freelancerId, now);
      if cap.Err? {
        return Err(cap.error);
      }
      var ok := TakeBid(req.freelancerId, Today(now), cap.value);
      if !ok {
        return Err(BadRequest("You have used up your daily bids; try again tomorrow"));
      }
      var b := NewBid(req);
      projects.InsertBid(b);
      r := Ok(b);
    }
  }
}
