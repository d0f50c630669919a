/**
 * Subscriptions and packages (subscription.service.ts, subscription.entity.ts,
 * package.entity.ts, and the active-subscription query of
 * subscription.repository.ts).
 */
module Subscriptions {
  import opened Common
  import Users

  /**
   * The JSON stored in a package's `features` column. It is declared as a
   * list of feature names; the bid service also reads a `maxBidsPerDay` key
   * from it, which only an object value carries.
   */
  datatype FeatureJson =
    | FeatureNames(names: seq<string>)
    | FeatureSettings(maxBidsPerDay: int)    // 0 stands for an absent or falsy key

  datatype Package = Package(duration: int, features: Option<FeatureJson>)

  /** A subscription row; `packageId` indexes the package store. */
  datatype Subscription = Subscription(
    userId: int,
    packageId: Option<nat>,
    startDate: int,
    endDate: int,
    status: string)

  /**
   * findActiveSubscriptionByUserId: the first subscription with status
   * 'active' of the user; dates are not consulted. A `None` user id is an
   * `undefined` id, and the query builder then drops the user condition.
   */
  function FirstActive(subs: seq<Subscription>, userId: Option<int>): (r: Option<nat>)
    ensures r.Some? ==> r.value < |subs| && subs[r.value].status == "active"
    ensures r.Some? && userId.Some? ==> subs[r.value].userId == userId.value
    ensures r.Some? ==> forall j :: 0 <= j < r.value ==>
      !(subs[j].status == "active" && (userId.None? || subs[j].userId == userId.value))
    ensures r.None? <==> forall j :: 0 <= j < |subs| ==>
      !(subs[j].status == "active" && (userId.None? || subs[j].userId == userId.value))
  {
    if |subs| == 0 then None
    else if subs[0].status == "active" && (userId.None? || subs[0].userId == userId.value) then Some(0)
    else match FirstActive(subs[1..], userId)
      case None => None
      case Some(k) => Some(k + 1)
  }

  /** The end of a period of `days` starting at `start` (`setDate(getDate() + days)`). */
  function PeriodEnd(start: int, days: int): int
  {
    start + days * MsPerDay
  }

  /** A subscription renewed by `days` (renewSubscription): only its end date moves. */
  function Renewed(s: Subscription, days: int): (r: Subscription)
    ensures r.(endDate := s.endDate) == s
    ensures r.endDate - s.endDate == days * MsPerDay
  {
    s.(endDate := PeriodEnd(s.endDate, days))
  }

  /** The subscription after one renewal per duration, in order. */
  function RenewedAll(s: Subscription, durations: seq<int>): Subscription
    decreases |durations|
  {
    if |durations| == 0 then s else RenewedAll(Renewed(s, durations[0]), durations[1..])
  }

  function Total(durations: seq<int>): int
    decreases |durations|
  {
    if |durations| == 0 then 0 else durations[0] + Total(durations[1..])
  }

  /**
   * Renewals compose: a run of renewals is one renewal by the sum of the
   * durations, and no other field changes.
   */
  lemma {:induction false} RenewalsAdd(s: Subscription, durations: seq<int>)
    ensures RenewedAll(s, durations) == Renewed(s, Total(durations))
    decreases |durations|
  {
    if |durations| > 0 {
      var d, rest := durations[0], durations[1..];
      RenewalsAdd(Renewed(s, d), rest);
      assert (d + Total(rest)) * MsPerDay == d * MsPerDay + Total(rest) * MsPerDay;
    }
  }

  /**
   * getSubscriberFeatures: [] without an active subscription or package,
   * otherwise the package's features, or [] when they are null.
   */
  function SubscriberFeatures(subs: seq<Subscription>, packages: seq<Package>, userId: Option<int>): (r: FeatureJson)
    ensures FirstActive(subs, userId).None? ==> r == FeatureNames([])
    ensures FirstActive(subs, userId).Some? ==>
      var s := subs[FirstActive(subs, userId).value];
      if s.packageId.None? || s.packageId.value >= |packages| then r == FeatureNames([])
      else if packages[s.packageId.value].features.None? then r == FeatureNames([])
      else r == packages[s.packageId.value].features.value
  {
    match FirstActive(subs, userId)
    case None => FeatureNames([])
    case Some(i) =>
      var p := subs[i].packageId;
      if p.None? || p.value >= |packages| then FeatureNames([])
      else match packages[p.value].features
        case None => FeatureNames([])
        case Some(f) => f
  }

  class SubscriptionService {
    const users: Users.UsersService
    var subs: seq<Subscription>
    var packages: seq<Package>

    constructor(users: Users.UsersService)
      ensures this.users == users && subs == [] && packages == []
    {
      this.users := users;
      subs := [];
      packages := [];
    }

    /** isSubscriptionActive: some subscription of the user has status 'active'. */
    function IsSubscriptionActive(userId: int): (r: bool)
      reads this
      ensures r <==> exists j :: 0 <= j < |subs| && subs[j].userId == userId && subs[j].status == "active"
    {
      FirstActive(subs, Some(userId)).Some?
    }

    function GetSubscriberFeatures(userId: Option<int>): FeatureJson
      reads this
    {
      SubscriberFeatures(subs, packages, userId)
    }

    /**
     * createSubscription (subscription.service.ts:23-59): a new active
     * subscription from now until now plus the package's duration in days.
     */
    method CreateSubscription(userId: int, packageId: int, now: int) returns (r: Result<Subscription>)
      modifies this
      ensures users.Find(userId).None? ==> r == Err(NotFound("User not found")) && unchanged(this)
      ensures users.Find(userId).Some? && !(0 <= packageId < |packages|) ==>
        r == Err(NotFound("Package not found")) && unchanged(this)
      ensures users.Find(userId).Some? && 0 <= packageId < old(|packages|) ==>
        var s := Subscription(userId, Some(packageId), now, PeriodEnd(now, old(packages[packageId]).duration), "active");
        subs == old(subs) + [s] && packages == old(packages) && r == Ok(s)
    {
      if users.Find(userId).None? {
        return Err(NotFound("User not found"));
      }
      if !(0 <= packageId < |packages|) {
        return Err(NotFound("Package not found"));
      }
      var s := Subscription(userId, Some(packageId), now, PeriodEnd(now, packages[packageId].duration), "active");
      subs := subs + [s];
      r := Ok(s);
    }

    /**
     * cancelSubscription (subscription.service.ts:93-97): an update by id;
     * an unknown id changes nothing and is not reported.
     */
    method CancelSubscription(id: int)
      modifies this
      ensures !(0 <= id < old(|subs|)) ==> unchanged(this)
      ensures 0 <= id < old(|subs|) ==>
        subs == old(subs)[id := old(subs[id]).(status := "cancelled")] && packages == old(packages)
    {
      if 0 <= id < |subs| {
        subs := subs[id := subs[id].(status := "cancelled")];
      }
    }

    /**
     * renewSubscription (subscription.service.ts:100-114): the end date
     * moves by exactly `duration` days of 86 400 000 ms.
     */
    method RenewSubscription(id: int, duration: int) returns (r: Result<Subscription>)
      modifies this
      ensures !(0 <= id < old(|subs|)) ==> r == Err(NotFound("Subscription not found")) && unchanged(this)
      ensures 0 <= id < old(|subs|) ==>
        subs == old(subs)[id := old(subs[id]).(endDate := old(subs[id]).endDate + duration * 86400000)]
        && packages == old(packages) && r == Ok(subs[id])
    {
      if !(0 <= id < |subs|) {
        return Err(NotFound("Subscription not found"));
      }
      subs := subs[id := Renewed(subs[id], duration)];
      r := Ok(subs[id]);
    }
  }
}
