/**
 * Ratings (ratings.service.ts): the weighted rating of one record, the
 * average over a user's records, the per-criterion performance analysis,
 * and the rater/rated role checks of createRating.
 */
module Ratings {
  import opened Common
  import Users
  import Projects

  /** A criterion as the service reads it: `undefined`, `null`, or a score. */
  datatype Crit = Absent | Null | Score(value: real)

  /**
   * The six criteria in the order calculateWeightedRating visits them:
   * professionalism, quality, timeliness, communication, expertise, repeat.
   */
  type Criteria = c: seq<Crit> | |c| == 6 witness [Absent, Absent, Absent, Absent, Absent, Absent]

  /** WEIGHTS (ratings.service.ts:15-29), in the order of `Criteria`. */
  const Weights: seq<real> := [1.5, 1.0, 1.0, 1.0, 1.0, 1.0]

  /**
   * A stored rating. The rater and the rated user are the `raterId` and
   * `ratedId` join columns of the `rater` and `rated` relations
   * (ratings.entity.ts:17-28); `None` is a NULL link.
   */
  datatype Rating = Rating(
    raterId: Option<int>,
    ratedId: Option<int>,
    raterRole: string,
    ratedRole: string,
    projectId: int,
    criteria: Criteria,
    comment: string)

  /** Σ value·weight over the first `n` criteria that are neither undefined nor null. */
  function WSum(c: Criteria, n: nat): real
    requires n <= 6
  {
    if n == 0 then 0.0
    else WSum(c, n - 1) + (if c[n - 1].Score? then c[n - 1].value * Weights[n - 1] else 0.0)
  }

  /** Σ weight over the same criteria. */
  function WTotal(c: Criteria, n: nat): real
    requires n <= 6
  {
    if n == 0 then 0.0
    else WTotal(c, n - 1) + (if c[n - 1].Score? then Weights[n - 1] else 0.0)
  }

  /** The weighted mean of the present criteria, 0 when none is present. */
  function Weighted(c: Criteria): real
  {
    if WTotal(c, 6) > 0.0 then WSum(c, 6) / WTotal(c, 6) else 0.0
  }

  predicate ScoresWithin(c: Criteria, lo: real, hi: real)
  {
    forall i :: 0 <= i < 6 && c[i].Score? ==> lo <= c[i].value <= hi
  }

  lemma {:induction false} TotalPositiveIffPresent(c: Criteria, n: nat)
    requires n <= 6
    ensures WTotal(c, n) >= 0.0
    ensures WTotal(c, n) > 0.0 <==> exists i :: 0 <= i < n && c[i].Score?
  {
    if n > 0 {
      TotalPositiveIffPresent(c, n - 1);
    }
  }

  lemma {:induction false} SumBetween(c: Criteria, n: nat, lo: real, hi: real)
    requires n <= 6 && ScoresWithin(c, lo, hi)
    ensures lo * WTotal(c, n) <= WSum(c, n) <= hi * WTotal(c, n)
  {
    if n > 0 {
      SumBetween(c, n - 1, lo, hi);
      if c[n - 1].Score? {
        var v, w := c[n - 1].value, Weights[n - 1];
        assert w > 0.0;
        assert lo * w <= v * w <= hi * w;
      }
    }
  }

  /**
   * The weighted rating lies between the smallest and largest present
   * score, and is 0 exactly when no criterion is present.
   */
  lemma WeightedBetween(c: Criteria, lo: real, hi: real)
    requires ScoresWithin(c, lo, hi) && exists i :: 0 <= i < 6 && c[i].Score?
    ensures lo <= Weighted(c) <= hi
  {
    TotalPositiveIffPresent(c, 6);
    SumBetween(c, 6, lo, hi);
    var s, t := WSum(c, 6), WTotal(c, 6);
    assert lo * t <= s;
    assert s / t >= lo by {
      assert (s / t) * t == s;
    }
    assert s / t <= hi by {
      assert (s / t) * t == s;
    }
  }

  lemma WeightedZeroWhenEmpty(c: Criteria)
    requires forall i :: 0 <= i < 6 ==> !c[i].Score?
    ensures Weighted(c) == 0.0
  {
    TotalPositiveIffPresent(c, 6);
  }

  /** A record as create-rating.dto.ts admits it: professionalism present, every score an integer in 1..5. */
  predicate Validated(c: Criteria)
  {
    c[0].Score? && ScoresWithin(c, 1.0, 5.0)
    && forall i :: 0 <= i < 6 && c[i].Score? ==> c[i].value == c[i].value.Floor as real
  }

  /** For a validated record the weighted rating is within 1..5. */
  lemma ValidatedWeightedInRange(c: Criteria)
    requires Validated(c)
    ensures 1.0 <= Weighted(c) <= 5.0
  {
    WeightedBetween(c, 1.0, 5.0);
  }

  /**
   * calculateWeightedRating (ratings.service.ts:106-137): `addRating`
   * accumulates value·weight and weight over the six criteria in turn.
   */
  method CalculateWeightedRating(c: Criteria) returns (r: real)
    ensures r == Weighted(c)
  {
    var sum, totalWeight := 0.0, 0.0;
    var i := 0;
    while i < 6
      invariant 0 <= i <= 6
      invariant sum == WSum(c, i) && totalWeight == WTotal(c, i)
    {
      if !c[i].Absent? && !c[i].Null? {
        sum := sum + c[i].value * Weights[i];
        totalWeight := totalWeight + Weights[i];
      }
      i := i + 1;
    }
    r := if totalWeight > 0.0 then sum / totalWeight else 0.0;
  }

  /** Σ weighted rating over the records `rs` (the `reduce` of getAverageRating). */
  function SumWeighted(rs: seq<Rating>): real
  {
    if |rs| == 0 then 0.0 else SumWeighted(rs[..|rs| - 1]) + Weighted(rs[|rs| - 1].criteria)
  }

  /** getAverageRating (ratings.service.ts:143-153): 0 without ratings, else the mean weighted rating. */
  function AverageRating(rs: seq<Rating>): real
  {
    if |rs| == 0 then 0.0 else SumWeighted(rs) / (|rs| as real)
  }

  lemma {:induction false} SumWeightedBetween(rs: seq<Rating>)
    requires forall j :: 0 <= j < |rs| ==> Validated(rs[j].criteria)
    ensures 1.0 * (|rs| as real) <= SumWeighted(rs) <= 5.0 * (|rs| as real)
  {
    if |rs| > 0 {
      SumWeightedBetween(rs[..|rs| - 1]);
      ValidatedWeightedInRange(rs[|rs| - 1].criteria);
    }
  }

  /** The average of validated records is within 1..5. */
  lemma AverageInRange(rs: seq<Rating>)
    requires |rs| > 0 && forall j :: 0 <= j < |rs| ==> Validated(rs[j].criteria)
    ensures 1.0 <= AverageRating(rs) <= 5.0
  {
    SumWeightedBetween(rs);
    var s, n := SumWeighted(rs), |rs| as real;
    assert (s / n) * n == s;
  }

  /**
   * The per-criterion tallies of getPerformanceAnalysis (ratings.service.ts:
   * 203-254): a criterion counts when it is not `undefined`, so a `null`
   * counts and adds 0 (`sum += null`).
   */
  function CritSum(rs: seq<Rating>, k: nat): real
    requires k < 6
  {
    if |rs| == 0 then 0.0
    else CritSum(rs[..|rs| - 1], k) + (if rs[|rs| - 1].criteria[k].Score? then rs[|rs| - 1].criteria[k].value else 0.0)
  }

  function CritCount(rs: seq<Rating>, k: nat): nat
    requires k < 6
  {
    if |rs| == 0 then 0
    else CritCount(rs[..|rs| - 1], k) + (if rs[|rs| - 1].criteria[k].Absent? then 0 else 1)
  }

  /** The average of one criterion, `null` when no record carried it. */
  function CritAverage(rs: seq<Rating>, k: nat): Option<real>
    requires k < 6
  {
    if CritCount(rs, k) == 0 then None else Some(CritSum(rs, k) / (CritCount(rs, k) as real))
  }

  /** `a` added `n` times: the product `a * n` written without multiplication. */
  function Times(a: real, n: nat): real
  {
    if n == 0 then 0.0 else Times(a, n - 1) + a
  }

  lemma {:induction false} TimesIsProduct(a: real, n: nat)
    ensures Times(a, n) == a * (n as real)
  {
    if n > 0 {
      TimesIsProduct(a, n - 1);
      assert a * (n as real) == a * ((n - 1) as real) + a;
    }
  }

  lemma {:induction false} CritSumBetween(rs: seq<Rating>, k: nat, lo: real, hi: real)
    requires k < 6
    requires forall j :: 0 <= j < |rs| ==> !rs[j].criteria[k].Null?
    requires forall j :: 0 <= j < |rs| && rs[j].criteria[k].Score? ==> lo <= rs[j].criteria[k].value <= hi
    ensures Times(lo, CritCount(rs, k)) <= CritSum(rs, k) <= Times(hi, CritCount(rs, k))
  {
    if |rs| > 0 {
      var init := rs[..|rs| - 1];
      assert forall j :: 0 <= j < |init| ==> init[j] == rs[j];
      CritSumBetween(init, k, lo, hi);
    }
  }

  /** Without nulls, a criterion's average lies within the bounds of its scores. */
  lemma CritAverageBetween(rs: seq<Rating>, k: nat, lo: real, hi: real)
    requires k < 6
    requires forall j :: 0 <= j < |rs| ==> !rs[j].criteria[k].Null?
    requires forall j :: 0 <= j < |rs| && rs[j].criteria[k].Score? ==> lo <= rs[j].criteria[k].value <= hi
    ensures CritAverage(rs, k).Some? ==> lo <= CritAverage(rs, k).value <= hi
  {
    CritSumBetween(rs, k, lo, hi);
    TimesIsProduct(lo, CritCount(rs, k));
    TimesIsProduct(hi, CritCount(rs, k));
    if CritCount(rs, k) > 0 {
      DivisionBounds(lo, hi, CritSum(rs, k), CritCount(rs, k) as real);
    }
  }

  lemma DivisionBounds(lo: real, hi: real, s: real, n: real)
    requires n > 0.0 && lo * n <= s <= hi * n
    ensures lo <= s / n <= hi
  {
    var q := s / n;
    assert q * n == s;
    assert (q - lo) * n == s - lo * n;
    assert (hi - q) * n == hi * n - s;
  }

  /** A `null` criterion drags its average down: one null and one 4 average to 2. */
  lemma NullCountsAsZero(a: Rating, b: Rating)
    requires a.criteria[1] == Null && b.criteria[1] == Score(4.0)
    ensures CritAverage([a, b], 1) == Some(2.0)
  {
    assert [a, b][..1] == [a];
    assert [a][..0] == [];
    assert CritSum([a], 1) == 0.0 && CritCount([a], 1) == 1;
    assert CritSum([a, b], 1) == 4.0 && CritCount([a, b], 1) == 2;
  }

  /** The result of getPerformanceAnalysis; `criteriaAverages` is empty for the `{}` of no ratings. */
  datatype Analysis = Analysis(averageWeightedRating: real, totalRatings: nat, criteriaAverages: seq<Option<real>>)

  /**
   * getPerformanceAnalysis (ratings.service.ts:159-303): one pass over the
   * records that adds each weighted rating and tallies each criterion.
   */
  method GetPerformanceAnalysis(rs: seq<Rating>) returns (r: Analysis)
    ensures |rs| == 0 ==> r == Analysis(0.0, 0, [])
    ensures |rs| > 0 ==>
      r.averageWeightedRating == AverageRating(rs) && r.totalRatings == |rs|
      && |r.criteriaAverages| == 6
      && forall k :: 0 <= k < 6 ==> r.criteriaAverages[k] == CritAverage(rs, k)
  {
    if |rs| == 0 {
      return Analysis(0.0, 0, []);
    }
    var sums: seq<real> := [0.0, 0.0, 0.0, 0.0, 0.0, 0.0];
    var counts: seq<nat> := [0, 0, 0, 0, 0, 0];
    var totalWeightedRating := 0.0;
    var j := 0;
    while j < |rs|
      invariant 0 <= j <= |rs|
      invariant totalWeightedRating == SumWeighted(rs[..j])
      invariant |sums| == 6 && |counts| == 6
      invariant forall k :: 0 <= k < 6 ==> sums[k] == CritSum(rs[..j], k) && counts[k] == CritCount(rs[..j], k)
    {
      var record := rs[j];
      assert rs[..j + 1][..j] == rs[..j];
      var w := CalculateWeightedRating(record.criteria);
      totalWeightedRating := totalWeightedRating + w;
      sums := seq(6, k requires 0 <= k < 6 =>
        sums[k] + (if record.criteria[k].Score? then record.criteria[k].value else 0.0));
      counts := seq(6, k requires 0 <= k < 6 => counts[k] + (if record.criteria[k].Absent? then 0 else 1));
      j := j + 1;
    }
    assert rs[..|rs|] == rs;
    var averages := seq(6, k requires 0 <= k < 6 =>
      if counts[k] != 0 then Some(sums[k] / (counts[k] as real)) else None);
    r := Analysis(totalWeightedRating / (|rs| as real), |rs|, averages);
  }

  /** The rating request; `raterRole` and `ratedRole` are validated against 'owner' and 'freelancer'. */
  datatype RatingRequest = RatingRequest(
    raterId: int,
    ratedId: int,
    raterRole: string,
    ratedRole: string,
    projectId: int,
    criteria: Criteria,
    comment: string)

  const DtoRoles: seq<string> := ["owner", "freelancer"]

  /**
   * The checks of createRating as written (ratings.service.ts:44-84): the
   * project check and the first role check run only for the rater role
   * 'Owner', and the roles are searched for lower-case 'freelancer' and
   * 'owner'. `project` is the project's row, `rated` the rated user's.
   */
  function ChecksAsWritten(raterRole: string, project: Option<Projects.Project>, rated: Option<Users.User>): (r: Result<()>)
    ensures raterRole == "owner" && rated.Some? ==> r == Ok(())
    ensures raterRole == "freelancer" && rated.Some? ==> (r.Ok? <==> "owner" in rated.value.roles)
    ensures rated.None? && raterRole != "Owner" ==> r == Err(NotFound("User not found"))
  {
    if raterRole == "Owner" && project.None? then Err(TypeError("Cannot read properties of null (reading 'status')"))
    else if raterRole == "Owner" && project.value.status == "completed" then Err(BadRequest("You cannot rate after the project has finished"))
    else if rated.None? then Err(NotFound("User not found"))
    else if raterRole == "Owner" && "freelancer" !in rated.value.roles then Err(BadRequest("An owner may rate only a freelancer"))
    else if raterRole == "freelancer" && "owner" !in rated.value.roles then Err(BadRequest("A freelancer may rate only an owner"))
    else Ok(())
  }

  /** Roles as the system stores them: registration and the role toggle write only these. */
  predicate SystemRoles(roles: seq<string>)
  {
    forall i :: 0 <= i < |roles| ==> roles[i] in ["Freelancer", "Owner"]
  }

  /**
   * As written, a rater role that passes the request validation never
   * triggers the completed-project check, and a freelancer can never rate
   * a user whose roles the system wrote, even one holding 'Owner'.
   */
  lemma ChecksAsWrittenMissStoredRoles(raterRole: string, project: Projects.Project, rated: Users.User)
    requires raterRole in DtoRoles && SystemRoles(rated.roles)
    ensures raterRole == "owner" ==> ChecksAsWritten(raterRole, Some(project), Some(rated)) == Ok(())
    ensures raterRole == "freelancer" ==> ChecksAsWritten(raterRole, Some(project), Some(rated)).Err?
  {
  }

  /** Role membership ignoring ASCII case. */
  predicate HasRoleIgnoringCase(roles: seq<string>, role: string)
  {
    exists i :: 0 <= i < |roles| && Lower(roles[i]) == role
  }

  /**
   * The checks as evidently intended: the rater role and the stored roles
   * are compared without regard to case.
   */
  function Checks(raterRole: string, project: Option<Projects.Project>, rated: Option<Users.User>): (r: Result<()>)
    ensures Lower(raterRole) == "owner" && project.Some? && project.value.status == "completed" ==> r.Err?
    ensures r.Ok? ==> rated.Some?
    ensures r.Ok? && Lower(raterRole) == "owner" ==>
      project.Some? && project.value.status != "completed" && HasRoleIgnoringCase(rated.value.roles, "freelancer")
    ensures r.Ok? && Lower(raterRole) == "freelancer" ==> HasRoleIgnoringCase(rated.value.roles, "owner")
    ensures (Lower(raterRole) == "owner" && project.Some? && project.value.status != "completed" && rated.Some?
             && HasRoleIgnoringCase(rated.value.roles, "freelancer")) ==> r == Ok(())
    ensures Lower(raterRole) == "freelancer" && rated.Some? && HasRoleIgnoringCase(rated.value.roles, "owner") ==> r == Ok(())
  {
    var owner := Lower(raterRole) == "owner";
    if owner && project.None? then Err(NotFound("Project not found"))
    else if owner && project.value.status == "completed" then Err(BadRequest("You cannot rate after the project has finished"))
    else if rated.None? then Err(NotFound("User not found"))
    else if owner && !HasRoleIgnoringCase(rated.value.roles, "freelancer") then Err(BadRequest("An owner may rate only a freelancer"))
    else if Lower(raterRole) == "freelancer" && !HasRoleIgnoringCase(rated.value.roles, "owner")
    then Err(BadRequest("A freelancer may rate only an owner"))
    else Ok(())
  }

  /** With the intended checks a freelancer may rate a user holding the stored role 'Owner'. */
  lemma FreelancerRatesStoredOwner(project: Option<Projects.Project>, rated: Users.User)
    requires "Owner" in rated.roles
    ensures Checks("freelancer", project, Some(rated)) == Ok(())
  {
    var i :| 0 <= i < |rated.roles| && rated.roles[i] == "Owner";
    LowerOfOwner();
    LowerOfFreelancer();
    assert Lower(rated.roles[i]) == "owner";
    assert HasRoleIgnoringCase(rated.roles, "owner");
  }

  lemma LowerOfFreelancer()
    ensures Lower("freelancer") == "freelancer"
  {
    LowerKeepsLowerCase("freelancer");
  }

  lemma LowerOfOwner()
    ensures Lower("Owner") == "owner"
  {
    var w := "Owner";
    assert w[1..] == "wner";
    LowerKeepsLowerCase("wner");
    assert Lower(w) == [LowerChar('O')] + Lower("wner");
  }

  class RatingService {
    const users: Users.UsersService
    const projects: Projects.ProjectService
    var ratings: seq<Rating>

    constructor(users: Users.UsersService, projects: Projects.ProjectService)
      ensures this.users == users && this.projects == projects && ratings == []
    {
      this.users := users;
      this.projects := projects;
      ratings := [];
    }

    function ProjectOf(req: RatingRequest): (r: Option<Projects.Project>)
      reads projects
      ensures r.Some? <==> 0 <= req.projectId < |projects.projects|
      ensures r.Some? ==> r.value == projects.projects[req.projectId]
    {
      if 0 <= req.projectId < |projects.projects| then Some(projects.projects[req.projectId]) else None
    }

    /** createRating with the intended checks: an admitted request is appended as given, links included. */
    method CreateRating(req: RatingRequest) returns (r: Result<Rating>)
      modifies this
      ensures var c := Checks(req.raterRole, ProjectOf(req), users.Find(req.ratedId));
        if c.Err? then r == Err(c.error) && ratings == old(ratings)
        else ratings == old(ratings) + [Record(req)] && r == Ok(Record(req))
      ensures r.Ok? ==> RatingsFor(req.ratedId) == [Record(req)] + old(RatingsFor(req.ratedId))
    {
      var c := Checks(req.raterRole, ProjectOf(req), users.Find(req.ratedId));
      if c.Err? {
        return Err(c.error);
      }
      r := Ok(Record(req));
      ratings := ratings + [Record(req)];
      AppendLinkedComesFirst(old(ratings), Record(req), req.ratedId);
    }

    /**
     * createRating as written (ratings.service.ts:44-88): `create(dto)`
     * keeps only the entity's own properties, and `raterId`/`ratedId` are
     * not among them, so the row is stored without its links and no
     * user's list of received ratings ever shows it.
     */
    method CreateRatingAsWritten(req: RatingRequest) returns (r: Result<Rating>)
      modifies this
      ensures var c := ChecksAsWritten(req.raterRole, ProjectOf(req), users.Find(req.ratedId));
        if c.Err? then r == Err(c.error) && ratings == old(ratings)
        else ratings == old(ratings) + [RecordAsWritten(req)] && r == Ok(RecordAsWritten(req))
      ensures forall u :: RatingsFor(u) == old(RatingsFor(u))
    {
      var c := ChecksAsWritten(req.raterRole, ProjectOf(req), users.Find(req.ratedId));
      if c.Err? {
        return Err(c.error);
      }
      r := Ok(RecordAsWritten(req));
      ratings := ratings + [RecordAsWritten(req)];
      forall u
        ensures RatingsFor(u) == old(RatingsFor(u))
      {
        AppendUnlinkedIsInvisible(old(ratings), RecordAsWritten(req), u);
      }
    }

    /**
     * getRatingsForUser (ratings.service.ts:94-100): the ratings whose rated
     * link is the user, each once, newest first.
     */
    function RatingsFor(userId: int): (r: seq<Rating>)
      reads this
      ensures |r| == |ReceivedIds(ratings, userId)|
      ensures forall i :: 0 <= i < |r| ==> r[i] == ratings[ReceivedIds(ratings, userId)[i]] && r[i].ratedId == Some(userId)
    {
      RatingsAt(ratings, ReceivedIds(ratings, userId))
    }
  }

  /** The stored rating of an admitted request, with both links set. */
  function Record(req: RatingRequest): (r: Rating)
    ensures r.raterId == Some(req.raterId) && r.ratedId == Some(req.ratedId)
    ensures r.criteria == req.criteria && r.projectId == req.projectId
  {
    Rating(Some(req.raterId), Some(req.ratedId), req.raterRole, req.ratedRole, req.projectId, req.criteria, req.comment)
  }

  /** The row `create(dto)` builds: every column of the request, and no link. */
  function RecordAsWritten(req: RatingRequest): (r: Rating)
    ensures r.raterId.None? && r.ratedId.None?
    ensures r == Record(req).(raterId := None, ratedId := None)
  {
    Rating(None, None, req.raterRole, req.ratedRole, req.projectId, req.criteria, req.comment)
  }

  /**
   * The positions of the ratings the user received, newest first
   * (`createdAt DESC`; the table is in creation order).
   */
  function ReceivedIds(rs: seq<Rating>, userId: int): (r: seq<nat>)
    ensures forall i :: 0 <= i < |r| ==> r[i] < |rs| && rs[r[i]].ratedId == Some(userId)
    ensures forall k :: 0 <= k < |rs| && rs[k].ratedId == Some(userId) ==> k in r
    ensures forall i, j :: 0 <= i < j < |r| ==> r[i] > r[j]
    decreases |rs|
  {
    if |rs| == 0 then []
    else
      var rest := ReceivedIds(rs[..|rs| - 1], userId);
      if rs[|rs| - 1].ratedId == Some(userId) then [|rs| - 1] + rest else rest
  }

  /** The ratings at the given positions, in the order given. */
  function RatingsAt(rs: seq<Rating>, ids: seq<nat>): (r: seq<Rating>)
    requires forall i :: 0 <= i < |ids| ==> ids[i] < |rs|
    ensures |r| == |ids|
    ensures forall i :: 0 <= i < |ids| ==> r[i] == rs[ids[i]]
  {
    if |ids| == 0 then [] else [rs[ids[0]]] + RatingsAt(rs, ids[1..])
  }

  /** The ratings at positions below `|rs|` are the same in any extension of `rs`. */
  lemma {:induction false} RatingsAtPrefix(rs: seq<Rating>, x: Rating, ids: seq<nat>)
    requires forall i :: 0 <= i < |ids| ==> ids[i] < |rs|
    ensures RatingsAt(rs + [x], ids) == RatingsAt(rs, ids)
  {
    if |ids| > 0 {
      RatingsAtPrefix(rs, x, ids[1..]);
    }
  }

  /** A row stored without its rated link is in nobody's list. */
  lemma AppendUnlinkedIsInvisible(rs: seq<Rating>, x: Rating, userId: int)
    requires x.ratedId.None?
    ensures RatingsAt(rs + [x], ReceivedIds(rs + [x], userId)) == RatingsAt(rs, ReceivedIds(rs, userId))
  {
    assert (rs + [x])[..|rs|] == rs;
    RatingsAtPrefix(rs, x, ReceivedIds(rs, userId));
  }

  /** A row linked to the user heads that user's list. */
  lemma AppendLinkedComesFirst(rs: seq<Rating>, x: Rating, userId: int)
    requires x.ratedId == Some(userId)
    ensures RatingsAt(rs + [x], ReceivedIds(rs + [x], userId)) == [x] + RatingsAt(rs, ReceivedIds(rs, userId))
  {
    assert (rs + [x])[..|rs|] == rs;
    var ids := ReceivedIds(rs, userId);
    assert ReceivedIds(rs + [x], userId) == [|rs|] + ids;
    assert ([|rs|] + ids)[1..] == ids;
    RatingsAtPrefix(rs, x, ids);
  }
}
