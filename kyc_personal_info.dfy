/**
 * Personal profiles: a unique username with suggestions when it is
 * taken, a job with its list of skills, and the rule that changing an
 * identifying field voids the identity verification.
 */
module KycPersonalInfo {
  import opened Common
  import KycVerification

  /** A row of kyc_personal_info (kyc-personal-info.entity.ts:14-59), without its uuid and timestamps. */
  datatype Profile = Profile(
    userId: int,
    firstName: string,
    lastName: string,
    username: string,
    profileImage: string,
    dateOfBirth: int,
    description: string,
    job: Option<nat>,
    city: string,
    country: string)

  /** A row of Jobs with its loaded skills (skill ids); `None` when the relation is not an array. */
  datatype Job = Job(name: string, skills: Option<seq<nat>>)

  /** The body of a profile creation. */
  datatype ProfileInput = ProfileInput(
    firstName: string,
    lastName: string,
    username: string,
    dateOfBirth: int,
    description: string,
    profileImage: string,
    jobName: string,
    city: string,
    country: string)

  /** The body of a profile update: every field optional. */
  datatype ProfilePatch = ProfilePatch(
    firstName: Option<string>,
    lastName: Option<string>,
    username: Option<string>,
    dateOfBirth: Option<int>,
    description: Option<string>,
    profileImage: Option<string>,
    city: Option<string>,
    country: Option<string>,
    jobName: Option<string>)

  // ---------------------------------------------------------------------------
  // Usernames
  // ---------------------------------------------------------------------------

  /** findOne by username: the first profile holding it. */
  function FirstWithUsername(profiles: seq<Profile>, name: string): (r: Option<nat>)
    ensures r.Some? ==> r.value < |profiles| && profiles[r.value].username == name
    ensures r.Some? ==> forall j :: 0 <= j < r.value ==> profiles[j].username != name
    ensures r.None? <==> forall j :: 0 <= j < |profiles| ==> profiles[j].username != name
  {
    if |profiles| == 0 then None
    else if profiles[0].username == name then Some(0)
    else
      match FirstWithUsername(profiles[1..], name)
      case None => None
      case Some(k) => Some(k + 1)
  }

  predicate Taken(profiles: seq<Profile>, name: string)
  {
    FirstWithUsername(profiles, name).Some?
  }

  /** The names tried, in order: the username followed by 1, 2 and 3. */
  function Candidates(username: string): seq<string>
  {
    [username + DecimalString(1), username + DecimalString(2), username + DecimalString(3)]
  }

  /** The names that are not taken, order kept. */
  function Untaken(profiles: seq<Profile>, names: seq<string>): (r: seq<string>)
    ensures |r| <= |names|
    ensures forall x :: x in r <==> x in names && !Taken(profiles, x)
  {
    if |names| == 0 then []
    else if Taken(profiles, names[0]) then Untaken(profiles, names[1..])
    else [names[0]] + Untaken(profiles, names[1..])
  }

  /** Keeping the untaken names of a list without repeats gives a list without repeats. */
  lemma {:induction false} UntakenDistinct(profiles: seq<Profile>, names: seq<string>)
    requires forall a, b :: 0 <= a < b < |names| ==> names[a] != names[b]
    ensures forall a, b :: 0 <= a < b < |Untaken(profiles, names)| ==> Untaken(profiles, names)[a] != Untaken(profiles, names)[b]
    decreases |names|
  {
    if |names| > 0 {
      var tail := names[1..];
      assert forall a, b :: 0 <= a < b < |tail| ==> tail[a] == names[a + 1] && tail[b] == names[b + 1];
      UntakenDistinct(profiles, tail);
      assert names[0] !in tail;
      var rest := Untaken(profiles, tail);
      assert forall a, b :: 0 <= a < b < |rest| ==> rest[a] != rest[b];
      var r := Untaken(profiles, names);
      if !Taken(profiles, names[0]) {
        assert r == [names[0]] + rest;
        forall a, b | 0 <= a < b < |r|
          ensures r[a] != r[b]
        {
          assert r[b] == rest[b - 1];
          if a > 0 {
            assert r[a] == rest[a - 1];
            assert 0 <= a - 1 < b - 1 < |rest|;
            assert rest[a - 1] != rest[b - 1];
          } else {
            assert rest[b - 1] in rest;
            assert names[0] !in rest;
          }
        }
      } else {
        assert r == rest;
      }
    }
  }

  /** One step of `Untaken`. */
  lemma UntakenStep(profiles: seq<Profile>, names: seq<string>)
    requires |names| > 0
    ensures Untaken(profiles, names)
      == (if Taken(profiles, names[0]) then [] else [names[0]]) + Untaken(profiles, names[1..])
  {
  }

  /** The suggestion of round `i` of the loop is the `i`-th candidate. */
  lemma CandidateAt(username: string, i: int)
    requires 1 <= i <= 3
    ensures username + DecimalString(i) == Candidates(username)[i - 1]
  {
  }

  /** The suggestions are at most three, distinct, untaken, and each is the username with 1, 2 or 3 appended. */
  lemma SuggestionsAreFreshAndDistinct(profiles: seq<Profile>, username: string)
    ensures var r := Untaken(profiles, Candidates(username));
      |r| <= 3
      && (forall x :: x in r ==> !Taken(profiles, x) && x in Candidates(username))
      && (forall a, b :: 0 <= a < b < |r| ==> r[a] != r[b])
  {
    var c := Candidates(username);
    assert DecimalString(1) == "1" && DecimalString(2) == "2" && DecimalString(3) == "3";
    assert c[0][|username|] == '1' && c[1][|username|] == '2' && c[2][|username|] == '3';
    assert forall a, b :: 0 <= a < b < |c| ==> c[a][|username|] != c[b][|username|];
    UntakenDistinct(profiles, c);
  }

  // ---------------------------------------------------------------------------
  // Skills
  // ---------------------------------------------------------------------------

  /** findOne by name in the Skills table: the first skill with that name. */
  function SkillId(table: seq<string>, name: string): (r: Option<nat>)
    ensures r.Some? ==> r.value < |table| && table[r.value] == name
    ensures r.Some? ==> forall j :: 0 <= j < r.value ==> table[j] != name
    ensures r.None? <==> name !in table
  {
    if |table| == 0 then None
    else if table[0] == name then Some(0)
    else
      match SkillId(table[1..], name)
      case None => None
      case Some(k) => Some(k + 1)
  }

  /**
   * The skill-entity loop (kyc-personal-info.service.ts:109-120): each name
   * is looked up and created when missing, so a later occurrence of the
   * same name finds the skill just created. Returns the final table and
   * the ids in request order.
   */
  function Resolve(table: seq<string>, names: seq<string>): (r: (seq<string>, seq<nat>))
    ensures table <= r.0
    ensures |r.1| == |names|
  {
    ResolveFrom(table, names, 0)
  }

  /** `Resolve` of the names from position `i` on. */
  function ResolveFrom(table: seq<string>, names: seq<string>, i: nat): (r: (seq<string>, seq<nat>))
    requires i <= |names|
    ensures table <= r.0
    ensures |r.1| == |names| - i
    decreases |names| - i
  {
    if i == |names| then (table, [])
    else
      var found := SkillId(table, names[i]);
      var t1 := if found.Some? then table else table + [names[i]];
      var id := if found.Some? then found.value else |table|;
      var rest := ResolveFrom(t1, names, i + 1);
      (rest.0, [id] + rest.1)
  }

  /** Each requested name resolves to a skill of that name. */
  lemma {:induction false} ResolveNames(table: seq<string>, names: seq<string>, i: nat)
    requires i <= |names|
    ensures forall j :: 0 <= j < |names| - i ==>
      ResolveFrom(table, names, i).1[j] < |ResolveFrom(table, names, i).0|
      && ResolveFrom(table, names, i).0[ResolveFrom(table, names, i).1[j]] == names[i + j]
    decreases |names| - i
  {
    if i < |names| {
      var found := SkillId(table, names[i]);
      var t1 := if found.Some? then table else table + [names[i]];
      var id := if found.Some? then found.value else |table|;
      ResolveNames(t1, names, i + 1);
      var r := ResolveFrom(table, names, i);
      var rest := ResolveFrom(t1, names, i + 1);
      assert r == (rest.0, [id] + rest.1);
      assert id < |t1| && t1[id] == names[i];
      assert t1 <= rest.0;
      forall j | 0 <= j < |names| - i
        ensures r.1[j] < |r.0| && r.0[r.1[j]] == names[i + j]
      {
        if j > 0 {
          assert r.1[j] == rest.1[j - 1] && i + j == (i + 1) + (j - 1);
        } else {
          assert r.1[0] == id && rest.0[id] == t1[id];
        }
      }
    }
  }

  /** The table only grows by requested names. */
  lemma {:induction false} ResolveAddsOnlyRequested(table: seq<string>, names: seq<string>, i: nat)
    requires i <= |names|
    ensures forall x :: x in ResolveFrom(table, names, i).0 ==> x in table || x in names[i..]
    decreases |names| - i
  {
    if i < |names| {
      var found := SkillId(table, names[i]);
      var t1 := if found.Some? then table else table + [names[i]];
      ResolveAddsOnlyRequested(t1, names, i + 1);
      assert ResolveFrom(table, names, i).0 == ResolveFrom(t1, names, i + 1).0;
      assert names[i..] == [names[i]] + names[i + 1..];
    }
  }

  lemma SeqAssoc<T>(a: seq<T>, b: seq<T>, c: seq<T>)
    ensures a + (b + c) == (a + b) + c
  {
  }

  /** The resolved skills the job does not have yet (lines 122-127), order kept. */
  function NewSkills(current: seq<nat>, ids: seq<nat>): (r: seq<nat>)
    ensures |r| <= |ids|
    ensures forall x :: x in r <==> x in ids && x !in current
  {
    if |ids| == 0 then []
    else if ids[0] in current then NewSkills(current, ids[1..])
    else [ids[0]] + NewSkills(current, ids[1..])
  }

  /** The position in a skill list of the first skill with that name (`findIndex`). */
  function SkillIndex(table: seq<string>, list: seq<nat>, name: string): (r: Option<nat>)
    ensures r.Some? ==> r.value < |list| && list[r.value] < |table| && table[list[r.value]] == name
    ensures r.Some? ==> forall k :: 0 <= k < r.value ==> !(list[k] < |table| && table[list[k]] == name)
    ensures r.None? <==> forall k :: 0 <= k < |list| ==> !(list[k] < |table| && table[list[k]] == name)
  {
    if |list| == 0 then None
    else if list[0] < |table| && table[list[0]] == name then Some(0)
    else
      match SkillIndex(table, list[1..], name)
      case None => None
      case Some(k) => Some(k + 1)
  }

  /** `splice(k, 1)`: the element at `k` removed, the others in order. */
  function RemoveAt(list: seq<nat>, k: nat): (r: seq<nat>)
    requires k < |list|
    ensures |r| == |list| - 1
    ensures forall j :: 0 <= j < k ==> r[j] == list[j]
    ensures forall j :: k <= j < |r| ==> r[j] == list[j + 1]
  {
    list[..k] + list[k + 1..]
  }

  /** Removing by name takes out one occurrence only: a skill listed twice is still listed afterwards. */
  lemma RemovingKeepsLaterCopies(table: seq<string>, list: seq<nat>, name: string, j: nat)
    requires SkillIndex(table, list, name).Some?
    requires SkillIndex(table, list, name).value < j < |list| && list[j] < |table| && table[list[j]] == name
    ensures SkillIndex(table, RemoveAt(list, SkillIndex(table, list, name).value), name).Some?
  {
    var k := SkillIndex(table, list, name).value;
    var r := RemoveAt(list, k);
    assert r[j - 1] == list[j];
  }

  // ---------------------------------------------------------------------------
  // Profile updates
  // ---------------------------------------------------------------------------

  /**
   * The sensitive-field test (kyc-personal-info.service.ts:173-196): some
   * sensitive field is supplied and differs from the stored one. The date
   * of birth is compared as a `Date` object, by reference, so a supplied date
   * always differs; the job name is compared with a property the profile
   * does not have, so a supplied job name always differs too.
   */
  predicate SensitiveChange(p: Profile, patch: ProfilePatch)
    ensures MergeProfile(p, patch) != p ==> SensitiveChange(p, patch)
    ensures patch.dateOfBirth.Some? || patch.jobName.Some? ==> SensitiveChange(p, patch)
  {
    (patch.firstName.Some? && patch.firstName.value != p.firstName)
    || (patch.lastName.Some? && patch.lastName.value != p.lastName)
    || (patch.username.Some? && patch.username.value != p.username)
    || patch.dateOfBirth.Some?
    || (patch.description.Some? && patch.description.value != p.description)
    || (patch.profileImage.Some? && patch.profileImage.value != p.profileImage)
    || (patch.city.Some? && patch.city.value != p.city)
    || (patch.country.Some? && patch.country.value != p.country)
    || patch.jobName.Some?
  }

  /** `{ ...info, ...dto }` as it is saved: supplied fields win; the job name is not a column and the job link is kept. */
  function MergeProfile(p: Profile, patch: ProfilePatch): (r: Profile)
    ensures r.userId == p.userId && r.job == p.job
    ensures r.username == (if patch.username.Some? then patch.username.value else p.username)
  {
    Profile(
      p.userId,
      if patch.firstName.Some? then patch.firstName.value else p.firstName,
      if patch.lastName.Some? then patch.lastName.value else p.lastName,
      if patch.username.Some? then patch.username.value else p.username,
      if patch.profileImage.Some? then patch.profileImage.value else p.profileImage,
      if patch.dateOfBirth.Some? then patch.dateOfBirth.value else p.dateOfBirth,
      if patch.description.Some? then patch.description.value else p.description,
      p.job,
      if patch.city.Some? then patch.city.value else p.city,
      if patch.country.Some? then patch.country.value else p.country)
  }

  /** A patch that restates stored text fields and supplies no date or job name changes nothing and voids nothing. */
  lemma RestatingIsNoChange(p: Profile)
    ensures var patch := ProfilePatch(Some(p.firstName), Some(p.lastName), Some(p.username), None,
                                      Some(p.description), Some(p.profileImage), Some(p.city), Some(p.country), None);
      !SensitiveChange(p, patch) && MergeProfile(p, patch) == p
  {
  }

  /**
   * The username clash test as written (lines 158-170): the lookup's where
   * clause is `{ username: dto.username }`, and with no username supplied
   * the condition is dropped, so the first profile of the table is found.
   */
  function ClashAsWritten(profiles: seq<Profile>, self: nat, username: Option<string>): (r: bool)
    ensures username.Some? ==>
      (r <==> (FirstWithUsername(profiles, username.value).Some?
               && FirstWithUsername(profiles, username.value).value != self))
    ensures username.None? ==> (r <==> |profiles| > 0 && self != 0)
  {
    var found := if username.Some? then FirstWithUsername(profiles, username.value)
                 else if |profiles| > 0 then Some(0) else None;
    found.Some? && found.value != self
  }

  /** The intended clash test: only a supplied username held by another profile clashes. */
  function Clash(profiles: seq<Profile>, self: nat, username: Option<string>): (r: bool)
    ensures r <==> username.Some? && FirstWithUsername(profiles, username.value).Some?
                   && FirstWithUsername(profiles, username.value).value != self
    ensures r ==> ClashAsWritten(profiles, self, username)
  {
    username.Some? && FirstWithUsername(profiles, username.value).Some?
    && FirstWithUsername(profiles, username.value).value != self
  }

  /** The text `${undefined}` that the suggestions are built from when no username is supplied. */
  function SuggestionBase(username: Option<string>): string
  {
    if username.Some? then username.value else "undefined"
  }

  /** Two profiles, an update of the second one's city only: as written it is refused as a username clash. */
  lemma CityOnlyUpdateClashesAsWritten(a: Profile, b: Profile)
    requires a.username != b.username
    ensures ClashAsWritten([a, b], 1, None)
    ensures !Clash([a, b], 1, None)
  {
  }

  class KycPersonalInfoService {
    const verification: KycVerification.KycVerificationService
    /** kyc_personal_info; a profile's id is its position. */
    var profiles: seq<Profile>
    /** Jobs; a job's id is its position. */
    var jobs: seq<Job>
    /** Skills, by name; a skill's id is its position. */
    var skills: seq<string>

    constructor(verification: KycVerification.KycVerificationService)
      ensures this.verification == verification
      ensures profiles == [] && jobs == [] && skills == []
    {
      this.verification := verification;
      profiles := [];
      jobs := [];
      skills := [];
    }

    /** generateUsernameSuggestions (kyc-personal-info.service.ts:28-41). */
    method GenerateUsernameSuggestions(username: string) returns (r: seq<string>)
      ensures r == Untaken(profiles, Candidates(username))
    {
      var c := Candidates(username);
      r := [];
      var i := 1;
      while i <= 3
        invariant 1 <= i <= 4
        invariant r + Untaken(profiles, c[i - 1..]) == Untaken(profiles, c)
      {
        var suggestion := username + DecimalString(i);
        CandidateAt(username, i);
        UntakenStep(profiles, c[i - 1..]);
        assert c[i - 1..][1..] == c[i..];
        if FirstWithUsername(profiles, suggestion).None? {
          SeqAssoc(r, [suggestion], Untaken(profiles, c[i..]));
          r := r + [suggestion];
        }
        i := i + 1;
      }
      assert r + [] == r;
    }

    /** The first profile of a user (the unique user column). */
    function ProfileOfUser(userId: int): (r: Option<nat>)
      reads this
      ensures r.Some? ==> r.value < |profiles| && profiles[r.value].userId == userId
      ensures r.None? <==> forall j :: 0 <= j < |profiles| ==> profiles[j].userId != userId
    {
      FirstOfUser(profiles, userId)
    }

    /** getPersonalInfo (kyc-personal-info.service.ts:139-148). */
    function GetPersonalInfo(userId: int): (r: Result<nat>)
      reads this
      ensures r.Ok? <==> ProfileOfUser(userId).Some?
      ensures r.Ok? ==> r.value == ProfileOfUser(userId).value && profiles[r.value].userId == userId
      ensures r.Err? ==> r.error == NotFound("Personal information not found")
    {
      match ProfileOfUser(userId)
      case None => Err(NotFound("Personal information not found"))
      case Some(k) => Ok(k)
    }

    /**
     * createPersonalInfo (kyc-personal-info.service.ts:43-82): a taken
     * username is refused with the suggestions; otherwise the job is found
     * by name or created and saved, and the profile is saved linked to the
     * user and the job. The user column is unique, so a second profile for
     * the same user is refused by the store, after the job was saved.
     */
    method CreatePersonalInfo(userId: int, dto: ProfileInput) returns (r: Result<nat>, suggestions: seq<string>)
      modifies this
      ensures Taken(old(profiles), dto.username) ==>
        r == Err(BadRequest("Username already exists; choose one of the suggestions"))
        && suggestions == Untaken(old(profiles), Candidates(dto.username))
        && profiles == old(profiles) && jobs == old(jobs) && skills == old(skills)
      ensures !Taken(old(profiles), dto.username) ==>
        suggestions == [] && skills == old(skills)
        && (FirstJobNamed(old(jobs), dto.jobName).None? ==> jobs == old(jobs) + [Job(dto.jobName, Some([]))])
        && (FirstJobNamed(old(jobs), dto.jobName).Some? ==> jobs == old(jobs))
      ensures !Taken(old(profiles), dto.username) && old(ProfileOfUser(userId)).Some? ==>
        r == Err(Failure("Duplicate entry for the user's personal information")) && profiles == old(profiles)
      ensures !Taken(old(profiles), dto.username) && old(ProfileOfUser(userId)).None? ==>
        var j := FirstJobNamed(jobs, dto.jobName);
        j.Some?
        && profiles == old(profiles) + [Profile(userId, dto.firstName, dto.lastName, dto.username, dto.profileImage,
                                                dto.dateOfBirth, dto.description, j, dto.city, dto.country)]
        && r == Ok(|profiles| - 1)
    {
      suggestions := [];
      if FirstWithUsername(profiles, dto.username).Some? {
        suggestions := GenerateUsernameSuggestions(dto.username);
        return Err(BadRequest("Username already exists; choose one of the suggestions")), suggestions;
      }
      var j := FirstJobNamed(jobs, dto.jobName);
      if j.None? {
        jobs := jobs + [Job(dto.jobName, Some([]))];
        FirstJobNamedAppended(old(jobs), dto.jobName, Some([]));
        j := FirstJobNamed(jobs, dto.jobName);
      }
      if ProfileOfUser(userId).Some? {
        return Err(Failure("Duplicate entry for the user's personal information")), suggestions;
      }
      profiles := profiles + [Profile(userId, dto.firstName, dto.lastName, dto.username, dto.profileImage,
                                      dto.dateOfBirth, dto.description, j, dto.city, dto.country)];
      r := Ok(|profiles| - 1);
    }

    /** The job a profile links to, when the link leads to a row. */
    function JobOf(profileId: nat): (r: Option<nat>)
      reads this
      ensures r.Some? ==> profileId < |profiles| && r.value < |jobs| && profiles[profileId].job == Some(r.value)
    {
      if profileId < |profiles| && profiles[profileId].job.Some? && profiles[profileId].job.value < |jobs|
      then profiles[profileId].job else None
    }

    /** The skill-entity loop of addSkillsToPersonalInfo (kyc-personal-info.service.ts:109-120). */
    method ResolveSkills(names: seq<string>) returns (ids: seq<nat>)
      modifies this
      ensures skills == Resolve(old(skills), names).0 && ids == Resolve(old(skills), names).1
      ensures profiles == old(profiles) && jobs == old(jobs)
    {
      ghost var final := ResolveFrom(skills, names, 0);
      ids := [];
      var i := 0;
      while i < |names|
        invariant 0 <= i <= |names|
        invariant ResolveFrom(skills, names, i).0 == final.0
        invariant ids + ResolveFrom(skills, names, i).1 == final.1
        invariant profiles == old(profiles) && jobs == old(jobs)
      {
        var found := SkillId(skills, names[i]);
        var id: nat;
        if found.None? {
          id := |skills|;
          skills := skills + [names[i]];
        } else {
          id := found.value;
        }
        SeqAssoc(ids, [id], ResolveFrom(skills, names, i + 1).1);
        ids := ids + [id];
        i := i + 1;
      }
      assert ids + [] == ids;
    }

    /**
     * addSkillsToPersonalInfo (kyc-personal-info.service.ts:84-137): the
     * names are resolved to skills, creating the missing ones, and those
     * not yet on the job are appended to its list, which is saved only
     * when something was added. The answer is the job as the profile holds it.
     */
    method AddSkillsToPersonalInfo(profileId: nat, names: seq<string>) returns (r: Result<Job>)
      modifies this
      ensures profileId >= old(|profiles|) ==>
        r == Err(NotFound("Personal profile not found")) && unchanged(this)
      ensures profileId < old(|profiles|) && old(JobOf(profileId)).None? ==>
        r == Err(NotFound("Job linked to the profile not found")) && unchanged(this)
      ensures old(JobOf(profileId)).Some? ==>
        var j := old(JobOf(profileId)).value;
        var current := if old(jobs[j].skills).Some? then old(jobs[j].skills).value else [];
        var resolved := Resolve(old(skills), names);
        var added := NewSkills(current, resolved.1);
        skills == resolved.0 && profiles == old(profiles)
        && r == Ok(Job(old(jobs[j].name), Some(current + added)))
        && (|added| > 0 ==> jobs == old(jobs)[j := Job(old(jobs[j].name), Some(current + added))])
        && (|added| == 0 ==> jobs == old(jobs))
    {
      if profileId >= |profiles| {
        return Err(NotFound("Personal profile not found"));
      }
      var jobId := JobOf(profileId);
      if jobId.None? {
        return Err(NotFound("Job linked to the profile not found"));
      }
      var j := jobId.value;
      var job := jobs[j];
      var current := if job.skills.Some? then job.skills.value else [];
      var ids := ResolveSkills(names);
      var added := NewSkills(current, ids);
      if |added| > 0 {
        jobs := jobs[j := Job(job.name, Some(current + added))];
      }
      r := Ok(Job(job.name, Some(current + added)));
    }

    /**
     * removeSkillFromPersonalInfo (kyc-personal-info.service.ts:216-255):
     * the first skill of the job with that name is taken out of its list.
     */
    method RemoveSkillFromPersonalInfo(profileId: nat, skillName: string) returns (r: Result<Job>)
      modifies this
      ensures profileId >= old(|profiles|) ==>
        r == Err(NotFound("Personal profile not found")) && unchanged(this)
      ensures profileId < old(|profiles|) && old(JobOf(profileId)).None? ==>
        r == Err(NotFound("Job linked to the profile not found")) && unchanged(this)
      ensures old(JobOf(profileId)).Some? && old(jobs[JobOf(profileId).value].skills).None? ==>
        r == Err(BadRequest("No skills for this account")) && unchanged(this)
      ensures old(JobOf(profileId)).Some? && old(jobs[JobOf(profileId).value].skills).Some? ==>
        var j := old(JobOf(profileId)).value;
        var list := old(jobs[j].skills).value;
        var k := SkillIndex(skills, list, skillName);
        (k.None? ==> r == Err(NotFound("Skill \"" + skillName + "\" not found")) && unchanged(this))
        && (k.Some? ==>
              jobs == old(jobs)[j := Job(old(jobs[j].name), Some(RemoveAt(list, k.value)))]
              && profiles == old(profiles) && skills == old(skills)
              && r == Ok(jobs[j]))
    {
      if profileId >= |profiles| {
        return Err(NotFound("Personal profile not found"));
      }
      var jobId := JobOf(profileId);
      if jobId.None? {
        return Err(NotFound("Job linked to the profile not found"));
      }
      var j := jobId.value;
      if jobs[j].skills.None? {
        return Err(BadRequest("No skills for this account"));
      }
      var list := jobs[j].skills.value;
      var k := SkillIndex(skills, list, skillName);
      if k.None? {
        return Err(NotFound("Skill \"" + skillName + "\" not found"));
      }
      jobs := jobs[j := Job(jobs[j].name, Some(RemoveAt(list, k.value)))];
      r := Ok(jobs[j]);
    }

    /**
     * updatePersonalInfo as written (kyc-personal-info.service.ts:150-214):
     * the username clash test drops its condition when no username is
     * supplied, and the verification lookup raises NotFound when the user
     * has none, so the branch meant for that case never runs. With a
     * verification and a sensitive change, the verification is deleted; in
     * every case that gets this far the merged profile is saved.
     */
    method UpdatePersonalInfoAsWritten(userId: int, patch: ProfilePatch) returns (r: Result<Profile>, suggestions: seq<string>)
      modifies this, verification
      ensures jobs == old(jobs) && skills == old(skills)
      ensures old(ProfileOfUser(userId)).None? ==>
        r == Err(NotFound("Personal information not found")) && suggestions == []
        && profiles == old(profiles) && verification.records == old(verification.records)
      ensures old(ProfileOfUser(userId)).Some? ==>
        var k := old(ProfileOfUser(userId)).value;
        (ClashAsWritten(old(profiles), k, patch.username) ==>
           r == Err(BadRequest("Username already exists; choose one of the suggestions"))
           && suggestions == Untaken(old(profiles), Candidates(SuggestionBase(patch.username)))
           && profiles == old(profiles) && verification.records == old(verification.records))
        && (!ClashAsWritten(old(profiles), k, patch.username) && old(verification.GetVerification(userId)).Err? ==>
           r == Err(NotFound("Identity verification not found"))
           && profiles == old(profiles) && verification.records == old(verification.records))
        && (!ClashAsWritten(old(profiles), k, patch.username) && old(verification.GetVerification(userId)).Ok? ==>
           profiles == old(profiles)[k := MergeProfile(old(profiles)[k], patch)]
           && r == Ok(profiles[k])
           && verification.records == (if SensitiveChange(old(profiles)[k], patch)
                                       then KycVerification.Erase(old(verification.records), userId)
                                       else old(verification.records)))
    {
      suggestions := [];
      var info := GetPersonalInfo(userId);
      if info.Err? {
        return Err(info.error), suggestions;
      }
      var k := info.value;
      if ClashAsWritten(profiles, k, patch.username) {
        suggestions := GenerateUsernameSuggestions(SuggestionBase(patch.username));
        return Err(BadRequest("Username already exists; choose one of the suggestions")), suggestions;
      }
      var current := verification.GetVerification(userId);
      if current.Err? {
        return Err(current.error), suggestions;
      }
      if SensitiveChange(profiles[k], patch) {
        var _ := verification.DeleteVerificationAndImages(userId);
      }
      profiles := profiles[k := MergeProfile(profiles[k], patch)];
      r := Ok(profiles[k]);
    }

    /**
     * updatePersonalInfo as intended: only a supplied username can clash,
     * and a user without a verification gets the update with nothing to void.
     */
    method UpdatePersonalInfo(userId: int, patch: ProfilePatch) returns (r: Result<Profile>, suggestions: seq<string>)
      modifies this, verification
      ensures jobs == old(jobs) && skills == old(skills)
      ensures old(ProfileOfUser(userId)).None? ==>
        r == Err(NotFound("Personal information not found")) && suggestions == []
        && profiles == old(profiles) && verification.records == old(verification.records)
      ensures old(ProfileOfUser(userId)).Some? ==>
        var k := old(ProfileOfUser(userId)).value;
        (Clash(old(profiles), k, patch.username) ==>
           r == Err(BadRequest("Username already exists; choose one of the suggestions"))
           && suggestions == Untaken(old(profiles), Candidates(patch.username.value))
           && profiles == old(profiles) && verification.records == old(verification.records))
        && (!Clash(old(profiles), k, patch.username) ==>
           profiles == old(profiles)[k := MergeProfile(old(profiles)[k], patch)]
           && r == Ok(profiles[k])
           && verification.records == (if SensitiveChange(old(profiles)[k], patch)
                                       then KycVerification.Erase(old(verification.records), userId)
                                       else old(verification.records)))
    {
      suggestions := [];
      var info := GetPersonalInfo(userId);
      if info.Err? {
        return Err(info.error), suggestions;
      }
      var k := info.value;
      if Clash(profiles, k, patch.username) {
        suggestions := GenerateUsernameSuggestions(patch.username.value);
        return Err(BadRequest("Username already exists; choose one of the suggestions")), suggestions;
      }
      if SensitiveChange(profiles[k], patch) {
        EraseWithoutRecord(verification.records, userId);
        var _ := verification.DeleteVerificationAndImages(userId);
      }
      profiles := profiles[k := MergeProfile(profiles[k], patch)];
      r := Ok(profiles[k]);
    }
  }

  /** The first profile of a user. */
  function FirstOfUser(profiles: seq<Profile>, userId: int): (r: Option<nat>)
    ensures r.Some? ==> r.value < |profiles| && profiles[r.value].userId == userId
    ensures r.None? <==> forall j :: 0 <= j < |profiles| ==> profiles[j].userId != userId
  {
    if |profiles| == 0 then None
    else if profiles[0].userId == userId then Some(0)
    else
      match FirstOfUser(profiles[1..], userId)
      case None => None
      case Some(k) => Some(k + 1)
  }

  /** findOne by name in the Jobs table: the first job with that name. */
  function FirstJobNamed(jobs: seq<Job>, name: string): (r: Option<nat>)
    ensures r.Some? ==> r.value < |jobs| && jobs[r.value].name == name
    ensures r.Some? ==> forall j :: 0 <= j < r.value ==> jobs[j].name != name
    ensures r.None? <==> forall j :: 0 <= j < |jobs| ==> jobs[j].name != name
  {
    if |jobs| == 0 then None
    else if jobs[0].name == name then Some(0)
    else
      match FirstJobNamed(jobs[1..], name)
      case None => None
      case Some(k) => Some(k + 1)
  }

  lemma FirstJobNamedAppended(jobs: seq<Job>, name: string, skills: Option<seq<nat>>)
    requires FirstJobNamed(jobs, name).None?
    ensures FirstJobNamed(jobs + [Job(name, skills)], name) == Some(|jobs|)
  {
    var r := FirstJobNamed(jobs + [Job(name, skills)], name);
    assert (jobs + [Job(name, skills)])[|jobs|].name == name;
  }

  /** Deleting the records of a user who has none leaves the table as it is. */
  lemma EraseWithoutRecord(records: seq<Option<KycVerification.Verification>>, userId: int)
    ensures KycVerification.FirstOfUser(records, userId).None? ==> KycVerification.Erase(records, userId) == records
  {
  }
}
