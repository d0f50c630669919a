/**
 * The user store and refresh-token store (users.service.ts) with the user
 * record of users.entity.ts and the token record of refresh-token.entity.ts.
 */
module Users {
  import opened Common

  /** A user row; the id is the row's position plus one (auto-increment key). */
  datatype User = User(
    email: string,
    passwordHash: string,
    roles: seq<string>,
    isEmailVerified: bool,
    verificationCode: Option<string>,
    verificationCodeExpiry: Option<int>,
    remainingBids: int,
    lastBidReset: Option<int>,      // a calendar day number (UTC)
    resetCode: Option<string>,
    resetCodeExpiry: Option<int>)

  /** `User.hasRole`: an exact, case-sensitive membership test on the stored roles. */
  predicate HasRole(u: User, role: string)
  {
    role in u.roles
  }

  /** Which account a refresh token is linked to. */
  datatype TokenOwner = OfUser(userId: int) | OfAdmin(adminId: int) | Unlinked

  datatype RefreshToken = RefreshToken(expiresAt: int, revoked: bool, owner: TokenOwner)

  /** The fields an update may supply; `None` means the key is absent from the update object. */
  datatype UserPatch = UserPatch(
    verificationCode: Option<string>,
    verificationCodeExpiry: Option<int>,
    resetCode: Option<string>,
    resetCodeExpiry: Option<int>,
    remainingBids: Option<int>,
    lastBidReset: Option<int>)

  predicate IsEmptyPatch(p: UserPatch)
  {
    p.verificationCode.None? && p.verificationCodeExpiry.None? && p.resetCode.None?
    && p.resetCodeExpiry.None? && p.remainingBids.None? && p.lastBidReset.None?
  }

  function Pick<T>(supplied: Option<T>, stored: T): T
  {
    if supplied.Some? then supplied.value else stored
  }

  /** `update(id, patch)`: every supplied key overwrites the stored value. */
  function ApplyPatch(u: User, p: UserPatch): User
  {
    u.(verificationCode := if p.verificationCode.Some? then p.verificationCode else u.verificationCode,
       verificationCodeExpiry := if p.verificationCodeExpiry.Some? then p.verificationCodeExpiry else u.verificationCodeExpiry,
       resetCode := if p.resetCode.Some? then p.resetCode else u.resetCode,
       resetCodeExpiry := if p.resetCodeExpiry.Some? then p.resetCodeExpiry else u.resetCodeExpiry,
       remainingBids := Pick(p.remainingBids, u.remainingBids),
       lastBidReset := if p.lastBidReset.Some? then p.lastBidReset else u.lastBidReset)
  }

  /**
   * The role toggle of changeUserRole: 'Freelancer' is added when absent,
   * then every 'Owner' is removed if one is present, else 'Owner' is added.
   */
  function ToggleRoles(roles: seq<string>): (r: seq<string>)
    ensures "Freelancer" in r
    ensures "Owner" in r <==> "Owner" !in roles
    ensures forall x :: x in roles && x != "Owner" ==> x in r
    ensures forall x :: x in r ==> x in roles || x == "Freelancer" || x == "Owner"
  {
    var withFreelancer := if "Freelancer" in roles then roles else roles + ["Freelancer"];
    if "Owner" in withFreelancer then Without(withFreelancer, "Owner")
    else withFreelancer + ["Owner"]
  }

  /** The first row holding `email` (the column is unique, so there is at most one). */
  function FirstWithEmail(users: seq<User>, email: string): (r: Option<nat>)
    ensures r.Some? ==> r.value < |users| && users[r.value].email == email
    ensures r.Some? ==> forall j :: 0 <= j < r.value ==> users[j].email != email
    ensures r.None? <==> forall j :: 0 <= j < |users| ==> users[j].email != email
  {
    if |users| == 0 then None
    else if users[0].email == email then Some(0)
    else match FirstWithEmail(users[1..], email)
      case None => None
      case Some(k) => Some(k + 1)
  }

  /**
   * validateRefreshToken: a token is accepted only if it is stored, not
   * revoked and expires strictly after `now`; the result is the token's
   * `user` relation, the id of its user, or null (`None`) for a token of an
   * admin or of nobody.
   */
  function ValidateRefreshToken(tokens: map<string, RefreshToken>, token: string, now: int): (r: Result<Option<int>>)
    ensures r.Ok? <==> token in tokens && !tokens[token].revoked && now < tokens[token].expiresAt
    ensures r.Ok? ==> (r.value.Some? <==> tokens[token].owner.OfUser?)
    ensures r.Ok? && r.value.Some? ==> tokens[token].owner == OfUser(r.value.value)
    ensures r.Err? ==> r.error == Unauthorized("Invalid refresh token")
  {
    if token !in tokens || tokens[token].revoked || tokens[token].expiresAt <= now then
      Err(Unauthorized("Invalid refresh token"))
    else if tokens[token].owner.OfUser? then Ok(Some(tokens[token].owner.userId))
    else Ok(None)
  }

  /** The delete of createOrUpdateRefreshToken: every unrevoked token of the user goes. */
  function PruneUnrevoked(tokens: map<string, RefreshToken>, userId: int): (r: map<string, RefreshToken>)
    ensures forall t :: t in r ==> t in tokens && r[t] == tokens[t]
    ensures forall t :: t in r ==> !(r[t].owner == OfUser(userId) && !r[t].revoked)
    ensures forall t :: t in tokens && !(tokens[t].owner == OfUser(userId) && !tokens[t].revoked) ==> t in r
  {
    map t | t in tokens && !(tokens[t].owner == OfUser(userId) && !tokens[t].revoked) :: tokens[t]
  }

  /** isUserProjectOwner: the user exists and owns at least one stored project. */
  function IsUserProjectOwner(users: seq<User>, projectOwners: seq<int>, userId: int): (r: bool)
    ensures r ==> 1 <= userId <= |users|
    ensures r <==> 1 <= userId <= |users| && exists k :: 0 <= k < |projectOwners| && projectOwners[k] == userId
  {
    1 <= userId <= |users| && userId in projectOwners
  }

  class UsersService {
    var users: seq<User>
    var tokens: map<string, RefreshToken>

    constructor()
      ensures users == [] && tokens == map[]
    {
      users := [];
      tokens := map[];
    }

    /** findById / getUserById: the row with that id, or `None` (raised as NotFound by callers). */
    function Find(id: int): (r: Option<User>)
      reads this
      ensures r.Some? <==> 1 <= id <= |users|
      ensures r.Some? ==> r.value == users[id - 1]
    {
      if 1 <= id <= |users| then Some(users[id - 1]) else None
    }

    /** findByEmail: the id of the user holding `email`. */
    function FindByEmail(email: string): (r: Option<int>)
      reads this
      ensures r.Some? ==> 1 <= r.value <= |users| && users[r.value - 1].email == email
      ensures r.None? ==> forall j :: 0 <= j < |users| ==> users[j].email != email
    {
      match FirstWithEmail(users, email)
      case None => None
      case Some(k) => Some(k + 1)
    }

    /** changeUserRole (users.service.ts:205-226). */
    method ChangeUserRole(id: int) returns (r: Result<User>)
      modifies this
      ensures !(1 <= id <= old(|users|)) ==> r == Err(NotFound("User not found")) && unchanged(this)
      ensures 1 <= id <= old(|users|) ==>
        users == old(users)[id - 1 := old(users[id - 1]).(roles := ToggleRoles(old(users[id - 1].roles)))]
        && tokens == old(tokens) && r == Ok(users[id - 1])
    {
      if !(1 <= id <= |users|) {
        return Err(NotFound("User not found"));
      }
      var u := users[id - 1];
      u := u.(roles := ToggleRoles(u.roles));
      users := users[id - 1 := u];
      r := Ok(u);
    }

    /**
     * updateUser (users.service.ts:168-177): an empty update is refused before
     * anything is read or written; a missing user gives NotFound.
     */
    method UpdateUser(id: int, patch: UserPatch) returns (r: Result<User>)
      modifies this
      ensures IsEmptyPatch(patch) ==> r == Err(BadRequest("No update data provided")) && unchanged(this)
      ensures !IsEmptyPatch(patch) && !(1 <= id <= old(|users|)) ==>
        r == Err(NotFound("User not found")) && unchanged(this)
      ensures !IsEmptyPatch(patch) && 1 <= id <= old(|users|) ==>
        users == old(users)[id - 1 := ApplyPatch(old(users[id - 1]), patch)]
        && tokens == old(tokens) && r == Ok(users[id - 1])
    {
      if IsEmptyPatch(patch) {
        return Err(BadRequest("No update data provided"));
      }
      if !(1 <= id <= |users|) {
        return Err(NotFound("User not found"));
      }
      users := users[id - 1 := ApplyPatch(users[id - 1], patch)];
      r := Ok(users[id - 1]);
    }

    /**
     * createOrUpdateRefreshToken (users.service.ts:64-77): the user's
     * unrevoked tokens are deleted, then the new one is saved. The token
     * column is unique, so a string still held by a revoked token cannot be
     * saved again.
     */
    method CreateOrUpdateRefreshToken(userId: int, token: string, expiresAt: int) returns (r: Result<RefreshToken>)
      modifies this
      ensures !(1 <= userId <= old(|users|)) ==> r == Err(NotFound("User not found")) && unchanged(this)
      ensures 1 <= userId <= old(|users|) ==> users == old(users)
      ensures 1 <= userId <= old(|users|) && token in PruneUnrevoked(old(tokens), userId) ==>
        r.Err? && tokens == PruneUnrevoked(old(tokens), userId)
      ensures 1 <= userId <= old(|users|) && token !in PruneUnrevoked(old(tokens), userId) ==>
        tokens == PruneUnrevoked(old(tokens), userId)[token := RefreshToken(expiresAt, false, OfUser(userId))]
        && r == Ok(tokens[token])
      ensures r.Ok? ==> forall t :: t in tokens && tokens[t].owner == OfUser(userId) && !tokens[t].revoked ==> t == token
    {
      if !(1 <= userId <= |users|) {
        return Err(NotFound("User not found"));
      }
      tokens := PruneUnrevoked(tokens, userId);
      if token in tokens {
        return Err(Failure("Duplicate entry for the refresh token"));
      }
      var record := RefreshToken(expiresAt, false, OfUser(userId));
      tokens := tokens[token := record];
      r := Ok(record);
    }

    /**
     * create (users.service.ts:110-126): an existing email is refused, and
     * the BadRequest is caught and surfaced as InternalServerError.
     * The new user gets the column defaults (unverified, 5 bids).
     */
    method Create(email: string, passwordHash: string, roles: seq<string>,
                  code: Option<string>, expiry: Option<int>) returns (r: Result<int>)
      modifies this
      ensures old(FindByEmail(email)).Some? ==>
        r == Err(InternalServerError("Failed to create user")) && unchanged(this)
      ensures old(FindByEmail(email)).None? ==>
        users == old(users) + [User(email, passwordHash, roles, false, code, expiry, 5, None, None, None)]
        && tokens == old(tokens) && r == Ok(|users|)
    {
      var existing := FindByEmail(email);
      if existing.Some? {
        return Err(InternalServerError("Failed to create user"));
      }
      users := users + [User(email, passwordHash, roles, false, code, expiry, 5, None, None, None)];
      r := Ok(|users|);
    }

    /**
     * verifyEmail (users.service.ts:145-151): an update by id, so a missing
     * id changes nothing and raises nothing.
     */
    method VerifyEmail(id: int)
      modifies this
      ensures !(1 <= id <= old(|users|)) ==> unchanged(this)
      ensures 1 <= id <= old(|users|) ==>
        users == old(users)[id - 1 := old(users[id - 1]).(isEmailVerified := true, verificationCode := None, verificationCodeExpiry := None)]
        && tokens == old(tokens)
    {
      if 1 <= id <= |users| {
        users := users[id - 1 := users[id - 1].(isEmailVerified := true, verificationCode := None, verificationCodeExpiry := None)];
      }
    }
  }
}
