/**
 * Account and token rules of auth.service.ts: registration, login,
 * refresh-token rotation, e-mail verification and password-reset codes.
 * Hashing, random draws and the clock are parameters.
 */
module Auth {
  import opened Common
  import Users
  import Wallets

  /** The default refresh-token lifetime: seven days (auth.service.ts:75-76). */
  const DefaultRefreshTtl: int := 7 * 24 * MsPerHour

  /** How long verification and reset codes stay valid (auth.service.ts:104, 279). */
  const CodeTtl: int := MsPerHour

  /** `Number(REFRESH_TOKEN_EXPIRY_MS) || 7 days`; an unset or unparsable setting reads as 0. */
  function RefreshTtl(setting: int): (r: int)
    ensures setting != 0 ==> r == setting
    ensures setting == 0 ==> r == 604800000
  {
    if setting != 0 then setting else DefaultRefreshTtl
  }

  /**
   * generateVerificationCode (auth.service.ts:88-90): `randomInt(100000,
   * 999999)`, whose upper bound is exclusive, written in decimal. The
   * random draw is `draw`.
   */
  function VerificationCode(draw: nat): (r: string)
    ensures |r| >= 1 && forall i :: 0 <= i < |r| ==> '0' <= r[i] <= '9'
    ensures 100000 <= DecimalValue(r) < 999999
  {
    DecimalRoundTrip(100000 + draw % 899999);
    DecimalString(100000 + draw % 899999)
  }

  /** Every code in the range is drawn by some draw. */
  lemma EveryCodeIsDrawn(n: nat)
    requires 100000 <= n < 999999
    ensures VerificationCode(n - 100000) == DecimalString(n)
  {
    assert 100000 + (n - 100000) % 899999 == n;
  }

  /**
   * `expiry < now` for a date column read back as a Date or `null`;
   * `null` compares as 0.
   */
  predicate ExpiredAt(expiry: Option<int>, now: int)
  {
    (if expiry.Some? then expiry.value else 0) < now
  }

  /**
   * The check refreshToken makes (auth.service.ts:156-169): the token is
   * stored, unrevoked, and `expiresAt < now` does not hold.
   */
  predicate Refreshable(tokens: map<string, Users.RefreshToken>, token: string, now: int)
  {
    token in tokens && !tokens[token].revoked && !(tokens[token].expiresAt < now)
  }

  /**
   * refreshToken and validateRefreshToken disagree on one instant: a token
   * at its expiry time is refreshed but not validated.
   */
  lemma RefreshAcceptsExpiryInstant(tokens: map<string, Users.RefreshToken>, token: string, now: int)
    requires token in tokens && !tokens[token].revoked
    ensures Refreshable(tokens, token, now) && Users.ValidateRefreshToken(tokens, token, now).Err?
            <==> tokens[token].expiresAt == now
    ensures Users.ValidateRefreshToken(tokens, token, now).Ok? ==> Refreshable(tokens, token, now)
  {
  }

  /** The outcome of a successful login or refresh: the new refresh token (the signed access token is left out). */
  datatype Session = Session(owner: Users.TokenOwner, refreshToken: string)

  class AuthService {
    const users: Users.UsersService
    const wallets: Wallets.WalletService

    /** One UsersService instance is shared by every service that injects it. */
    constructor(users: Users.UsersService, wallets: Wallets.WalletService)
      requires wallets.users == users
      ensures this.users == users && this.wallets == wallets
    {
      this.users := users;
      this.wallets := wallets;
    }

    /**
     * generateNewRefreshToken (auth.service.ts:68-86): a fresh random token
     * for the user or admin, expiring `RefreshTtl(ttlSetting)` from now;
     * other tokens are left alone, and the unique column refuses a repeat.
     */
    method GenerateNewRefreshToken(owner: Users.TokenOwner, newToken: string, now: int, ttlSetting: int) returns (r: Result<Users.RefreshToken>)
      modifies users
      ensures users.users == old(users.users)
      ensures newToken in old(users.tokens) ==>
        r == Err(Failure("Duplicate entry for the refresh token")) && users.tokens == old(users.tokens)
      ensures newToken !in old(users.tokens) ==>
        users.tokens == old(users.tokens)[newToken := Users.RefreshToken(now + RefreshTtl(ttlSetting), false, owner)]
        && r == Ok(users.tokens[newToken])
    {
      if newToken in users.tokens {
        return Err(Failure("Duplicate entry for the refresh token"));
      }
      var record := Users.RefreshToken(now + RefreshTtl(ttlSetting), false, owner);
      users.tokens := users.tokens[newToken := record];
      r := Ok(record);
    }

    /**
     * register (auth.service.ts:92-125): a new e-mail becomes an unverified
     * 'Freelancer' whose verification code expires an hour from now.
     */
    method Register(email: string, passwordHash: string, draw: nat, now: int) returns (r: Result<int>)
      modifies users
      ensures old(users.FindByEmail(email)).Some? ==>
        r == Err(Conflict("Email already exists")) && unchanged(users)
      ensures old(users.FindByEmail(email)).None? ==>
        users.users == old(users.users) + [Users.User(email, passwordHash, ["Freelancer"], false,
          Some(VerificationCode(draw)), Some(now + CodeTtl), 5, None, None, None)]
        && users.tokens == old(users.tokens) && r == Ok(|users.users|)
    {
      if users.FindByEmail(email).Some? {
        return Err(Conflict("Email already exists"));
      }
      var code := VerificationCode(draw);
      r := users.Create(email, passwordHash, ["Freelancer"], Some(code), Some(now + CodeTtl));
    }

    /**
     * login (auth.service.ts:127-152): bad credentials, then an unverified
     * e-mail, are refused; otherwise a refresh token is issued to the user.
     * `passwordMatches` stands for bcrypt.compare against the stored hash.
     */
    method Login(email: string, passwordMatches: string -> bool, newToken: string, now: int, ttlSetting: int) returns (r: Result<Session>)
      modifies users
      ensures users.users == old(users.users)
      ensures old(users.FindByEmail(email)).None? || !passwordMatches(old(users.users)[old(users.FindByEmail(email)).value - 1].passwordHash) ==>
        r == Err(Unauthorized("Invalid email or password")) && users.tokens == old(users.tokens)
      ensures old(users.FindByEmail(email)).Some? && passwordMatches(old(users.users)[old(users.FindByEmail(email)).value - 1].passwordHash)
              && !old(users.users)[old(users.FindByEmail(email)).value - 1].isEmailVerified ==>
        r == Err(Unauthorized("Email is not verified")) && users.tokens == old(users.tokens)
      ensures r.Ok? ==>
        old(users.FindByEmail(email)).Some? && old(users.users)[old(users.FindByEmail(email)).value - 1].isEmailVerified
        && r.value == Session(Users.OfUser(old(users.FindByEmail(email)).value), newToken)
        && users.tokens == old(users.tokens)[newToken := Users.RefreshToken(now + RefreshTtl(ttlSetting), false, r.value.owner)]
    {
      var id := users.FindByEmail(email);
      if id.None? || !passwordMatches(users.users[id.value - 1].passwordHash) {
        return Err(Unauthorized("Invalid email or password"));
      }
      if !users.users[id.value - 1].isEmailVerified {
        return Err(Unauthorized("Email is not verified"));
      }
      var issued := GenerateNewRefreshToken(Users.OfUser(id.value), newToken, now, ttlSetting);
      if issued.Err? {
        return Err(issued.error);
      }
      r := Ok(Session(Users.OfUser(id.value), newToken));
    }

    /**
     * refreshToken (auth.service.ts:154-204): the presented token is
     * revoked before its owner is inspected, and a new token is issued to
     * that owner; a token with no owner is refused after the revocation.
     */
    method RefreshToken(presented: string, newToken: string, now: int, ttlSetting: int) returns (r: Result<Session>)
      modifies users
      ensures users.users == old(users.users)
      ensures !(presented in old(users.tokens) && !old(users.tokens)[presented].revoked) ==>
        r == Err(Unauthorized("Invalid or expired refresh token")) && users.tokens == old(users.tokens)
      ensures presented in old(users.tokens) && !old(users.tokens)[presented].revoked && old(users.tokens)[presented].expiresAt < now ==>
        r == Err(Unauthorized("Refresh token expired")) && users.tokens == old(users.tokens)
      ensures Refreshable(old(users.tokens), presented, now) ==>
        var t := old(users.tokens)[presented];
        var revoked := old(users.tokens)[presented := t.(revoked := true)];
        if t.owner.Unlinked? then
          r == Err(Unauthorized("Invalid token: no associated user or admin")) && users.tokens == revoked
        else if newToken in revoked then
          r.Err? && users.tokens == revoked
        else
          users.tokens == revoked[newToken := Users.RefreshToken(now + RefreshTtl(ttlSetting), false, t.owner)]
          && r == Ok(Session(t.owner, newToken))
      ensures r.Ok? ==> presented in users.tokens && users.tokens[presented].revoked
    {
      if !(presented in users.tokens && !users.tokens[presented].revoked) {
        return Err(Unauthorized("Invalid or expired refresh token"));
      }
      var t := users.tokens[presented];
      if t.expiresAt < now {
        return Err(Unauthorized("Refresh token expired"));
      }
      users.tokens := users.tokens[presented := t.(revoked := true)];
      if t.owner.Unlinked? {
        return Err(Unauthorized("Invalid token: no associated user or admin"));
      }
      var issued := GenerateNewRefreshToken(t.owner, newToken, now, ttlSetting);
      if issued.Err? {
        return Err(issued.error);
      }
      r := Ok(Session(t.owner, newToken));
    }

    /**
     * verifyEmail (auth.service.ts:206-225): a matching, unexpired code
     * creates the user's 'SPY' wallet and marks the e-mail verified; every
     * failure, the wallet's included, surfaces as InternalServerError.
     */
    method VerifyEmail(email: string, code: string, now: int) returns (r: Result<string>)
      requires wallets.users == users
      modifies users, wallets
      ensures users.tokens == old(users.tokens) && wallets.siteWallets == old(wallets.siteWallets) && wallets.log == old(wallets.log)
      ensures r.Err? ==> r == Err(InternalServerError("Failed to verify email"))
      ensures old(users.FindByEmail(email)).None? ==> r.Err? && unchanged(users) && unchanged(wallets)
      ensures old(users.FindByEmail(email)).Some? ==>
        var id := old(users.FindByEmail(email)).value;
        var u := old(users.users)[id - 1];
        if u.verificationCode != Some(code) || ExpiredAt(u.verificationCodeExpiry, now) || id in old(wallets.wallets) then
          r.Err? && unchanged(users) && wallets.wallets == old(wallets.wallets)
        else
          wallets.wallets == old(wallets.wallets)[id := Wallets.EmptyWallet("SPY")]
          && users.users == old(users.users)[id - 1 := u.(isEmailVerified := true, verificationCode := None, verificationCodeExpiry := None)]
          && r == Ok("Email verified successfully")
    {
      var id := users.FindByEmail(email);
      if id.None? {
        return Err(InternalServerError("Failed to verify email"));
      }
      var u := users.users[id.value - 1];
      if u.verificationCode != Some(code) || ExpiredAt(u.verificationCodeExpiry, now) {
        return Err(InternalServerError("Failed to verify email"));
      }
      var created := wallets.CreateWallet(id.value, "SPY");
      if created.Err? {
        return Err(InternalServerError("Failed to verify email"));
      }
      users.VerifyEmail(id.value);
      r := Ok("Email verified successfully");
    }

    /**
     * sendResetPasswordEmail (auth.service.ts:257-294): a stored, non-empty
     * code that has not yet expired is re-sent unchanged; otherwise a new
     * code valid for an hour is stored.
     */
    method SendResetPasswordEmail(email: string, draw: nat, now: int) returns (r: Result<int>)
      modifies users
      ensures users.tokens == old(users.tokens)
      ensures old(users.FindByEmail(email)).None? ==> r == Err(Unauthorized("User not found")) && unchanged(users)
      ensures old(users.FindByEmail(email)).Some? ==>
        var id := old(users.FindByEmail(email)).value;
        var u := old(users.users)[id - 1];
        r == Ok(id)
        && if u.resetCode.Some? && u.resetCode.value != "" && u.resetCodeExpiry.Some? && u.resetCodeExpiry.value > now then
             users.users == old(users.users)
           else
             users.users == old(users.users)[id - 1 := u.(resetCode := Some(VerificationCode(draw)), resetCodeExpiry := Some(now + CodeTtl))]
    {
      var id := users.FindByEmail(email);
      if id.None? {
        return Err(Unauthorized("User not found"));
      }
      var u := users.users[id.value - 1];
      if u.resetCode.Some? && u.resetCode.value != "" && u.resetCodeExpiry.Some? && u.resetCodeExpiry.value > now {
        return Ok(id.value);
      }
      var code := VerificationCode(draw);
      var _ := users.UpdateUser(id.value, Users.UserPatch(None, None, Some(code), Some(now + CodeTtl), None, None));
      r := Ok(id.value);
    }

    /** verifyResetCode (auth.service.ts:296-308): only the stored code, before its expiry, is accepted. */
    function VerifyResetCode(userId: int, code: string, now: int): (r: Result<string>)
      reads users
      ensures users.Find(userId).None? ==> r == Err(NotFound("User not found"))
      ensures users.Find(userId).Some? ==>
        (r.Ok? <==> users.Find(userId).value.resetCode == Some(code) && !ExpiredAt(users.Find(userId).value.resetCodeExpiry, now))
      ensures r.Err? && users.Find(userId).Some? ==> r == Err(Unauthorized("Invalid or expired reset code"))
    {
      match users.Find(userId)
      case None => Err(NotFound("User not found"))
      case Some(u) =>
        if u.resetCode != Some(code) || ExpiredAt(u.resetCodeExpiry, now) then Err(Unauthorized("Invalid or expired reset code"))
        else Ok("Reset code verified successfully")
    }
  }

  /**
   * A code stored by sendResetPasswordEmail verifies for its whole hour,
   * up to and including its expiry instant, and not after.
   */
  lemma ResetCodeWindow(u: Users.User, draw: nat, issued: int, now: int)
    ensures var v := u.(resetCode := Some(VerificationCode(draw)), resetCodeExpiry := Some(issued + CodeTtl));
      (v.resetCode == Some(VerificationCode(draw)) && !ExpiredAt(v.resetCodeExpiry, now)) <==> now <= issued + MsPerHour
  {
  }
}
