/**
 * The route guards: an any-of role check against the roles stored for the
 * caller, and an all-of feature check against the features of an active
 * subscription.
 */
module Guards {
  import opened Common
  import Users
  import Subscriptions

  /** The verified token payload placed on the request (`request.user`); it carries `sub`, never `id`. */
  datatype Claims = Claims(sub: int)

  /** `Array.prototype.some(x => set.includes(x))`. */
  function AnyIn(wanted: seq<string>, held: seq<string>): (r: bool)
    ensures r <==> exists i :: 0 <= i < |wanted| && wanted[i] in held
  {
    if |wanted| == 0 then false
    else if wanted[0] in held then true
    else
      var r := AnyIn(wanted[1..], held);
      assert forall i :: 1 <= i < |wanted| ==> wanted[i] == wanted[1..][i - 1];
      r
  }

  /** `Array.prototype.every(x => set.includes(x))`. */
  function AllIn(wanted: seq<string>, held: seq<string>): (r: bool)
    ensures r <==> forall i :: 0 <= i < |wanted| ==> wanted[i] in held
  {
    if |wanted| == 0 then true
    else if wanted[0] !in held then false
    else
      var r := AllIn(wanted[1..], held);
      assert forall i :: 1 <= i < |wanted| ==> wanted[i] == wanted[1..][i - 1];
      r
  }

  /** `xs.join(sep)`. */
  function Join(xs: seq<string>, sep: string): string
  {
    if |xs| == 0 then ""
    else if |xs| == 1 then xs[0]
    else xs[0] + sep + Join(xs[1..], sep)
  }

  /**
   * RolesGuard.canActivate (roles.guard.ts:18-58). `declared` is the roles
   * metadata of the handler (`None` when the handler has none). The caller's
   * roles are read from the user store by the token's subject, and the
   * lookup raises NotFound for a subject that is no longer a user.
   */
  function RolesGuard(declared: Option<seq<string>>, user: Option<Claims>, users: seq<Users.User>): (r: Result<()>)
    ensures var required := if declared.Some? then declared.value else [];
      (|required| == 0 ==> r == Ok(()))
      && (|required| > 0 && user.None? ==> r == Err(Forbidden("Authentication required")))
      && (|required| > 0 && user.Some? && !(1 <= user.value.sub <= |users|) ==> r == Err(NotFound("User not found")))
      && (|required| > 0 && user.Some? && 1 <= user.value.sub <= |users| ==>
            (r.Ok? <==> exists i :: 0 <= i < |required| && required[i] in users[user.value.sub - 1].roles)
            && (r.Err? ==> r == Err(Forbidden("Required roles: " + Join(required, ", ")))))
  {
    var required := if declared.Some? then declared.value else [];
    if |required| == 0 then Ok(())
    else if user.None? then Err(Forbidden("Authentication required"))
    else if !(1 <= user.value.sub <= |users|) then Err(NotFound("User not found"))
    else if AnyIn(required, users[user.value.sub - 1].roles) then Ok(())
    else Err(Forbidden("Required roles: " + Join(required, ", ")))
  }

  /** Any-of: declaring a further role never locks out a caller the declared roles let in. */
  lemma ExtraRoleNeverDenies(a: seq<string>, b: seq<string>, user: Option<Claims>, users: seq<Users.User>)
    requires |a| > 0
    requires RolesGuard(Some(a), user, users).Ok?
    ensures RolesGuard(Some(a + b), user, users).Ok?
  {
    var roles := users[user.value.sub - 1].roles;
    var i :| 0 <= i < |a| && a[i] in roles;
    assert (a + b)[i] == a[i];
  }

  /** A caller holding a declared role is let in, whatever else is declared. */
  lemma HoldingOneRoleSuffices(required: seq<string>, k: nat, user: Claims, users: seq<Users.User>)
    requires k < |required| && 1 <= user.sub <= |users| && required[k] in users[user.sub - 1].roles
    ensures RolesGuard(Some(required), Some(user), users) == Ok(())
  {
  }

  /** `getAllAndOverride`: the handler's metadata when it has some, otherwise the class's. */
  function Override(handler: Option<seq<string>>, cls: Option<seq<string>>): (r: Option<seq<string>>)
    ensures handler.Some? ==> r == handler
    ensures handler.None? ==> r == cls
  {
    if handler.Some? then handler else cls
  }

  /** The feature check once the caller's features are known. */
  function FeatureCheck(required: seq<string>, features: Subscriptions.FeatureJson): (r: Result<()>)
    requires |required| > 0
    ensures features.FeatureSettings? ==> r == Err(TypeError("userFeatures.includes is not a function"))
    ensures features.FeatureNames? ==>
      (r.Ok? <==> forall i :: 0 <= i < |required| ==> required[i] in features.names)
      && (r.Err? ==> r == Err(Forbidden("Access denied. Required features are missing.")))
  {
    match features
    case FeatureSettings(_) => Err(TypeError("userFeatures.includes is not a function"))
    case FeatureNames(names) =>
      if AllIn(required, names) then Ok(()) else Err(Forbidden("Access denied. Required features are missing."))
  }

  /**
   * FeaturesGuard.canActivate as written (features.guard.ts:18-55): the
   * features are those of `user.id`, which the token payload does not
   * carry, so the subscription lookup runs without a user condition and
   * finds the first active subscription of any user.
   */
  function FeaturesGuardAsWritten(handler: Option<seq<string>>, cls: Option<seq<string>>, user: Option<Claims>,
                                  subs: seq<Subscriptions.Subscription>, packages: seq<Subscriptions.Package>): (r: Result<()>)
    ensures var required := Override(handler, cls);
      ((required.None? || |required.value| == 0) ==> r == Ok(()))
      && (required.Some? && |required.value| > 0 && user.None? ==> r == Err(Forbidden("User not authenticated")))
      && (required.Some? && |required.value| > 0 && user.Some? ==>
            r == FeatureCheck(required.value, Subscriptions.SubscriberFeatures(subs, packages, None)))
  {
    var required := Override(handler, cls);
    if required.None? || |required.value| == 0 then Ok(())
    else if user.None? then Err(Forbidden("User not authenticated"))
    else FeatureCheck(required.value, Subscriptions.SubscriberFeatures(subs, packages, None))
  }

  /** The intended feature guard: the features of the token's subject. */
  function FeaturesGuard(handler: Option<seq<string>>, cls: Option<seq<string>>, user: Option<Claims>,
                         subs: seq<Subscriptions.Subscription>, packages: seq<Subscriptions.Package>): (r: Result<()>)
    ensures var required := Override(handler, cls);
      ((required.None? || |required.value| == 0) ==> r == Ok(()))
      && (required.Some? && |required.value| > 0 && user.None? ==> r == Err(Forbidden("User not authenticated")))
      && (required.Some? && |required.value| > 0 && user.Some? ==>
            r == FeatureCheck(required.value, Subscriptions.SubscriberFeatures(subs, packages, Some(user.value.sub))))
  {
    var required := Override(handler, cls);
    if required.None? || |required.value| == 0 then Ok(())
    else if user.None? then Err(Forbidden("User not authenticated"))
    else FeatureCheck(required.value, Subscriptions.SubscriberFeatures(subs, packages, Some(user.value.sub)))
  }

  /** All-of: requiring fewer features never locks out a caller who had them all. */
  lemma FewerFeaturesNeverDeny(a: seq<string>, b: seq<string>, user: Option<Claims>,
                               subs: seq<Subscriptions.Subscription>, packages: seq<Subscriptions.Package>)
    requires FeaturesGuard(Some(a + b), None, user, subs, packages).Ok?
    ensures FeaturesGuard(Some(a), None, user, subs, packages).Ok?
  {
    if |a| > 0 {
      var f := Subscriptions.SubscriberFeatures(subs, packages, Some(user.value.sub));
      forall i | 0 <= i < |a|
        ensures a[i] in f.names
      {
        assert (a + b)[i] == a[i];
      }
    }
  }

  /** A caller with no subscription at all is let through as written when another user's active package has the feature. */
  lemma AnotherUsersFeaturesAdmitAsWritten()
    ensures var subs := [Subscriptions.Subscription(2, Some(0), 0, 0, "active")];
      var packages := [Subscriptions.Package(30, Some(Subscriptions.FeatureNames(["export"])))];
      FeaturesGuardAsWritten(Some(["export"]), None, Some(Claims(1)), subs, packages) == Ok(())
      && FeaturesGuard(Some(["export"]), None, Some(Claims(1)), subs, packages)
         == Err(Forbidden("Access denied. Required features are missing."))
  {
    var subs := [Subscriptions.Subscription(2, Some(0), 0, 0, "active")];
    assert Subscriptions.FirstActive(subs, Some(1)).None?;
    assert Subscriptions.FirstActive(subs, None) == Some(0);
  }
}
