/**
 * The route guard (src/components/ProtectedRoute.jsx): a chain of checks on the
 * signed-in user that ends in a redirect or in showing the protected page.
 * The answers of the authentication service and the profile table are inputs.
 */
module Access {
  import opened Wrappers

  datatype Path = Login | CompleteProfile | Dashboard

  /** Where the guard leaves the visitor: sent elsewhere, or shown the protected page. */
  datatype Outcome = Redirect(to: Path) | Render

  datatype User = User(id: string, emailConfirmed: bool, fullName: string)

  /** The columns the guard reads from a profile; a null role is `None`. */
  datatype Profile = Profile(role: Option<string>, completed: bool)

  /** The row the guard inserts for a user without a profile. */
  datatype ProfileRow = ProfileRow(id: string, fullName: string, completed: bool, role: string)

  /** What `getSession` gives: a session, none, or an exception. */
  datatype SessionResult = SignedIn(user: User) | NoSession | SessionThrew

  /** What the profile query gives: a row, no row, or an error (reported or thrown alike). */
  datatype FetchResult = Row(profile: Profile) | NoRow | FetchFailed

  /** What inserting the new profile gives. */
  datatype InsertResult = Inserted | InsertFailed | InsertThrew

  /** The answers of the outside services during one check. */
  datatype AuthEnv = AuthEnv(session: SessionResult, fetch: FetchResult, insert: InsertResult)

  /** Calls the guard makes to the outside world. */
  datatype Effect = SignOut | Alert(text: string) | InsertProfile(row: ProfileRow)

  const VerifyEmailText := "Please verify your email before logging in."

  /** The profile every new user gets: a student whose profile is not yet completed. */
  function NewRow(u: User): (row: ProfileRow)
    ensures row.id == u.id && row.fullName == u.fullName
    ensures row.role == "student" && !row.completed
  {
    ProfileRow(u.id, u.fullName, false, "student")
  }

  /** The profile the guard goes on with after inserting `NewRow`. */
  const CreatedProfile := Profile(Some("student"), false)

  /** `requiredRole && profile.role !== requiredRole` is false. */
  predicate RoleAllowed(role: Option<string>, requiredRole: Option<string>) {
    requiredRole.None? || requiredRole.value == "" || role == Some(requiredRole.value)
  }

  /** Every condition for showing the protected page, stated at once. */
  predicate Admitted(env: AuthEnv, requiredRole: Option<string>) {
    && env.session.SignedIn?
    && env.session.user.emailConfirmed
    && env.fetch.Row?
    && env.fetch.profile.completed
    && RoleAllowed(env.fetch.profile.role, requiredRole)
  }

  /** The profile a confirmed user ends up with, if the guard gets that far. */
  function EffectiveProfile(env: AuthEnv): Option<Profile> {
    match env.fetch
    case Row(p) => Some(p)
    case _ => if env.insert.Inserted? then Some(CreatedProfile) else None
  }

  /** The decision of `checkAuth`, check by check. */
  function Destination(env: AuthEnv, requiredRole: Option<string>): (o: Outcome)
    ensures !env.session.SignedIn? ==> o == Redirect(Login)
    ensures env.session.SignedIn? && !env.session.user.emailConfirmed ==> o == Redirect(Login)
    ensures env.session.SignedIn? && !env.fetch.Row? && !env.insert.Inserted? ==> o == Redirect(Login)
    ensures env.session.SignedIn? && env.session.user.emailConfirmed && !env.fetch.Row? && env.insert.Inserted? ==>
              o == Redirect(CompleteProfile)
    ensures (env.session.SignedIn? && env.session.user.emailConfirmed
             && EffectiveProfile(env).Some? && !EffectiveProfile(env).value.completed) ==>
              o == Redirect(CompleteProfile)
    ensures o == Redirect(Dashboard) <==>
              && env.session.SignedIn? && env.session.user.emailConfirmed
              && EffectiveProfile(env).Some? && EffectiveProfile(env).value.completed
              && !RoleAllowed(EffectiveProfile(env).value.role, requiredRole)
    ensures o == Redirect(Dashboard) ==> requiredRole.Some? && requiredRole.value != ""
    ensures o == Render <==> Admitted(env, requiredRole)
  {
    if !env.session.SignedIn? then Redirect(Login)
    else if !env.session.user.emailConfirmed then Redirect(Login)
    else
      match EffectiveProfile(env)
      case None => Redirect(Login)
      case Some(p) =>
        if !p.completed then Redirect(CompleteProfile)
        else if !RoleAllowed(p.role, requiredRole) then Redirect(Dashboard)
        else Render
  }

  /** A required role is only checked on a completed profile, so incompleteness wins. */
  lemma IncompleteBeforeRole(env: AuthEnv, requiredRole: Option<string>)
    requires env.session.SignedIn? && env.session.user.emailConfirmed
    requires EffectiveProfile(env).Some? && !EffectiveProfile(env).value.completed
    ensures Destination(env, requiredRole) == Redirect(CompleteProfile)
  {
  }

  /** The auth-state listener: a sign-out event or a lost session sends the visitor to the login page. */
  function OnAuthStateChange(event: string, hasSession: bool): (r: Option<Path>)
    ensures r.Some? ==> r.value == Login
    ensures r.Some? <==> event == "SIGNED_OUT" || !hasSession
  {
    if event == "SIGNED_OUT" || !hasSession then Some(Login) else None
  }

  /** The component's state: the loading flag, the user and the user's role. */
  class RouteGuard {
    const requiredRole: Option<string>
    var loading: bool
    var user: Option<User>
    var userRole: Option<string>

    /** The protected page is shown once loading is over. */
    predicate ShowsChildren()
      reads this
    {
      !loading
    }

    constructor (requiredRole: Option<string>)
      ensures this.requiredRole == requiredRole
      ensures loading && user == None && userRole == None
    {
      this.requiredRole := requiredRole;
      loading := true;
      user := None;
      userRole := None;
    }

    /** `checkAuth`: runs the checks in order, stopping at the first redirect. */
    method CheckAuth(env: AuthEnv) returns (outcome: Outcome, effects: seq<Effect>)
      modifies this
      ensures outcome == Destination(env, requiredRole)
      ensures loading == (old(loading) && outcome != Render)
      ensures old(loading) ==> (ShowsChildren() <==> Admitted(env, requiredRole))
      ensures (SignOut in effects) <==> env.session.SignedIn? && !env.session.user.emailConfirmed
      ensures (exists row :: InsertProfile(row) in effects) <==>
                env.session.SignedIn? && env.session.user.emailConfirmed && !env.fetch.Row?
      ensures forall row :: InsertProfile(row) in effects ==> row == NewRow(env.session.user)
      ensures !env.session.SignedIn? ==> effects == []
      ensures env.session.SignedIn? && !env.session.user.emailConfirmed ==> effects == [SignOut, Alert(VerifyEmailText)]
      ensures env.session.SignedIn? && env.session.user.emailConfirmed ==>
                effects == (if env.fetch.Row? then [] else [InsertProfile(NewRow(env.session.user))])
      ensures user == (if env.session.SignedIn? && env.session.user.emailConfirmed
                       then Some(env.session.user) else old(user))
      ensures userRole == (if outcome == Render || outcome == Redirect(Dashboard)
                           then EffectiveProfile(env).value.role else old(userRole))
    {
      effects := [];
      if !env.session.SignedIn? {
        // no session, or getSession threw and the outer catch redirects
        return Redirect(Login), effects;
      }
      var u := env.session.user;
      if !u.emailConfirmed {
        effects := [SignOut, Alert(VerifyEmailText)];
        return Redirect(Login), effects;
      }
      user := Some(u);
      var profile: Option<Profile> := None;
      if env.fetch.Row? {
        profile := Some(env.fetch.profile);
      }
      if profile.None? {
        effects := [InsertProfile(NewRow(u))];
        if !env.insert.Inserted? {
          return Redirect(Login), effects;
        }
        profile := Some(CreatedProfile);
      }
      if !profile.value.completed {
        return Redirect(CompleteProfile), effects;
      }
      userRole := profile.value.role;
      if requiredRole.Some? && requiredRole.value != "" && profile.value.role != Some(requiredRole.value) {
        return Redirect(Dashboard), effects;
      }
      loading := false;
      outcome := Render;
    }
  }
}
