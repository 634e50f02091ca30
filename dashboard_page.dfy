/** The dashboard page: the session gate that runs when the page mounts, the
    sign-out control, and the choice of what to show (loading text, profile
    failure text, or the header with the view the role selects).

    The auth provider's and the profile table's answers are parameters; the
    sign-out request, the profile lookup and the router's redirects are
    recorded as effects, in the order the page issues them. */
module DashboardPage {
  import opened Gateway

  /** A row of the `profiles` table as the page selects it. */
  datatype Profile = Profile(username: string, role: string)

  /** The answer to the session lookup: an error, a session, both or neither. */
  datatype SessionLookup = SessionLookup(error: Option<string>, session: Option<Session>)

  /** The answer to the profile lookup. */
  datatype ProfileReply = ProfileFound(profile: Profile) | ProfileFailed(message: string)

  /** What the page asks of the outside world. */
  datatype Effect =
    | FetchProfile(userId: string)
    | SignOut
    | Redirect(path: string)

  datatype PageState = PageState(session: Option<Session>, profile: Option<Profile>, loading: bool)

  /** The state the page is created with. */
  const Initial := PageState(None, None, true)

  /** What one procedure did: the state it left and the effects it issued, in order. */
  datatype Step = Step(state: PageState, effects: seq<Effect>)

  /** The lookup names a usable session: no error and a session present. */
  predicate SignedIn(lookup: SessionLookup) {
    lookup.error.None? && lookup.session.Some?
  }

  /** The gate that runs on mount. */
  function LoadStep(s: PageState, lookup: SessionLookup, reply: ProfileReply): (r: Step)
    // an error or no session: straight to sign-in, no profile lookup, and the
    // state untouched (so loading is not cleared)
    ensures !SignedIn(lookup) ==> r.effects == [Redirect(SignInPath)] && r.state == s
    // a session: its user's profile is looked up, and loading ends either way
    ensures SignedIn(lookup) ==>
      && |r.effects| >= 1
      && r.effects[0] == FetchProfile(lookup.session.value.userId)
      && r.state.session == lookup.session
      && !r.state.loading
    ensures SignedIn(lookup) && reply.ProfileFound? ==>
      r.effects == [FetchProfile(lookup.session.value.userId)] && r.state.profile == Some(reply.profile)
    // an unreadable profile signs the user out, then redirects; no profile is kept
    ensures SignedIn(lookup) && reply.ProfileFailed? ==>
      && r.effects[1..] == [SignOut, Redirect(SignInPath)]
      && r.state.profile == s.profile
  {
    if lookup.error.Some? then Step(s, [Redirect(SignInPath)])
    else if lookup.session.None? then Step(s, [Redirect(SignInPath)])
    else
      var session := lookup.session.value;
      var withSession := s.(session := Some(session));
      var lookedUp := [FetchProfile(session.userId)];
      match reply
      case ProfileFound(profile) =>
        Step(withSession.(profile := Some(profile), loading := false), lookedUp)
      case ProfileFailed(_) =>
        Step(withSession.(loading := false), lookedUp + [SignOut, Redirect(SignInPath)])
  }

  /** The sign-out control: sign out, then go to sign-in, whatever the state. */
  function SignOutStep(s: PageState): (r: Step)
    ensures r.effects == [SignOut, Redirect(SignInPath)]
    ensures r.state == s
  {
    Step(s, [SignOut, Redirect(SignInPath)])
  }

  /** The two views a profile's role can select. */
  datatype Role = Admin | Standard

  /** The role gate: exactly the string "admin" selects the management view. */
  function RoleOf(role: string): (r: Role)
    ensures r == Admin <==> role == "admin"
  {
    if role == "admin" then Admin else Standard
  }

  /** What the page shows. */
  datatype Screen =
    | LoadingScreen
    | ProfileLoadFailed
    | Dashboard(username: string, role: string, view: Role)

  /** Loading first, then a missing profile, then the header and the view the role selects. */
  function Render(s: PageState): (v: Screen)
    ensures v == LoadingScreen <==> s.loading
    ensures v == ProfileLoadFailed <==> !s.loading && s.profile.None?
    ensures v.Dashboard? ==>
      && s.profile.Some?
      && v.username == s.profile.value.username
      && v.role == s.profile.value.role
      && (v.view == Admin <==> s.profile.value.role == "admin")
  {
    if s.loading then LoadingScreen
    else
      match s.profile
      case None => ProfileLoadFailed
      case Some(p) => Dashboard(p.username, p.role, RoleOf(p.role))
  }

  /** After the gate has run on a fresh page, the dashboard is shown exactly
      when the session and the profile were both read, and otherwise a redirect
      to sign-in has been issued. An error or a missing session leaves the
      loading text up; an unreadable profile leaves the profile failure text up
      until the redirect takes effect. */
  lemma MountOutcome(lookup: SessionLookup, reply: ProfileReply)
    ensures var r := LoadStep(Initial, lookup, reply);
      && (Render(r.state).Dashboard? <==> SignedIn(lookup) && reply.ProfileFound?)
      && (!Render(r.state).Dashboard? ==> Redirect(SignInPath) in r.effects)
      && (Render(r.state) == LoadingScreen <==> !SignedIn(lookup))
      && (Render(r.state) == ProfileLoadFailed <==> SignedIn(lookup) && reply.ProfileFailed?)
  {
    var r := LoadStep(Initial, lookup, reply);
    if SignedIn(lookup) && reply.ProfileFailed? {
      assert r.effects[2] == Redirect(SignInPath);
    }
  }

  /** The page as an object with mutable state. */
  class DashboardView {
    var session: Option<Session>
    var profile: Option<Profile>
    var loading: bool
    /** Every effect issued so far, in order. */
    ghost var effects: seq<Effect>

    function State(): PageState
      reads this
    {
      PageState(session, profile, loading)
    }

    constructor ()
      ensures State() == Initial && effects == []
    {
      session := None;
      profile := None;
      loading := true;
      effects := [];
    }

    method GetSessionAndProfile(lookup: SessionLookup, reply: ProfileReply)
      modifies this
      ensures State() == LoadStep(old(State()), lookup, reply).state
      ensures effects == old(effects) + LoadStep(old(State()), lookup, reply).effects
    {
      if lookup.error.Some? {
        effects := effects + [Redirect(SignInPath)];
        return;
      }
      if lookup.session.None? {
        effects := effects + [Redirect(SignInPath)];
        return;
      }
      session := lookup.session;
      var user := lookup.session.value.userId;
      effects := effects + [FetchProfile(user)];
      match reply {
        case ProfileFound(p) =>
          profile := Some(p);
        case ProfileFailed(_) =>
          effects := effects + [SignOut];
          effects := effects + [Redirect(SignInPath)];
      }
      loading := false;
    }

    method HandleSignOut()
      modifies this
      ensures State() == SignOutStep(old(State())).state
      ensures effects == old(effects) + SignOutStep(old(State())).effects
    {
      effects := effects + [SignOut];
      effects := effects + [Redirect(SignInPath)];
    }
  }
}
