/** The sign-in page: an email and password form whose submit handler checks
    that both are present, sets the loading flag around one password sign-in
    request, and then either navigates to the dashboard or shows an error.

    The handler is given twice: whole (`SignInStep`, the handler run to the
    end with the provider's answer in hand) and cut at its one await
    (`StartStep` and `FinishStep`), which is where the page is visible with
    loading set and its submit button disabled. */
module SignInPage {
  import opened Gateway

  const RequiredText := "Email and password are required."
  const FallbackText := "An error occurred during sign-in. Please check your credentials and try again."

  /** The provider's answer to a password sign-in. A failure whose thrown value
      is not an Error, or is an Error with an empty message, has empty text. */
  datatype AuthReply = AuthOk | AuthFailed(message: string)

  /** What the page asks of the outside world. */
  datatype Effect =
    | SignInWithPassword(email: string, password: string)
    | Navigate(path: string)

  datatype FormState = FormState(email: string, password: string, error: string, loading: bool)

  /** The state the page is created with. */
  const Initial := FormState("", "", "", false)

  /** What a step did: the state it left and the effects it issued, in order. */
  datatype Step = Step(state: FormState, effects: seq<Effect>)

  /** The presence check: either field is the empty string. */
  predicate MissingCredentials(s: FormState) {
    s.email == "" || s.password == ""
  }

  /** The error shown for a failed sign-in: the provider's text when it has
      any, the fixed fallback otherwise; never empty. */
  function FailureText(message: string): (t: string)
    ensures t != ""
    ensures message != "" ==> t == message
    ensures message == "" ==> t == FallbackText
  {
    if message != "" then message else FallbackText
  }

  /** The submit handler, run to its end. */
  function SignInStep(s: FormState, reply: AuthReply): (r: Step)
    ensures r.state.email == s.email && r.state.password == s.password
    // missing credentials: the required-fields message and no request; loading untouched
    ensures MissingCredentials(s) ==>
      r.effects == [] && r.state.error == RequiredText && r.state.loading == s.loading
    // otherwise one sign-in request with the form's credentials, and loading off at the end
    ensures !MissingCredentials(s) ==>
      && |r.effects| >= 1
      && r.effects[0] == SignInWithPassword(s.email, s.password)
      && !r.state.loading
    // success: the error stays cleared and the page goes to the dashboard
    ensures !MissingCredentials(s) && reply.AuthOk? ==>
      r.effects[1..] == [Navigate(DashboardPath)] && r.state.error == ""
    // failure: no navigation, and the error chosen from the provider's text
    ensures !MissingCredentials(s) && reply.AuthFailed? ==>
      |r.effects| == 1 && r.state.error == FailureText(reply.message)
  {
    var cleared := s.(error := "");
    if MissingCredentials(cleared) then
      Step(cleared.(error := RequiredText), [])
    else
      var request := [SignInWithPassword(cleared.email, cleared.password)];
      var waiting := cleared.(loading := true);
      match reply
      case AuthOk =>
        Step(waiting.(loading := false), request + [Navigate(DashboardPath)])
      case AuthFailed(message) =>
        Step(waiting.(error := FailureText(message), loading := false), request)
  }

  /** The handler up to its await: a request goes out only with loading set,
      and the error is cleared or set to the required-fields message. */
  function StartStep(s: FormState): (r: Step)
    ensures r.state.email == s.email && r.state.password == s.password
    ensures r.effects == [] || r.effects == [SignInWithPassword(s.email, s.password)]
    ensures r.effects == [] <==> MissingCredentials(s)
    ensures r.effects != [] ==> r.state.loading && r.state.error == ""
    ensures r.effects == [] ==> r.state == s.(error := RequiredText)
  {
    if MissingCredentials(s) then Step(s.(error := RequiredText), [])
    else Step(s.(error := "", loading := true), [SignInWithPassword(s.email, s.password)])
  }

  /** The handler after its await: loading ends whatever the answer. */
  function FinishStep(s: FormState, reply: AuthReply): (r: Step)
    ensures !r.state.loading
    ensures r.state.email == s.email && r.state.password == s.password
    ensures reply.AuthOk? ==> r.effects == [Navigate(DashboardPath)] && r.state.error == s.error
    ensures reply.AuthFailed? ==> r.effects == [] && r.state.error == FailureText(reply.message)
  {
    match reply
    case AuthOk => Step(s.(loading := false), [Navigate(DashboardPath)])
    case AuthFailed(message) => Step(s.(error := FailureText(message), loading := false), [])
  }

  /** Cutting the handler at its await changes nothing: the two halves run
      back to back do what the whole handler does. */
  lemma SplitAtAwait(s: FormState, reply: AuthReply)
    ensures var start := StartStep(s);
      SignInStep(s, reply) ==
        if start.effects == [] then start
        else
          var finish := FinishStep(start.state, reply);
          Step(finish.state, start.effects + finish.effects)
  {
  }

  /** The submit button is disabled while loading is set. */
  predicate SubmitEnabled(s: FormState) {
    !s.loading
  }

  /** What can happen to the page: typing, a submit, and the provider's answer
      to the request in flight. */
  datatype Event =
    | TypeEmail(email: string)
    | TypePassword(password: string)
    | Submit
    | Answer(reply: AuthReply)

  /** One event. A submit while the button is disabled does nothing, and an
      answer arrives only while a request is in flight. */
  function Apply(s: FormState, e: Event): (r: Step)
    ensures e.Submit? && !SubmitEnabled(s) ==> r == Step(s, [])
  {
    match e
    case TypeEmail(v) => Step(s.(email := v), [])
    case TypePassword(v) => Step(s.(password := v), [])
    case Submit => if SubmitEnabled(s) then StartStep(s) else Step(s, [])
    case Answer(reply) => if s.loading then FinishStep(s, reply) else Step(s, [])
  }

  function Run(s: FormState, es: seq<Event>): Step
    decreases |es|
  {
    if es == [] then Step(s, [])
    else
      var first := Apply(s, es[0]);
      var rest := Run(first.state, es[1..]);
      Step(rest.state, first.effects + rest.effects)
  }

  /** The number of sign-in requests among some effects. */
  function Requests(effects: seq<Effect>): nat
    decreases |effects|
  {
    if effects == [] then 0
    else (if effects[0].SignInWithPassword? then 1 else 0) + Requests(effects[1..])
  }

  /** The number of answers a run consumes. */
  function Answered(s: FormState, es: seq<Event>): nat
    decreases |es|
  {
    if es == [] then 0
    else (if es[0].Answer? && s.loading then 1 else 0) + Answered(Apply(s, es[0]).state, es[1..])
  }

  lemma {:induction false} RequestsAppend(a: seq<Effect>, b: seq<Effect>)
    ensures Requests(a + b) == Requests(a) + Requests(b)
    decreases |a|
  {
    if a == [] {
      assert a + b == b;
    } else {
      assert (a + b)[0] == a[0];
      assert (a + b)[1..] == a[1..] + b;
      RequestsAppend(a[1..], b);
    }
  }

  /** The loading flag counts the requests in flight: over any run, the
      requests sent and the answers consumed differ exactly by the change in
      the flag. */
  lemma {:induction false} LoadingCountsInFlight(s: FormState, es: seq<Event>)
    ensures Requests(Run(s, es).effects) + (if s.loading then 1 else 0)
         == Answered(s, es) + (if Run(s, es).state.loading then 1 else 0)
    decreases |es|
  {
    if es != [] {
      var first := Apply(s, es[0]);
      LoadingCountsInFlight(first.state, es[1..]);
      RequestsAppend(first.effects, Run(first.state, es[1..]).effects);
    }
  }

  /** From a fresh page, at most one sign-in request is ever unanswered, and
      one is unanswered exactly while loading is set. */
  lemma AtMostOneInFlight(es: seq<Event>)
    ensures Requests(Run(Initial, es).effects) <= Answered(Initial, es) + 1
    ensures Run(Initial, es).state.loading <==> Requests(Run(Initial, es).effects) == Answered(Initial, es) + 1
  {
    LoadingCountsInFlight(Initial, es);
  }

  /** The page as an object with mutable state. */
  class SignInForm {
    var email: string
    var password: string
    var error: string
    var loading: bool
    /** Every effect issued so far, in order. */
    ghost var effects: seq<Effect>

    function State(): FormState
      reads this
    {
      FormState(email, password, error, loading)
    }

    constructor ()
      ensures State() == Initial && effects == []
    {
      email := "";
      password := "";
      error := "";
      loading := false;
      effects := [];
    }

    method SetEmail(value: string)
      modifies this
      ensures State() == old(State()).(email := value)
      ensures effects == old(effects)
    {
      email := value;
    }

    method SetPassword(value: string)
      modifies this
      ensures State() == old(State()).(password := value)
      ensures effects == old(effects)
    {
      password := value;
    }

    method HandleSignIn(reply: AuthReply)
      modifies this
      ensures State() == SignInStep(old(State()), reply).state
      ensures effects == old(effects) + SignInStep(old(State()), reply).effects
    {
      error := "";
      if email == "" || password == "" {
        error := RequiredText;
        return;
      }
      loading := true;
      effects := effects + [SignInWithPassword(email, password)];
      match reply {
        case AuthOk =>
          effects := effects + [Navigate(DashboardPath)];
        case AuthFailed(message) =>
          error := if message != "" then message else FallbackText;
      }
      loading := false;
    }
  }
}
