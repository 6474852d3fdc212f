/** The mocked authentication state: an optional user record and the four
    operations that replace it. No credentials are checked. */
module AuthContext {
  import opened Wrappers

  /** The signed-in user. */
  datatype User = User(id: string, name: string, email: string, isOnboarded: bool)

  /** Every mock user gets this id. */
  const MockUserId: string := "1"
  /** `login` always signs in under this name. */
  const MockLoginName: string := "Lily Johnson"

  /** The provider's initial state: nobody signed in. */
  const SignedOut: Option<User> := None

  /** `isAuthenticated`: a user is present. */
  predicate IsAuthenticated(user: Option<User>): (signedIn: bool)
    ensures signedIn <==> user != SignedOut
  {
    user.Some?
  }

  /** `login`: signs in a fixed onboarded mock user with the given email.
      The password and the previous state are ignored. */
  function Login(user: Option<User>, email: string, password: string): (next: Option<User>)
    ensures IsAuthenticated(next)
    ensures next.value.email == email && next.value.id == MockUserId
    ensures next.value.name == MockLoginName && next.value.isOnboarded
  {
    Some(User(MockUserId, MockLoginName, email, true))
  }

  /** `signup`: signs in a new, not yet onboarded user with the given name and
      email. The password is ignored. */
  function Signup(user: Option<User>, name: string, email: string, password: string): (next: Option<User>)
    ensures IsAuthenticated(next)
    ensures next.value.name == name && next.value.email == email && next.value.id == MockUserId
    ensures !next.value.isOnboarded
  {
    Some(User(MockUserId, name, email, false))
  }

  /** `logout`: clears the user. */
  function Logout(user: Option<User>): (next: Option<User>)
    ensures !IsAuthenticated(next)
  {
    None
  }

  /** `completeOnboarding`: marks the present user onboarded; without a user
      nothing happens. */
  function CompleteOnboarding(user: Option<User>): (next: Option<User>)
    ensures IsAuthenticated(next) <==> IsAuthenticated(user)
    ensures user.Some? ==>
      && next.value.isOnboarded
      && next.value.id == user.value.id
      && next.value.name == user.value.name
      && next.value.email == user.value.email
  {
    match user
    case None => None
    case Some(u) => Some(u.(isOnboarded := true))
  }

  /** Completing onboarding twice is completing it once. */
  lemma CompleteOnboardingIsIdempotent(user: Option<User>)
    ensures CompleteOnboarding(CompleteOnboarding(user)) == CompleteOnboarding(user)
  {
  }

  /** The password plays no part in logging in. */
  lemma LoginIgnoresPassword(user: Option<User>, email: string, p1: string, p2: string)
    ensures Login(user, email, p1) == Login(user, email, p2)
  {
  }

  /** Signing up under the mock login name and completing onboarding reaches
      the state that logging in with the same email reaches. */
  lemma SignupThenOnboardingMatchesLogin(user: Option<User>, email: string, password: string)
    ensures CompleteOnboarding(Signup(user, MockLoginName, email, password)) == Login(user, email, password)
  {
  }

  /** The operations the provider exposes, as events of the state machine. */
  datatype AuthEvent =
    | LoginEvent(email: string, password: string)
    | SignupEvent(name: string, email: string, password: string)
    | LogoutEvent
    | CompleteOnboardingEvent

  /** The state after one event. */
  function Step(user: Option<User>, event: AuthEvent): Option<User> {
    match event
    case LoginEvent(email, password) => Login(user, email, password)
    case SignupEvent(name, email, password) => Signup(user, name, email, password)
    case LogoutEvent => Logout(user)
    case CompleteOnboardingEvent => CompleteOnboarding(user)
  }

  /** The state after a sequence of events. */
  function Run(user: Option<User>, events: seq<AuthEvent>): Option<User>
    decreases |events|
  {
    if events == [] then user else Run(Step(user, events[0]), events[1..])
  }

  /** Starting signed out, any user that is ever present has the mock id. */
  lemma {:induction false} RunKeepsMockId(user: Option<User>, events: seq<AuthEvent>)
    requires user.Some? ==> user.value.id == MockUserId
    ensures var last := Run(user, events); last.Some? ==> last.value.id == MockUserId
    decreases |events|
  {
    if events != [] {
      RunKeepsMockId(Step(user, events[0]), events[1..]);
    }
  }

  /** After a logout nothing from before it matters: the remaining events
      act as from the signed-out state. */
  lemma {:induction false} LogoutForgetsHistory(user: Option<User>, before: seq<AuthEvent>, after: seq<AuthEvent>)
    ensures Run(user, before + [LogoutEvent] + after) == Run(SignedOut, after)
    decreases |before|
  {
    if before == [] {
      assert before + [LogoutEvent] + after == [LogoutEvent] + after;
      assert ([LogoutEvent] + after)[1..] == after;
    } else {
      LogoutForgetsHistory(Step(user, before[0]), before[1..], after);
      assert (before + [LogoutEvent] + after)[1..] == before[1..] + [LogoutEvent] + after;
    }
  }
}
