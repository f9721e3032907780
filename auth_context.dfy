/** The client's session state: the signed-in user and subscription, whether the first session
    check is still running, and the copy of both kept in the browser's storage under
    `owls_user`. Every request the provider makes is replaced by its outcome. */
module AuthContext {
  import opened Common
  import opened Http
  import opened Forms

  datatype User = User(id: string, email: string, emailVerified: bool,
                       discordUsername: Option<string>, discordAvatar: Option<string>,
                       createdAt: string, hasPassword: bool)

  /** The subscription as the pages read it; the tier is whatever string the backend sent. */
  datatype Subscription = Subscription(tier: Option<string>, status: string, currentPeriodEnd: Option<string>)

  /** What the storage holds under `owls_user`: a snapshot the provider wrote, or a text that
      reading it as `{user, subscription}` fails on. */
  datatype Stored = Snapshot(user: Option<User>, subscription: Option<Subscription>) | Unreadable(text: string)

  const StorageKey: string := "owls_user"

  /** The body of `/api/auth/me`. */
  datatype MeBody = MeBody(success: bool, user: Option<User>, subscription: Option<Subscription>)

  /** The body of `/api/auth/login`. */
  datatype LoginBody = LoginBody(error: Option<string>, user: Option<User>)

  /** The body of `/api/auth/register`: `details` holds the message of each validation issue. */
  datatype RegisterBody = RegisterBody(error: Option<string>, details: Option<seq<Option<string>>>, user: Option<User>)

  const LoginFailed: string := "Login failed"
  const RegistrationFailed: string := "Registration failed"

  /** `data.details?.[0]?.message`. */
  function FirstDetail(details: Option<seq<Option<string>>>): Option<string> {
    if details.Some? && details.value != [] then details.value[0] else None
  }

  /** The message `register` throws for a refused sign-up: the body's error, else the first
      detail, else the fallback. */
  function RegisterError(body: RegisterBody): (m: string)
    ensures Truthy(body.error) ==> m == body.error.value
    ensures !Truthy(body.error) && Truthy(FirstDetail(body.details)) ==> m == FirstDetail(body.details).value
    ensures !Truthy(body.error) && !Truthy(FirstDetail(body.details)) ==> m == RegistrationFailed
    ensures m != ""
  {
    OrElse(Or(body.error, FirstDetail(body.details)), RegistrationFailed)
  }

  class AuthProvider {
    var user: Option<User>
    var subscription: Option<Subscription>
    var isLoading: bool
    /** The browser's storage for this site. */
    var storage: map<string, Stored>

    constructor(storage: map<string, Stored>)
      ensures user.None? && subscription.None? && isLoading && this.storage == storage
    {
      user := None;
      subscription := None;
      isLoading := true;
      this.storage := storage;
    }

    /** `!!user`. */
    predicate IsAuthenticated()
      reads this
    {
      user.Some?
    }

    /** The mount effect before its session check: a stored snapshot is shown at once, and a
        stored text that cannot be read is removed. An empty text is left alone. */
    method Hydrate()
      modifies this
      ensures isLoading == old(isLoading)
      ensures StorageKey in old(storage) && old(storage)[StorageKey].Snapshot? ==>
        user == old(storage)[StorageKey].user && subscription == old(storage)[StorageKey].subscription &&
        storage == old(storage)
      ensures StorageKey in old(storage) && old(storage)[StorageKey].Unreadable? ==>
        user == old(user) && subscription == old(subscription) &&
        storage == (if old(storage)[StorageKey].text == "" then old(storage) else old(storage) - {StorageKey})
      ensures StorageKey !in old(storage) ==> user == old(user) && subscription == old(subscription) && storage == old(storage)
    {
      if StorageKey in storage {
        match storage[StorageKey] {
          case Snapshot(u, s) =>
            user := u;
            subscription := s;
          case Unreadable(text) =>
            if text != "" {
              storage := storage - {StorageKey};
            }
        }
      }
    }

    /** `validateSession`: an accepted session is shown and stored, a refused one is forgotten,
        and anything else (an answer without `success`, a failed request) changes nothing but
        the loading flag. */
    method ValidateSession(outcome: Outcome<MeBody>)
      modifies this
      ensures !isLoading
      ensures outcome.Ok? && outcome.body.success ==>
        user == outcome.body.user && subscription == outcome.body.subscription &&
        storage == old(storage)[StorageKey := Snapshot(outcome.body.user, outcome.body.subscription)]
      ensures outcome.NotOk? ==> user.None? && subscription.None? && storage == old(storage) - {StorageKey}
      ensures (outcome.Ok? && !outcome.body.success) || outcome.Threw? ==>
        user == old(user) && subscription == old(subscription) && storage == old(storage)
    {
      match outcome {
        case Ok(data) =>
          if data.success {
            user := data.user;
            subscription := data.subscription;
            storage := storage[StorageKey := Snapshot(data.user, data.subscription)];
          }
        case NotOk(_) =>
          user := None;
          subscription := None;
          storage := storage - {StorageKey};
        case Threw(_) =>
      }
      isLoading := false;
    }

    /** `login`: a refused sign-in throws its error and changes nothing; an accepted one shows
        the user and then checks the session again (with the outcome `revalidation`). */
    method Login(response: Outcome<LoginBody>, revalidation: Outcome<MeBody>) returns (c: Completion)
      modifies this
      ensures !response.Ok? ==> unchanged(this)
      ensures response.NotOk? ==> c == ThrewError(OrElse(response.body.error, LoginFailed))
      ensures response.Threw? ==> c == ThrewError(response.message)
      ensures response.Ok? ==> c == Resolved && !isLoading
      ensures response.Ok? && revalidation.Ok? && revalidation.body.success ==>
        user == revalidation.body.user && subscription == revalidation.body.subscription &&
        storage == old(storage)[StorageKey := Snapshot(revalidation.body.user, revalidation.body.subscription)]
      ensures response.Ok? && revalidation.NotOk? ==>
        user.None? && subscription.None? && storage == old(storage) - {StorageKey}
      ensures response.Ok? && ((revalidation.Ok? && !revalidation.body.success) || revalidation.Threw?) ==>
        user == response.body.user && subscription == old(subscription) && storage == old(storage)
    {
      match response {
        case Threw(message) =>
          return ThrewError(message);
        case NotOk(data) =>
          return ThrewError(OrElse(data.error, LoginFailed));
        case Ok(data) =>
          user := data.user;
          ValidateSession(revalidation);
          return Resolved;
      }
    }

    /** `register`: like `login`, with the error composed by `RegisterError`. */
    method Register(response: Outcome<RegisterBody>, revalidation: Outcome<MeBody>) returns (c: Completion)
      modifies this
      ensures !response.Ok? ==> unchanged(this)
      ensures response.NotOk? ==> c == ThrewError(RegisterError(response.body))
      ensures response.Threw? ==> c == ThrewError(response.message)
      ensures response.Ok? ==> c == Resolved && !isLoading
      ensures response.Ok? && revalidation.Ok? && revalidation.body.success ==>
        user == revalidation.body.user && subscription == revalidation.body.subscription &&
        storage == old(storage)[StorageKey := Snapshot(revalidation.body.user, revalidation.body.subscription)]
      ensures response.Ok? && revalidation.NotOk? ==>
        user.None? && subscription.None? && storage == old(storage) - {StorageKey}
      ensures response.Ok? && ((revalidation.Ok? && !revalidation.body.success) || revalidation.Threw?) ==>
        user == response.body.user && subscription == old(subscription) && storage == old(storage)
    {
      match response {
        case Threw(message) =>
          return ThrewError(message);
        case NotOk(data) =>
          return ThrewError(RegisterError(data));
        case Ok(data) =>
          user := data.user;
          ValidateSession(revalidation);
          return Resolved;
      }
    }

    /** `logout`: whatever the logout request does, the session is forgotten here. */
    method Logout()
      modifies this
      ensures user.None? && subscription.None? && !IsAuthenticated()
      ensures storage == old(storage) - {StorageKey} && isLoading == old(isLoading)
    {
      user := None;
      subscription := None;
      storage := storage - {StorageKey};
    }
  }

  /** A page opened again after an accepted session check shows the same user and subscription
      before its own check answers. */
  method ReloadAfterValidation(storage: map<string, Stored>, body: MeBody)
    returns (shownUser: Option<User>, shownSubscription: Option<Subscription>)
    requires body.success
    ensures shownUser == body.user && shownSubscription == body.subscription
  {
    var first := new AuthProvider(storage);
    first.Hydrate();
    first.ValidateSession(Ok(body));
    var second := new AuthProvider(first.storage);
    second.Hydrate();
    shownUser, shownSubscription := second.user, second.subscription;
  }

  /** After a logout, a page opened again shows nobody until its session check answers. */
  method ReloadAfterLogout(storage: map<string, Stored>) returns (signedIn: bool)
    ensures !signedIn
  {
    var first := new AuthProvider(storage);
    first.Hydrate();
    first.Logout();
    var second := new AuthProvider(first.storage);
    second.Hydrate();
    signedIn := second.IsAuthenticated();
  }

  /** A stored text that cannot be read is gone after the next page load. */
  method UnreadableIsDropped(storage: map<string, Stored>, text: string) returns (kept: bool)
    requires text != ""
    ensures !kept
  {
    var p := new AuthProvider(storage[StorageKey := Unreadable(text)]);
    p.Hydrate();
    kept := StorageKey in p.storage;
  }
}
