/**
 * The client-side session workflow: the thunks that register, log in,
 * reload, log out and delete an account. Each one dispatches actions to the
 * store in order, may write or clear the token kept in local storage under
 * `'express-token'`, and may navigate. Network calls are given as their
 * outcomes.
 */
module AuthActions {
  import opened Wrappers

  const FallbackMessage := "Something went wrong!"

  /** The user record `/auth/current-user` answers with. */
  datatype User = User(id: nat, name: string, email: string)

  /**
   * The outcome of one HTTP call: the `data` field of a 2xx reply, or a
   * rejection whose reply body may carry an `errors` list.
   */
  datatype Response<T> = Ok(data: T) | Rejected(errors: Option<seq<string>>)

  /** The actions these thunks dispatch; `None` payloads stand for `null`/`undefined`. */
  datatype Action =
    | ToggleAuthLoading(on: bool)
    | Register(registered: Option<User>)
    | Login(loggedIn: Option<User>)
    | Authenticate(known: User)
    | Logout
    | DeleteAccount
    | SetAuthError(message: Option<string>)

  /**
   * The message a failed call reports: the first entry of the reply's
   * `errors` list when the list is there, the fallback otherwise. An empty
   * list is present but has no first entry, so the message is `undefined`.
   */
  function ErrorMessage(errors: Option<seq<string>>): (m: Option<string>)
    ensures errors.None? ==> m == Some(FallbackMessage)
    ensures errors.Some? ==> (m.Some? <==> |errors.value| > 0)
    ensures errors.Some? && m.Some? ==> m.value == errors.value[0]
  {
    match errors
    case None => Some(FallbackMessage)
    case Some(list) => if |list| > 0 then Some(list[0]) else None
  }

  /** `getCurrentUser`: the user the call returns, and `null` for any failure. */
  function CurrentUser(outcome: Response<Option<User>>): (u: Option<User>)
    ensures u.Some? ==> outcome == Ok(u)
    ensures outcome.Ok? ==> u == outcome.data
  {
    match outcome
    case Ok(user) => user
    case Rejected(_) => None
  }

  /**
   * One observable step of a thunk, in the order it happens: an action
   * dispatched to the store, a write or removal of the stored token, a
   * request to the auth API (`verb` and `route`), a current-user request
   * (with the token it carries), a navigation.
   */
  datatype Effect =
    | Dispatched(action: Action)
    | Saved(saved: string)
    | Removed
    | Requested(verb: string, route: string)
    | AskedWhoAmI(sent: Option<string>)
    | Pushed(path: string)

  /**
   * The browser side of the workflow: the token cell in local storage
   * under `'express-token'`, and the log, in order, of the dispatches, token
   * writes, requests and navigations so far.
   */
  class Session {
    var token: Option<string>
    var effects: seq<Effect>

    constructor (stored: Option<string>)
      ensures token == stored && effects == []
    {
      token := stored;
      effects := [];
    }

    method Dispatch(a: Action)
      modifies this`effects
      ensures effects == old(effects) + [Dispatched(a)]
    {
      effects := effects + [Dispatched(a)];
    }

    /** `history.push(path)`. */
    /** Send a request; its outcome comes from outside. */
    method Request(verb: string, route: string)
      modifies this`effects
      ensures effects == old(effects) + [Requested(verb, route)]
    {
      effects := effects + [Requested(verb, route)];
    }

    method Navigate(path: string)
      modifies this`effects
      ensures effects == old(effects) + [Pushed(path)]
    {
      effects := effects + [Pushed(path)];
    }

    /** `saveTokenToLocalStorage`. */
    method SaveToken(t: string)
      modifies this
      ensures token == Some(t)
      ensures effects == old(effects) + [Saved(t)]
    {
      token := Some(t);
      effects := effects + [Saved(t)];
    }

    /** `getTokenFromLocalStorage`: whatever is stored, `null` when nothing is. */
    method GetToken() returns (t: Option<string>)
      ensures t == token
    {
      t := token;
    }

    /** `removeTokenFromLocalStorage`. */
    method RemoveToken()
      modifies this
      ensures token == None
      ensures effects == old(effects) + [Removed]
    {
      token := None;
      effects := effects + [Removed];
    }

    /** Saving then reading the token gives it back; removing then reading gives `null`. */
    method TokenRoundTrip(t: string) returns (afterSave: Option<string>, afterRemove: Option<string>)
      modifies this
      ensures afterSave == Some(t) && afterRemove == None && token == None
      ensures effects == old(effects) + [Saved(t), Removed]
    {
      SaveToken(t);
      afterSave := GetToken();
      RemoveToken();
      afterRemove := GetToken();
    }

    /**
     * `getCurrentUser`: GET /auth/current-user carrying the stored token.
     * `whoAmI` is that endpoint as a function of the token it receives.
     */
    method FetchCurrentUser(whoAmI: Option<string> -> Response<Option<User>>) returns (user: Option<User>)
      modifies this`effects
      ensures user == CurrentUser(whoAmI(token))
      ensures effects == old(effects) + [AskedWhoAmI(token)]
    {
      effects := effects + [AskedWhoAmI(token)];
      user := CurrentUser(whoAmI(token));
    }

    /**
     * `register` and `login` share one shape: post the form, keep the token,
     * ask who is logged in with that token, report the user, go home.
     */
    method SignIn(route: string, post: Response<string>, whoAmI: Option<string> -> Response<Option<User>>,
                  done: Option<User> -> Action) returns (user: Option<User>)
      modifies this
      ensures post.Ok? ==>
        token == Some(post.data) &&
        user == CurrentUser(whoAmI(Some(post.data))) &&
        effects == old(effects) + [Dispatched(ToggleAuthLoading(true)), Requested("POST", route),
                                   Saved(post.data), AskedWhoAmI(Some(post.data)),
                                   Dispatched(done(user)), Pushed("/")]
      ensures post.Rejected? ==>
        token == old(token) && user.None? &&
        effects == old(effects) + [Dispatched(ToggleAuthLoading(true)), Requested("POST", route),
                                   Dispatched(SetAuthError(ErrorMessage(post.errors)))]
    {
      user := None;
      Dispatch(ToggleAuthLoading(true));
      Request("POST", route);
      match post
      case Rejected(errors) =>
        Dispatch(SetAuthError(ErrorMessage(errors)));
      case Ok(t) =>
        SaveToken(t);
        user := FetchCurrentUser(whoAmI);
        Dispatch(done(user));
        Navigate("/");
    }

    /** `register`: POST /auth/register, then as `SignIn` with a `REGISTER` action. */
    method Register(post: Response<string>, whoAmI: Option<string> -> Response<Option<User>>)
      modifies this
      ensures post.Ok? ==>
        token == Some(post.data) &&
        effects == old(effects) + [Dispatched(ToggleAuthLoading(true)), Requested("POST", "/auth/register"),
                                   Saved(post.data), AskedWhoAmI(Some(post.data)),
                                   Dispatched(Action.Register(CurrentUser(whoAmI(Some(post.data))))),
                                   Pushed("/")]
      ensures post.Rejected? ==>
        token == old(token) &&
        effects == old(effects) + [Dispatched(ToggleAuthLoading(true)), Requested("POST", "/auth/register"),
                                   Dispatched(SetAuthError(ErrorMessage(post.errors)))]
    {
      var _ := SignIn("/auth/register", post, whoAmI, u => Action.Register(u));
    }

    /** `login`: POST /auth/login, then as `SignIn` with a `LOGIN` action. */
    method Login(post: Response<string>, whoAmI: Option<string> -> Response<Option<User>>)
      modifies this
      ensures post.Ok? ==>
        token == Some(post.data) &&
        effects == old(effects) + [Dispatched(ToggleAuthLoading(true)), Requested("POST", "/auth/login"),
                                   Saved(post.data), AskedWhoAmI(Some(post.data)),
                                   Dispatched(Action.Login(CurrentUser(whoAmI(Some(post.data))))),
                                   Pushed("/")]
      ensures post.Rejected? ==>
        token == old(token) &&
        effects == old(effects) + [Dispatched(ToggleAuthLoading(true)), Requested("POST", "/auth/login"),
                                   Dispatched(SetAuthError(ErrorMessage(post.errors)))]
    {
      var _ := SignIn("/auth/login", post, whoAmI, u => Action.Login(u));
    }

    /** `loadUser`: authenticate from the stored token if the server knows it; never an error. */
    method LoadUser(whoAmI: Option<string> -> Response<Option<User>>)
      modifies this`effects
      ensures CurrentUser(whoAmI(token)).Some? ==>
        effects == old(effects) + [Dispatched(ToggleAuthLoading(true)), AskedWhoAmI(token),
                                   Dispatched(Authenticate(CurrentUser(whoAmI(token)).value))]
      ensures CurrentUser(whoAmI(token)).None? ==>
        effects == old(effects) + [Dispatched(ToggleAuthLoading(true)), AskedWhoAmI(token),
                                   Dispatched(ToggleAuthLoading(false))]
      ensures forall i :: |old(effects)| <= i < |effects| ==> !(effects[i].Dispatched? && effects[i].action.SetAuthError?)
    {
      Dispatch(ToggleAuthLoading(true));
      var user := FetchCurrentUser(whoAmI);
      if user.Some? {
        Dispatch(Authenticate(user.value));
      } else {
        Dispatch(ToggleAuthLoading(false));
      }
    }

    /** `logout`: clear the token, dispatch `LOGOUT` with no loading toggle, go to the login page. */
    method LogoutUser()
      modifies this
      ensures token == None
      ensures effects == old(effects) + [Removed, Dispatched(Logout), Pushed("/login")]
    {
      RemoveToken();
      Dispatch(Logout);
      Navigate("/login");
    }

    /** `deleteAccount`: the token goes only when the server accepted the deletion. */
    method DeleteAccountWith(outcome: Response<()>)
      modifies this
      ensures outcome.Ok? ==>
        token == None &&
        effects == old(effects) + [Dispatched(ToggleAuthLoading(true)), Requested("DELETE", "/auth/delete"),
                                   Removed, Dispatched(DeleteAccount), Pushed("/register")]
      ensures outcome.Rejected? ==>
        token == old(token) &&
        effects == old(effects) + [Dispatched(ToggleAuthLoading(true)), Requested("DELETE", "/auth/delete"),
                                   Dispatched(SetAuthError(ErrorMessage(outcome.errors)))]
    {
      Dispatch(ToggleAuthLoading(true));
      Request("DELETE", "/auth/delete");
      match outcome
      case Rejected(errors) =>
        Dispatch(SetAuthError(ErrorMessage(errors)));
      case Ok(_) =>
        RemoveToken();
        Dispatch(DeleteAccount);
        Navigate("/register");
    }

    /** `setAuthError`: dispatch the given message as it is. */
    method SetAuthErrorWith(message: string)
      modifies this`effects
      ensures effects == old(effects) + [Dispatched(SetAuthError(Some(message)))]
    {
      Dispatch(SetAuthError(Some(message)));
    }
  }
}
