/** The Google sign-in handler of the login page. The popup, the login
    mutation and the user lookup are inputs: each either returns a value
    or rejects (throws). */
module Login {
  import opened Js
  import opened Types

  /** The identity the popup returns. */
  datatype FirebaseUser = FirebaseUser(
    uid: string,
    displayName: Option<string>,
    email: Option<string>,
    photoURL: Option<string>)

  /** `signInWithPopup`: rejects, or resolves with a possibly missing user. */
  datatype PopupOutcome = PopupRejected | PopupResolved(user: Option<FirebaseUser>)

  datatype MessageResponse = MessageResponse(message: string)
  datatype ErrorPayload = ErrorPayload(message: Option<string>)
  datatype QueryError = QueryError(data: Option<ErrorPayload>)

  /** `login(userData)`: rejects, or resolves with a result whose `data` and
      `error` are each None when the key is absent or its value is falsy. */
  datatype LoginOutcome =
    | LoginRejected
    | LoginResolved(data: Option<MessageResponse>, error: Option<QueryError>)

  datatype UserResponse = UserResponse(user: Option<User>)

  /** `getUser(uid)`: rejects, or resolves with a possibly missing response. */
  datatype GetUserOutcome = GetUserRejected | GetUserResolved(response: Option<UserResponse>)

  datatype Toast = SuccessToast(message: string) | ErrorToast(message: string)
  datatype AuthAction = UserExist(user: User) | UserNotExist
  datatype AuthState = Unresolved | SignedIn(user: User) | SignedOut

  /** The calls the handler makes to the API. */
  datatype Request = LoginRequest(userData: User) | GetUserRequest(uid: string)

  const AuthFailedMessage := "User authentication failed"
  const GenericErrorMessage := "An error occurred"
  const UnexpectedErrorMessage := "An unexpected error occurred"
  const SignInFailedMessage := "Sign In Failed"
  const UnknownValue := "Unknown"

  /** The record sent to `login`: nullish identity fields get defaults,
      the form's gender and date are copied, the role is always "user". */
  function UserData(fu: FirebaseUser, gender: string, dob: string): (u: User)
    ensures u.id == fu.uid && u.role == "user" && u.gender == gender && u.dob == dob
    ensures fu.displayName.Some? ==> u.name == fu.displayName.value
    ensures fu.displayName.None? ==> u.name == UnknownValue
    ensures fu.email.Some? ==> u.email == fu.email.value
    ensures fu.email.None? ==> u.email == UnknownValue
    ensures fu.photoURL.Some? ==> u.photo == fu.photoURL.value
    ensures fu.photoURL.None? ==> u.photo == ""
  {
    User(Coalesce(fu.displayName, UnknownValue), Coalesce(fu.email, UnknownValue),
         Coalesce(fu.photoURL, ""), gender, "user", dob, fu.uid)
  }

  /** `error.data?.message ?? "An error occurred"` */
  function ErrorText(e: QueryError): (m: string)
    ensures e.data.Some? && e.data.value.message.Some? ==> m == e.data.value.message.value
    ensures e.data.None? || e.data.value.message.None? ==> m == GenericErrorMessage
  {
    match e.data
    case Some(payload) => Coalesce(payload.message, GenericErrorMessage)
    case None => GenericErrorMessage
  }

  /** The three shapes the handler tells apart in a login result. */
  datatype Shape = DataShape(message: string) | ErrorShape(message: string) | OtherShape

  function Classify(data: Option<MessageResponse>, error: Option<QueryError>): (s: Shape)
    ensures s.DataShape? <==> data.Some?
    ensures data.Some? ==> s.message == data.value.message
    ensures s.ErrorShape? <==> data.None? && error.Some?
    ensures s.ErrorShape? ==> s.message == ErrorText(error.value)
    ensures s.OtherShape? <==> data.None? && error.None?
  {
    if data.Some? then DataShape(data.value.message)
    else if error.Some? then ErrorShape(ErrorText(error.value))
    else OtherShape
  }

  /** The auth reducer's two actions. */
  function Reduce(s: AuthState, a: AuthAction): (t: AuthState)
    ensures a.UserExist? ==> t == SignedIn(a.user)
    ensures a.UserNotExist? ==> t == SignedOut
  {
    match a
    case UserExist(u) => SignedIn(u)
    case UserNotExist => SignedOut
  }

  /** The state after a sequence of dispatches: the last action decides. */
  function ReduceAll(s: AuthState, actions: seq<AuthAction>): (t: AuthState)
    ensures actions == [] ==> t == s
    ensures actions != [] ==> t == Reduce(s, actions[|actions| - 1])
    decreases actions
  {
    if actions == [] then s else ReduceAll(Reduce(s, actions[0]), actions[1..])
  }

  /** One of the awaited calls (popup, login, lookup) rejected before any
      dispatch, so control reached the catch block from there. */
  predicate Rejected(popup: PopupOutcome, login: LoginOutcome, getUser: GetUserOutcome) {
    || popup.PopupRejected?
    || (popup.PopupResolved? && popup.user.Some? &&
        (|| login.LoginRejected?
         || (login.data.Some? && getUser.GetUserRejected?)))
  }

  /** The try block got past the three-way branch: the popup gave a user
      and no awaited call rejected, so the popup-closing step is reached. */
  predicate ReachesClose(popup: PopupOutcome, login: LoginOutcome, getUser: GetUserOutcome) {
    popup.PopupResolved? && popup.user.Some? && !Rejected(popup, login, getUser)
  }

  /** What one run of the handler adds to the toasts, the dispatches and
      the API requests, in order. */
  datatype Effects = Effects(toasts: seq<Toast>, dispatches: seq<AuthAction>, requests: seq<Request>)

  /** The catch block: whatever the try block did stays, and one error
      toast follows. */
  function Caught(e: Effects): (c: Effects)
    ensures c.toasts == e.toasts + [ErrorToast(SignInFailedMessage)]
    ensures c.dispatches == e.dispatches && c.requests == e.requests
  {
    Effects(e.toasts + [ErrorToast(SignInFailedMessage)], e.dispatches, e.requests)
  }

  /** The reference definition of one run of the handler. `closeFails`
      says that the popup-closing step after the dispatch throws. */
  function HandlerEffects(popup: PopupOutcome, gender: string, dob: string,
                          login: LoginOutcome, getUser: GetUserOutcome, closeFails: bool): (e: Effects)
    ensures popup == PopupResolved(None) ==> e == Effects([ErrorToast(AuthFailedMessage)], [], [])
    ensures popup.PopupRejected? ==> e == Effects([ErrorToast(SignInFailedMessage)], [], [])
    ensures popup.PopupResolved? && popup.user.Some? && login.LoginRejected? ==>
      e == Effects([ErrorToast(SignInFailedMessage)], [],
                   [LoginRequest(UserData(popup.user.value, gender, dob))])
    ensures 1 <= |e.toasts| <= 2 && |e.dispatches| <= 1
    ensures (|e.requests| > 0) <==> popup.PopupResolved? && popup.user.Some?
    ensures popup.PopupResolved? && popup.user.Some? ==>
      e.requests[0] == LoginRequest(UserData(popup.user.value, gender, dob))
    ensures |e.dispatches| == 1 <==> ReachesClose(popup, login, getUser)
    ensures Rejected(popup, login, getUser) ==>
      e.dispatches == [] && e.toasts[|e.toasts| - 1] == ErrorToast(SignInFailedMessage)
    ensures ReachesClose(popup, login, getUser) && closeFails ==>
      |e.dispatches| == 1 && |e.toasts| == 2 && e.toasts[1] == ErrorToast(SignInFailedMessage)
    ensures ReachesClose(popup, login, getUser) && !closeFails ==> |e.toasts| == 1
  {
    match popup
    case PopupRejected =>
      Caught(Effects([], [], []))
    case PopupResolved(None) =>
      Effects([ErrorToast(AuthFailedMessage)], [], [])
    case PopupResolved(Some(fu)) =>
      var loginCall := LoginRequest(UserData(fu, gender, dob));
      match login
      case LoginRejected =>
        Caught(Effects([], [], [loginCall]))
      case LoginResolved(data, error) =>
        var calls := [loginCall, GetUserRequest(fu.uid)];
        if data.Some? && getUser.GetUserRejected? then
          Caught(Effects([SuccessToast(data.value.message)], [], calls))
        else
          var branch :=
            match Classify(data, error)
            case DataShape(message) =>
              (match getUser
               case GetUserResolved(Some(UserResponse(Some(u)))) =>
                 Effects([SuccessToast(message)], [UserExist(u)], calls)
               case _ =>
                 Effects([SuccessToast(message)], [UserNotExist], calls))
            case ErrorShape(message) =>
              Effects([ErrorToast(message)], [UserNotExist], [loginCall])
            case OtherShape =>
              Effects([ErrorToast(UnexpectedErrorMessage)], [UserNotExist], [loginCall]);
          if closeFails then Caught(branch) else branch
  }

  /** A `data` result: the success toast carries its message, the user is
      looked up by uid, and the lookup decides the one dispatch. */
  lemma DataResultOutcome(fu: FirebaseUser, gender: string, dob: string,
                          m: MessageResponse, error: Option<QueryError>, getUser: GetUserOutcome)
    requires getUser.GetUserResolved?
    ensures var e := HandlerEffects(PopupResolved(Some(fu)), gender, dob,
                                    LoginResolved(Some(m), error), getUser, false);
      && e.toasts == [SuccessToast(m.message)]
      && e.requests == [LoginRequest(UserData(fu, gender, dob)), GetUserRequest(fu.uid)]
      && (getUser.response.Some? && getUser.response.value.user.Some? ==>
            e.dispatches == [UserExist(getUser.response.value.user.value)])
      && (getUser.response.None? || getUser.response.value.user.None? ==>
            e.dispatches == [UserNotExist])
  {
  }

  /** An `error` result: its message, or the generic one, and a sign-out. */
  lemma ErrorResultOutcome(fu: FirebaseUser, gender: string, dob: string,
                           err: QueryError, getUser: GetUserOutcome)
    ensures var e := HandlerEffects(PopupResolved(Some(fu)), gender, dob,
                                    LoginResolved(None, Some(err)), getUser, false);
      && e.toasts == [ErrorToast(ErrorText(err))]
      && e.dispatches == [UserNotExist]
      && e.requests == [LoginRequest(UserData(fu, gender, dob))]
  {
  }

  /** Neither `data` nor `error`: the unexpected-error toast and a sign-out. */
  lemma OtherResultOutcome(fu: FirebaseUser, gender: string, dob: string, getUser: GetUserOutcome)
    ensures var e := HandlerEffects(PopupResolved(Some(fu)), gender, dob,
                                    LoginResolved(None, None), getUser, false);
      && e.toasts == [ErrorToast(UnexpectedErrorMessage)]
      && e.dispatches == [UserNotExist]
  {
  }

  /** A lookup that rejects after a successful login keeps the success
      toast and adds the catch block's toast, with no dispatch. */
  lemma LookupRejectionKeepsEarlierToast(fu: FirebaseUser, gender: string, dob: string,
                                         m: MessageResponse, error: Option<QueryError>,
                                         closeFails: bool)
    ensures var e := HandlerEffects(PopupResolved(Some(fu)), gender, dob,
                                    LoginResolved(Some(m), error), GetUserRejected, closeFails);
      && e.toasts == [SuccessToast(m.message), ErrorToast(SignInFailedMessage)]
      && e.dispatches == []
  {
  }

  /** A throw from the popup-closing step comes after the dispatch: the run
      keeps everything the same run without that throw did, and the catch
      toast follows. */
  lemma CloseFailureIsCaught(popup: PopupOutcome, gender: string, dob: string,
                             login: LoginOutcome, getUser: GetUserOutcome)
    requires ReachesClose(popup, login, getUser)
    ensures HandlerEffects(popup, gender, dob, login, getUser, true)
         == Caught(HandlerEffects(popup, gender, dob, login, getUser, false))
  {
  }

  /** The same for a `data` result and a found user: the success toast and
      the dispatch stay, and the catch toast follows. */
  lemma CloseFailureKeepsDispatch(fu: FirebaseUser, gender: string, dob: string,
                                  m: MessageResponse, error: Option<QueryError>, u: User)
    ensures var e := HandlerEffects(PopupResolved(Some(fu)), gender, dob,
                                    LoginResolved(Some(m), error),
                                    GetUserResolved(Some(UserResponse(Some(u)))), true);
      && e.toasts == [SuccessToast(m.message), ErrorToast(SignInFailedMessage)]
      && e.dispatches == [UserExist(u)]
  {
  }

  /** The login page's client-side effects: the toasts shown, the auth
      actions dispatched, the auth state, and the API requests issued. */
  class LoginPage {
    var toasts: seq<Toast>
    var dispatches: seq<AuthAction>
    var auth: AuthState
    var requests: seq<Request>

    constructor (initial: AuthState)
      ensures toasts == [] && dispatches == [] && requests == [] && auth == initial
    {
      toasts, dispatches, requests, auth := [], [], [], initial;
    }

    /** `toast.success` / `toast.error` */
    method ShowToast(t: Toast)
      modifies this
      ensures toasts == old(toasts) + [t]
      ensures dispatches == old(dispatches) && auth == old(auth) && requests == old(requests)
    {
      toasts := toasts + [t];
    }

    /** `dispatch(action)` */
    method Dispatch(a: AuthAction)
      modifies this
      ensures dispatches == old(dispatches) + [a] && auth == Reduce(old(auth), a)
      ensures toasts == old(toasts) && requests == old(requests)
    {
      dispatches := dispatches + [a];
      auth := Reduce(auth, a);
    }

    /** `loginHandler`, with the form's current gender and date of birth;
        `closeFails` says whether closing the popup window throws. */
    method LoginHandler(popup: PopupOutcome, gender: string, dob: string,
                        login: LoginOutcome, getUser: GetUserOutcome, closeFails: bool)
      modifies this
      ensures var e := HandlerEffects(popup, gender, dob, login, getUser, closeFails);
        && toasts == old(toasts) + e.toasts
        && dispatches == old(dispatches) + e.dispatches
        && requests == old(requests) + e.requests
        && auth == ReduceAll(old(auth), e.dispatches)
    {
      var threw := false;
      match popup {
        case PopupRejected =>
          threw := true;
        case PopupResolved(None) =>
          ShowToast(ErrorToast(AuthFailedMessage));
          return;
        case PopupResolved(Some(fu)) =>
          var userData := UserData(fu, gender, dob);
          requests := requests + [LoginRequest(userData)];
          match login {
            case LoginRejected =>
              threw := true;
            case LoginResolved(data, error) =>
              match Classify(data, error) {
                case DataShape(message) =>
                  ShowToast(SuccessToast(message));
                  requests := requests + [GetUserRequest(fu.uid)];
                  match getUser {
                    case GetUserRejected =>
                      threw := true;
                    case GetUserResolved(response) =>
                      if response.Some? && response.value.user.Some? {
                        Dispatch(UserExist(response.value.user.value));
                      } else {
                        Dispatch(UserNotExist);
                      }
                  }
                case ErrorShape(message) =>
                  ShowToast(ErrorToast(message));
                  Dispatch(UserNotExist);
                case OtherShape =>
                  ShowToast(ErrorToast(UnexpectedErrorMessage));
                  Dispatch(UserNotExist);
              }
          }
          // closing the popup window
          if !threw && closeFails {
            threw := true;
          }
      }
      if threw {
        ShowToast(ErrorToast(SignInFailedMessage));
      }
    }
  }
}
