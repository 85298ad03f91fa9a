/** The profile/auth reducer (`profileSlice`): the user, the two loading
    flags and the error text. `Reduce` is the reducer as a function of the
    state and the action; the class `ProfileState` is the Immer draft that
    `handlePending`, `handleRejected` and the case reducers assign. */
module ProfileUserSlice {
  import opened Types

  /** `ERROR_MESSAGES.USER_NOT_REGISTERED` and `ERROR_MESSAGES.DEFAULT_ERROR`. */
  const UserNotRegistered := "Пользователь не зарегистрирован"
  const DefaultError := "Ошибка выполнения"

  datatype ProfileSnapshot = ProfileSnapshot(
    user: Option<User>,
    isDataLoading: bool,
    error: Option<string>,
    isLoading: bool)

  const InitialState := ProfileSnapshot(None, false, None, false)

  /** The six thunks whose lifecycle the slice follows. */
  datatype Thunk = GetUser | VerifyUser | UpdateUser | UserRegister | ProfileLogin | UserLogout

  /** A rejection payload is `unknown`: a string, or anything else. */
  datatype Payload = Text(text: string) | NotText

  /** `authChecked` and the thunk lifecycle actions. `Rejected` stands for
      every thunk's rejection, including `userLogout.rejected`, for which the
      slice registers no case. */
  datatype ProfileAction =
    | AuthChecked
    | Pending(thunk: Thunk)
    | Rejected(thunk: Thunk, payload: Payload)
    | GetUserFulfilled(user: User)
    | VerifyUserFulfilled
    | UpdateUserFulfilled(user: User)
    | UserRegisterFulfilled(user: User)
    | ProfileLoginFulfilled(user: User)
    | UserLogoutFulfilled
  {
    predicate RejectionOf(t: Thunk) { Rejected? && thunk == t }

    /** The fulfilled cases that write `user`. */
    predicate SetsUser() {
      GetUserFulfilled? || UpdateUserFulfilled? || UserRegisterFulfilled? || ProfileLoginFulfilled? || UserLogoutFulfilled?
    }
  }

  /** The error text `handleRejected` stores: the payload if it is a string,
      otherwise the default message. */
  function RejectionText(payload: Payload): (r: string)
    ensures r == DefaultError || payload == Text(r)
    ensures payload.Text? ==> r == payload.text
  {
    match payload
    case Text(text) => text
    case NotText => DefaultError
  }

  /** The slice reducer. */
  function Reduce(s: ProfileSnapshot, a: ProfileAction): (r: ProfileSnapshot)
    ensures a.Pending? ==> r.isLoading && r.error == None
    ensures r.isLoading <==> a.Pending? || (s.isLoading && (a.AuthChecked? || a.RejectionOf(UserLogout)))
    ensures r.user != s.user ==> a.SetsUser()
    ensures r.error != s.error ==> a.Pending? || a.Rejected?
    ensures !r.isDataLoading ==> !s.isDataLoading || a.RejectionOf(VerifyUser)
    ensures a.Rejected? && a.thunk !in {VerifyUser, UserLogout} ==> r.error == Some(RejectionText(a.payload))
  {
    match a
    case AuthChecked => s.(isDataLoading := true)
    case Pending(_) => s.(isLoading := true, error := None)
    case Rejected(thunk, payload) =>
      if thunk == VerifyUser then
        s.(isLoading := false, isDataLoading := false, error := Some(UserNotRegistered))
      else if thunk == UserLogout then s
      else s.(isLoading := false, error := Some(RejectionText(payload)))
    case GetUserFulfilled(user) => s.(user := Some(user), isLoading := false, isDataLoading := true)
    case VerifyUserFulfilled => s.(isLoading := false, isDataLoading := true)
    case UpdateUserFulfilled(user) => s.(isLoading := false, user := Some(user))
    case UserRegisterFulfilled(user) => s.(isLoading := false, user := Some(user))
    case ProfileLoginFulfilled(user) => s.(isLoading := false, isDataLoading := true, user := Some(user))
    case UserLogoutFulfilled => s.(isLoading := false, user := None)
  }

  /** The state after dispatching `actions` in order. */
  function Run(s: ProfileSnapshot, actions: seq<ProfileAction>): ProfileSnapshot
    decreases |actions|
  {
    if actions == [] then s else Run(Reduce(s, actions[0]), actions[1..])
  }

  /** A failed logout has no reducer case: the state stays as `pending` left
      it, still loading and with no error. */
  lemma FailedLogoutStaysLoading(s: ProfileSnapshot, p: Payload)
    ensures Run(s, [Pending(UserLogout), Rejected(UserLogout, p)]) == s.(isLoading := true, error := None)
  {
    var actions := [Pending(UserLogout), Rejected(UserLogout, p)];
    assert actions[1..] == [Rejected(UserLogout, p)];
    assert Run(s, actions) == Run(Reduce(s, Pending(UserLogout)), [Rejected(UserLogout, p)]);
  }

  /** Once `isDataLoading` is set, only `verifyUser.rejected` clears it. */
  lemma {:induction false} DataLoadingStaysSet(s: ProfileSnapshot, actions: seq<ProfileAction>)
    requires s.isDataLoading
    requires forall i :: 0 <= i < |actions| ==> !actions[i].RejectionOf(VerifyUser)
    ensures Run(s, actions).isDataLoading
    decreases |actions|
  {
    if actions != [] {
      DataLoadingStaysSet(Reduce(s, actions[0]), actions[1..]);
    }
  }

  /** The user is written only by the fulfilled cases of `getUser`,
      `updateUser`, `userRegister`, `profileLogin` and `userLogout`. */
  lemma {:induction false} UserOnlySetByFulfilled(s: ProfileSnapshot, actions: seq<ProfileAction>)
    requires forall i :: 0 <= i < |actions| ==> !actions[i].SetsUser()
    ensures Run(s, actions).user == s.user
    decreases |actions|
  {
    if actions != [] {
      UserOnlySetByFulfilled(Reduce(s, actions[0]), actions[1..]);
    }
  }

  /** The Immer draft of the slice state. */
  class ProfileState {
    var user: Option<User>
    var isDataLoading: bool
    var error: Option<string>
    var isLoading: bool

    function Snapshot(): ProfileSnapshot
      reads this
    {
      ProfileSnapshot(user, isDataLoading, error, isLoading)
    }

    constructor ()
      ensures Snapshot() == InitialState
    {
      user := None;
      isDataLoading := false;
      error := None;
      isLoading := false;
    }

    /** `selectProfileUser`'s `user`. */
    function SelectUser(): Option<User> reads this { user }

    /** `handlePending`, the case of every thunk's `pending`. */
    method HandlePending()
      modifies this
      ensures isLoading && error == None
      ensures user == old(user) && isDataLoading == old(isDataLoading)
    {
      isLoading := true;
      error := None;
    }

    /** `handleRejected`, the `rejected` case of `getUser`, `updateUser`,
        `userRegister` and `profileLogin`. */
    method HandleRejected(payload: Payload)
      modifies this
      ensures !isLoading
      ensures error == Some(if payload.Text? then payload.text else DefaultError)
      ensures user == old(user) && isDataLoading == old(isDataLoading)
    {
      isLoading := false;
      error := Some(RejectionText(payload));
    }

    method OnAuthChecked()
      modifies this
      ensures isDataLoading
      ensures user == old(user) && error == old(error) && isLoading == old(isLoading)
    {
      isDataLoading := true;
    }

    /** `getUser.fulfilled` and `profileLogin.fulfilled`. */
    method OnUserLoaded(u: User)
      modifies this
      ensures user == Some(u) && !isLoading && isDataLoading
      ensures error == old(error)
    {
      user := Some(u);
      isLoading := false;
      isDataLoading := true;
    }

    /** `updateUser.fulfilled` and `userRegister.fulfilled`. */
    method OnUserStored(u: User)
      modifies this
      ensures user == Some(u) && !isLoading
      ensures isDataLoading == old(isDataLoading) && error == old(error)
    {
      isLoading := false;
      user := Some(u);
    }

    method OnVerifyUserRejected()
      modifies this
      ensures !isLoading && !isDataLoading && error == Some(UserNotRegistered)
      ensures user == old(user)
    {
      isLoading := false;
      isDataLoading := false;
      error := Some(UserNotRegistered);
    }

    method OnVerifyUserFulfilled()
      modifies this
      ensures !isLoading && isDataLoading
      ensures user == old(user) && error == old(error)
    {
      isLoading := false;
      isDataLoading := true;
    }

    method OnUserLogoutFulfilled()
      modifies this
      ensures !isLoading && user == None
      ensures isDataLoading == old(isDataLoading) && error == old(error)
    {
      isLoading := false;
      user := None;
    }

    /** The slice reducer: route the action to its case; an action with no
        case leaves the state as it is. */
    method Dispatch(a: ProfileAction)
      modifies this
      ensures Snapshot() == Reduce(old(Snapshot()), a)
    {
      match a
      case AuthChecked => OnAuthChecked();
      case Pending(_) => HandlePending();
      case Rejected(thunk, payload) =>
        if thunk == VerifyUser {
          OnVerifyUserRejected();
        } else if thunk != UserLogout {
          HandleRejected(payload);
        }
      case GetUserFulfilled(u) => OnUserLoaded(u);
      case VerifyUserFulfilled => OnVerifyUserFulfilled();
      case UpdateUserFulfilled(u) => OnUserStored(u);
      case UserRegisterFulfilled(u) => OnUserStored(u);
      case ProfileLoginFulfilled(u) => OnUserLoaded(u);
      case UserLogoutFulfilled => OnUserLogoutFulfilled();
    }
  }
}
