/** The account-settings page: profile fetch, an update form that reports every failing check, and the theme switch. */
module AccountSettings {
  import opened Wrappers
  import opened Validators
  import Session

  const ThemeKey: string := "theme"
  const FetchFailedMessage: string := "Failed to fetch user data. Please try again later."
  const UpdatedMessage: string := "Account updated successfully. You will now be logged out and need to log in again."
  const UpdateFailedMessage: string := "Failed to update account. Please try again."

  /** The body of `PUT /user`; an absent field is `undefined` in the request. */
  datatype UpdateUserRequest = UpdateUserRequest(username: string, email: Option<string>, password: Option<string>)

  /** Backend requests the page issues. */
  datatype Call = FetchUser | UpdateUser(request: UpdateUserRequest)

  /** Position of a field in the order the checks run. */
  function Rank(f: Field): nat
  {
    match f
    case Username => 0
    case Password => 1
    case Email => 2
  }

  /**
   * Every failing check of `saveAccount`, in the order username, password,
   * email; the password is checked only when it is non-empty.
   */
  function SettingsFailures(username: string, password: string, email: string): (failed: seq<Field>)
    ensures |failed| <= 3
    ensures forall i, j :: 0 <= i < j < |failed| ==> Rank(failed[i]) < Rank(failed[j])
    ensures Username in failed <==> !ValidUsername(username)
    ensures Password in failed <==> password != "" && !ValidSettingsPassword(password)
    ensures Email in failed <==> !ValidEmail(email)
  {
    (if ValidUsername(username) then [] else [Username])
    + (if password != "" && !ValidSettingsPassword(password) then [Password] else [])
    + (if ValidEmail(email) then [] else [Email])
  }

  /** An empty password is never reported, whatever the password rule says about it. */
  lemma EmptyPasswordIsNotChecked(username: string, email: string)
    ensures Password !in SettingsFailures(username, "", email)
    ensures !ValidSettingsPassword("")
  {
  }

  /** The messages shown for a list of failed checks, one per check, in the same order. */
  function Messages(failed: seq<Field>): (msgs: seq<string>)
    ensures |msgs| == |failed|
    ensures forall i :: 0 <= i < |failed| ==> msgs[i] == FailureMessage(failed[i])
  {
    if failed == [] then [] else [FailureMessage(failed[0])] + Messages(failed[1..])
  }

  lemma MessagesOfAppend(failed: seq<Field>, f: Field)
    ensures Messages(failed + [f]) == Messages(failed) + [FailureMessage(f)]
  {
  }

  /**
   * The validation block of `saveAccount`: pushes one message per failing
   * check onto an initially empty list.
   */
  method CollectFailures(username: string, password: string, email: string) returns (msgs: seq<string>)
    ensures msgs == Messages(SettingsFailures(username, password, email))
  {
    var usernameFails := !ValidUsername(username);
    var passwordFails := password != "" && !ValidSettingsPassword(password);
    var emailFails := !ValidEmail(email);
    msgs := [];
    // `failed` names the checks behind the messages pushed so far.
    ghost var failed: seq<Field> := [];
    if usernameFails {
      MessagesOfAppend(failed, Username);
      msgs, failed := msgs + [FailureMessage(Username)], failed + [Username];
    }
    assert failed == if usernameFails then [Username] else [];
    if passwordFails {
      MessagesOfAppend(failed, Password);
      msgs, failed := msgs + [FailureMessage(Password)], failed + [Password];
    }
    if emailFails {
      MessagesOfAppend(failed, Email);
      msgs, failed := msgs + [FailureMessage(Email)], failed + [Email];
    }
    assert failed == (if usernameFails then [Username] else [])
      + (if passwordFails then [Password] else []) + (if emailFails then [Email] else []);
  }

  /** The update request `saveAccount` sends: the password only when one was typed. */
  function UpdatePayload(username: string, email: string, password: string): (request: UpdateUserRequest)
    ensures request.username == username && request.email == Some(email)
    ensures request.password == None <==> password == ""
    ensures request.password.Some? ==> request.password.value == password
  {
    UpdateUserRequest(username, Some(email), if password != "" then Some(password) else None)
  }

  /** The value stored under `theme` for a dark-mode setting. */
  function ThemeValue(dark: bool): string
  {
    if dark then "dark" else "light"
  }

  /** The part of the state the theme switch touches: the flag and the browser store. */
  datatype ThemeState = ThemeState(isDarkMode: bool, items: map<string, string>)

  /** `toggleTheme`: flips the flag and records the new theme, leaving every other key alone. */
  function Toggled(s: ThemeState): (t: ThemeState)
    ensures t.isDarkMode == !s.isDarkMode
    ensures ThemeKey in t.items && t.items[ThemeKey] == (if t.isDarkMode then "dark" else "light")
    ensures t.items.Keys == s.items.Keys + {ThemeKey}
    ensures forall k :: k in s.items && k != ThemeKey ==> t.items[k] == s.items[k]
  {
    ThemeState(!s.isDarkMode, s.items[ThemeKey := ThemeValue(!s.isDarkMode)])
  }

  /** The stored theme spells out the flag. */
  predicate ThemeStored(s: ThemeState)
  {
    ThemeKey in s.items && s.items[ThemeKey] == ThemeValue(s.isDarkMode)
  }

  /** Toggling twice restores the flag and records it; when it was already recorded, the whole state is restored. */
  lemma ToggleTwice(s: ThemeState)
    ensures Toggled(Toggled(s)).isDarkMode == s.isDarkMode
    ensures Toggled(Toggled(s)).items == s.items[ThemeKey := ThemeValue(s.isDarkMode)]
    ensures ThemeStored(s) ==> Toggled(Toggled(s)) == s
  {
  }

  class AccountSettingsComponent {
    const auth: Session.AuthService
    const storage: Session.Storage
    /** The user fetched from the backend; None while `user` is undefined. */
    var user: Option<Session.User>
    var email: string
    var password: string
    var isDarkMode: bool
    var errorMessages: seq<string>
    var successMessage: string
    /** Requests issued, oldest first. */
    var calls: seq<Call>
    /** Router targets, oldest first (the two-second delay is not modelled). */
    var navigation: seq<string>

    /** The theme and the token live in the one browser store. */
    constructor (auth: Session.AuthService, storage: Session.Storage)
      requires storage == auth.storage
      ensures this.auth == auth && this.storage == storage
      ensures user == None && email == "" && password == "" && !isDarkMode
      ensures errorMessages == [] && successMessage == ""
      ensures calls == [] && navigation == []
    {
      this.auth := auth;
      this.storage := storage;
      user := None;
      email, password := "", "";
      isDarkMode := false;
      errorMessages, successMessage := [], "";
      calls, navigation := [], [];
    }

    /**
     * `ngOnInit`: reads the theme; without a token goes to `/login` and
     * fetches nothing; otherwise fetches the user (`fetched` is the
     * backend's answer): 401 clears the session and goes to `/login`, any
     * other error sets a single message.
     */
    method NgOnInit(fetched: Response<Session.User>)
      modifies this, auth, auth.storage
      ensures isDarkMode <==> Lookup(old(storage.items), ThemeKey) == Some("dark")
      ensures password == old(password) && successMessage == old(successMessage)
      ensures
        var token := Lookup(old(auth.storage.items), Session.TokenKey);
        && (token.None? || token.value == "" ==>
             && navigation == old(navigation) + ["/login"] && calls == old(calls)
             && user == old(user) && email == old(email) && errorMessages == old(errorMessages)
             && auth.storage.items == old(auth.storage.items) && auth.loggedIn == old(auth.loggedIn))
        && (token.Some? && token.value != "" ==> calls == old(calls) + [FetchUser])
        && (token.Some? && token.value != "" && fetched.Ok? ==>
             && user == Some(fetched.body) && email == fetched.body.email.GetOr("")
             && navigation == old(navigation) && errorMessages == old(errorMessages)
             && auth.storage.items == old(auth.storage.items) && auth.loggedIn == old(auth.loggedIn))
        && (token.Some? && token.value != "" && fetched == Failed(401) ==>
             && auth.storage.items == old(auth.storage.items) - {Session.TokenKey} && !auth.loggedIn
             && navigation == old(navigation) + ["/login"]
             && user == old(user) && email == old(email) && errorMessages == old(errorMessages))
        && (token.Some? && token.value != "" && fetched.Failed? && fetched.status != 401 ==>
             && errorMessages == [FetchFailedMessage]
             && navigation == old(navigation) && user == old(user) && email == old(email)
             && auth.storage.items == old(auth.storage.items) && auth.loggedIn == old(auth.loggedIn))
    {
      isDarkMode := Lookup(storage.items, ThemeKey) == Some("dark");

      var token := auth.GetToken();
      if token.None? || token.value == "" {
        navigation := navigation + ["/login"];
        return;
      }

      calls := calls + [FetchUser];
      match fetched
      case Ok(u) =>
        user := Some(u);
        email := u.email.GetOr("");
      case Failed(status) =>
        if status == 401 {
          auth.ClearLocalAuth();
          navigation := navigation + ["/login"];
        } else {
          errorMessages := [FetchFailedMessage];
        }
    }

    /**
     * `saveAccount`: clears the messages, records every failing check, and
     * only when none failed sends the update (`response` is the backend's
     * answer). Success clears the password and calls `logout()`, whose
     * observable is never subscribed, so the session stays as it was.
     * Without a fetched user the source throws while reading its username;
     * the model stops at that point.
     */
    method SaveAccount(response: Response<()>)
      modifies this, auth, auth.storage
      ensures user == old(user) && email == old(email) && isDarkMode == old(isDarkMode)
      ensures auth.storage.items == old(auth.storage.items) && auth.loggedIn == old(auth.loggedIn)
      ensures user.None? ==>
        && errorMessages == [] && successMessage == "" && password == old(password)
        && calls == old(calls) && navigation == old(navigation)
      ensures user.Some? && SettingsFailures(user.value.username, old(password), email) != [] ==>
        && errorMessages == Messages(SettingsFailures(user.value.username, old(password), email))
        && successMessage == "" && password == old(password)
        && calls == old(calls) && navigation == old(navigation)
      ensures user.Some? && SettingsFailures(user.value.username, old(password), email) == [] ==>
        && calls == old(calls) + [UpdateUser(UpdatePayload(user.value.username, email, old(password)))]
        && (response.Ok? ==>
             && password == "" && successMessage == UpdatedMessage && errorMessages == []
             && navigation == old(navigation) + ["/login"])
        && (response.Failed? ==>
             && errorMessages == [UpdateFailedMessage] && successMessage == ""
             && password == old(password) && navigation == old(navigation))
    {
      errorMessages := [];
      successMessage := "";

      if user.None? {
        return;
      }
      var username := user.value.username;

      errorMessages := CollectFailures(username, password, email);

      if |errorMessages| > 0 {
        return;
      }

      calls := calls + [UpdateUser(UpdatePayload(username, email, password))];
      match response
      case Ok(_) =>
        password := "";
        successMessage := UpdatedMessage;
        auth.Logout(None);
        navigation := navigation + ["/login"];
      case Failed(_) =>
        errorMessages := errorMessages + [UpdateFailedMessage];
    }

    /** `toggleTheme`: flips the flag and stores the matching theme. */
    method ToggleTheme()
      modifies this, storage
      ensures ThemeState(isDarkMode, storage.items) == Toggled(ThemeState(old(isDarkMode), old(storage.items)))
      ensures user == old(user) && email == old(email) && password == old(password)
      ensures errorMessages == old(errorMessages) && successMessage == old(successMessage)
      ensures calls == old(calls) && navigation == old(navigation)
    {
      isDarkMode := !isDarkMode;
      storage.items := storage.items[ThemeKey := if isDarkMode then "dark" else "light"];
    }
  }
}
