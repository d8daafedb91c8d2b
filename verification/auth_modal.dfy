/** The sign-in / registration dialog. A submit starts a one-second delay;
    the handler that runs after it sees the mode, the email, the name and
    the user list as they were when the form was submitted. That delayed
    run is kept as the one pending submission and carried out by
    `Complete`. Lower-casing is the host's case mapping, passed in as
    `fold`. */
module AuthModal {
  import opened Seqs
  import opened Types
  import opened AuthContext
  import opened NotificationContext
  import opened DataContext

  const UserNotFound := "Пользователь не найден. Попробуйте admin@mirnito.ru"
  const DefaultUserName := "Пользователь"
  const DefaultAvatarName := "User"

  /** The values the delayed handler works with. */
  datatype Submission = Submission(isLogin: bool, email: string, name: string, users: seq<User>)

  /** The first user whose email equals `email` up to case. */
  function FindUserByEmail(users: seq<User>, email: string, fold: string -> string): (r: Option<User>)
    ensures r.Some? ==> r.value in users && fold(r.value.email) == fold(email)
    ensures r.Some? ==> exists i :: 0 <= i < |users| && users[i] == r.value &&
                          forall j :: 0 <= j < i ==> fold(users[j].email) != fold(email)
    ensures r.None? <==> forall i :: 0 <= i < |users| ==> fold(users[i].email) != fold(email)
  {
    var k := FindIndex(users, (u: User) => fold(u.email) == fold(email));
    if k < 0 then None else Some(users[k])
  }

  /** The seeded administrator can always sign in with the address the
      error message suggests. */
  lemma SeededAdminSignsIn(fold: string -> string)
    ensures FindUserByEmail(InitialUsers, "admin@mirnito.ru", fold) == Some(InitialUsers[0])
  {
  }

  /** A registered address can be used to sign in afterwards: some user
      with that address (up to case) is found, the new one unless an older
      account has the same address. */
  lemma RegisteredUserCanSignIn(users: seq<User>, u: User, fold: string -> string)
    ensures FindUserByEmail(users + [u], u.email, fold).Some?
    ensures FindUserByEmail(users, u.email, fold).None? ==>
              FindUserByEmail(users + [u], u.email, fold) == Some(u)
  {
    var all := users + [u];
    assert all[|users|] == u;
    assert forall j :: 0 <= j < |users| ==> all[j] == users[j];
  }

  /** The account a registration creates. */
  function NewUser(id: string, name: string, email: string): (u: User)
  {
    User(id, if name == "" then DefaultUserName else name, email,
         Some("https://ui-avatars.com/api/?name=" + (if name == "" then DefaultAvatarName else name)
              + "&background=random"),
         None, Some(false), UserRole)
  }

  /** A registered account is an ordinary, unverified one, never nameless. */
  lemma NewUserShape(id: string, name: string, email: string)
    ensures NewUser(id, name, email).role == UserRole
    ensures NewUser(id, name, email).isVerified == Some(false)
    ensures NewUser(id, name, email).name != ""
    ensures name != "" ==> NewUser(id, name, email).name == name
    ensures NewUser(id, name, email).email == email
  {
  }

  class AuthForm {
    var isLogin: bool
    var isLoading: bool
    var name: string
    var email: string
    var password: string
    var error: string
    /** The submission whose delayed handler has not run yet. */
    var pending: Option<Submission>

    /** The spinner shows exactly while a submission is pending. */
    ghost predicate Valid()
      reads this
    {
      isLoading <==> pending.Some?
    }

    constructor ()
      ensures Valid()
      ensures isLogin && !isLoading && pending == None
      ensures name == "" && email == "" && password == "" && error == ""
    {
      isLogin, isLoading := true, false;
      name, email, password, error := "", "", "", "";
      pending := None;
    }

    /** Switches between signing in and registering. */
    method ToggleMode()
      modifies this
      ensures isLogin == !old(isLogin)
      ensures isLoading == old(isLoading) && pending == old(pending)
      ensures name == old(name) && email == old(email) && password == old(password)
      ensures error == old(error)
    {
      isLogin := !isLogin;
    }

    /** Closes the store's dialog and clears the typed fields and the error;
        the mode and a pending submission are left as they are. */
    method CloseModal(auth: AuthStore)
      modifies this, auth
      ensures !auth.isAuthModalOpen && auth.user == old(auth.user) && auth.storage == old(auth.storage)
      ensures email == "" && password == "" && name == "" && error == ""
      ensures isLogin == old(isLogin) && isLoading == old(isLoading) && pending == old(pending)
    {
      auth.CloseAuthModal();
      email, password, name, error := "", "", "", "";
    }

    /** The form is submitted. Nothing happens while the dialog is closed
        (it is not drawn), while a submission is pending (the button is
        disabled), or while a field the current mode requires is empty (the
        browser refuses the form). Otherwise the error is cleared and the
        submission is recorded for the delayed handler. */
    method Submit(auth: AuthStore, data: DataStore)
      requires Valid()
      modifies this
      ensures Valid()
      ensures var accepted := auth.isAuthModalOpen && !old(isLoading) && old(email) != "" &&
                              old(password) != "" && (old(isLogin) || old(name) != "");
              if accepted then
                isLoading && error == "" &&
                pending == Some(Submission(old(isLogin), old(email), old(name), data.users))
              else
                isLoading == old(isLoading) && error == old(error) && pending == old(pending)
      ensures isLogin == old(isLogin) && name == old(name) && email == old(email)
      ensures password == old(password)
    {
      if !auth.isAuthModalOpen || isLoading || email == "" || password == "" || (!isLogin && name == "") {
        return;
      }
      isLoading := true;
      error := "";
      pending := Some(Submission(isLogin, email, name, data.users));
    }

    /** The delayed handler runs. Signing in looks the address up in the
        user list as it was at submit time: a match is signed in and the
        dialog closes; otherwise the error is shown and the signed-in user
        is left as it was.
        Registering always creates a new account (no check that the address
        is new), registers it, signs it in and closes the dialog. */
    method Complete(auth: AuthStore, data: DataStore, now: nat, fold: string -> string)
      requires Valid() && pending.Some? && data.Valid()
      modifies this, auth, data
      ensures Valid() && !isLoading && pending == None
      ensures data.Valid()
      ensures var s := old(pending.value);
              s.isLogin ==>
                data.users == old(data.users) &&
                match FindUserByEmail(s.users, s.email, fold)
                case Some(u) =>
                  auth.user == Some(u) && !auth.isAuthModalOpen &&
                  auth.storage == old(auth.storage)[StorageKey := u] &&
                  email == "" && password == "" && name == "" && error == ""
                case None =>
                  auth.user == old(auth.user) && auth.storage == old(auth.storage) &&
                  auth.isAuthModalOpen == old(auth.isAuthModalOpen) &&
                  error == UserNotFound && email == old(email) && password == old(password) &&
                  name == old(name)
      ensures var s := old(pending.value);
              !s.isLogin ==>
                var u := NewUser(Stamp(now), s.name, s.email);
                data.users == old(data.users) + [u] &&
                auth.user == Some(u) && !auth.isAuthModalOpen &&
                auth.storage == old(auth.storage)[StorageKey := u] &&
                email == "" && password == "" && name == "" && error == ""
      ensures isLogin == old(isLogin)
      ensures data.ads == old(data.ads) && data.chats == old(data.chats)
      ensures data.messages == old(data.messages) && data.favorites == old(data.favorites)
      ensures data.pending == old(data.pending)
    {
      var s := pending.value;
      if s.isLogin {
        var found := FindUserByEmail(s.users, s.email, fold);
        match found {
          case Some(u) =>
            auth.Login(u);
            CloseModal(auth);
          case None =>
            error := UserNotFound;
        }
      } else {
        var u := NewUser(Stamp(now), s.name, s.email);
        data.RegisterUser(u);
        auth.Login(u);
        CloseModal(auth);
      }
      isLoading := false;
      pending := None;
    }
  }
}
