/** The identity store: the current user, the flag that opens the sign-in
    dialog, and the browser's local storage, where the signed-in user is
    kept under one key so that a later start of the application restores
    the session. Serialising the record is the identity here. */
module AuthContext {
  import opened Seqs
  import opened Types

  /** The local-storage key of the session snapshot. */
  const StorageKey := "mirnito_user"

  class AuthStore {
    var user: Option<User>
    var isAuthModalOpen: bool
    /** The key/value local storage the application shares with the browser. */
    var storage: map<string, User>

    /** Mounting the store: the user is restored from the snapshot when one
        is stored, and the dialog starts closed. */
    constructor (persisted: map<string, User>)
      ensures storage == persisted
      ensures user == if StorageKey in persisted then Some(persisted[StorageKey]) else None
      ensures !isAuthModalOpen
    {
      storage := persisted;
      isAuthModalOpen := false;
      if StorageKey in persisted {
        user := Some(persisted[StorageKey]);
      } else {
        user := None;
      }
    }

    /** Derived, never stored: a user is signed in exactly when one is set. */
    predicate IsAuthenticated()
      reads this
    {
      user.Some?
    }

    /** Signs `u` in, snapshots it under the storage key and closes the
        dialog; other storage keys are untouched. */
    method Login(u: User)
      modifies this
      ensures user == Some(u) && IsAuthenticated()
      ensures storage == old(storage)[StorageKey := u]
      ensures !isAuthModalOpen
    {
      user := Some(u);
      storage := storage[StorageKey := u];
      isAuthModalOpen := false;
    }

    /** Signs out and erases the snapshot; the dialog flag is left as it is. */
    method Logout()
      modifies this
      ensures user == None && !IsAuthenticated()
      ensures storage == old(storage) - {StorageKey}
      ensures StorageKey !in storage
      ensures isAuthModalOpen == old(isAuthModalOpen)
    {
      user := None;
      storage := storage - {StorageKey};
    }

    method OpenAuthModal()
      modifies this
      ensures isAuthModalOpen
      ensures user == old(user) && storage == old(storage)
    {
      isAuthModalOpen := true;
    }

    method CloseAuthModal()
      modifies this
      ensures !isAuthModalOpen
      ensures user == old(user) && storage == old(storage)
    {
      isAuthModalOpen := false;
    }
  }

  /** A session survives a restart: signing in and then starting the
      application again from the same storage restores the same user. */
  method RestoreAfterLogin(persisted: map<string, User>, u: User) returns (restored: Option<User>)
    ensures restored == Some(u)
  {
    var first := new AuthStore(persisted);
    first.Login(u);
    var second := new AuthStore(first.storage);
    restored := second.user;
  }

  /** After signing out, a restart finds no session. */
  method RestoreAfterLogout(persisted: map<string, User>) returns (restored: Option<User>)
    ensures restored == None
  {
    var first := new AuthStore(persisted);
    first.Logout();
    var second := new AuthStore(first.storage);
    restored := second.user;
  }
}
