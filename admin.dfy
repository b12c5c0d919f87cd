/**
 * The administrator session: whether the visitor is logged in, whether the
 * page is in edit mode, and the one flag kept in browser storage so that a
 * login survives a reload.
 */
module Admin {

  const AuthKey: string := "admin_authenticated"
  const AdminPassword: string := "admin123"

  /** The stored value that restores a session at startup. */
  const AuthFlag: string := "true"

  /** At startup a session is restored exactly when the stored flag is the text "true". */
  predicate RestoresSession(storage: map<string, string>) {
    AuthKey in storage && storage[AuthKey] == AuthFlag
  }

  class AdminSession {
    var isAuthenticated: bool
    var isEditMode: bool
    var storage: map<string, string>

    /** Mounting: both flags start false; the stored flag, if it reads "true", logs the visitor back in. */
    constructor Load(saved: map<string, string>)
      ensures isAuthenticated == RestoresSession(saved)
      ensures !isEditMode
      ensures storage == saved
    {
      isAuthenticated := false;
      isEditMode := false;
      storage := saved;
      if AuthKey in saved && saved[AuthKey] == AuthFlag {
        isAuthenticated := true;
      }
    }

    /**
     * Only the literal password "admin123" is accepted; it logs the visitor in
     * and stores the flag. Any other password returns false and changes
     * nothing, so a session already open stays open.
     */
    method Login(password: string) returns (ok: bool)
      modifies this
      ensures ok <==> password == AdminPassword
      ensures ok ==> isAuthenticated && storage == old(storage)[AuthKey := AuthFlag] && RestoresSession(storage)
      ensures ok ==> isEditMode == old(isEditMode)
      ensures !ok ==> isAuthenticated == old(isAuthenticated) && isEditMode == old(isEditMode) && storage == old(storage)
    {
      if password == AdminPassword {
        isAuthenticated := true;
        storage := storage[AuthKey := AuthFlag];
        return true;
      }
      return false;
    }

    /** Logging out clears both flags and removes the stored one, so a reload does not log back in. */
    method Logout()
      modifies this
      ensures !isAuthenticated && !isEditMode
      ensures storage == old(storage) - {AuthKey}
      ensures !RestoresSession(storage)
    {
      isAuthenticated := false;
      isEditMode := false;
      storage := storage - {AuthKey};
    }

    /** Edit mode flips, whether or not anyone is logged in; nothing else changes. */
    method ToggleEditMode()
      modifies this
      ensures isEditMode == !old(isEditMode)
      ensures isAuthenticated == old(isAuthenticated) && storage == old(storage)
    {
      isEditMode := !isEditMode;
    }
  }

  /** Toggling edit mode twice gives back the session exactly as it was. */
  method ToggleTwice(s: AdminSession)
    modifies s
    ensures s.isEditMode == old(s.isEditMode)
    ensures s.isAuthenticated == old(s.isAuthenticated) && s.storage == old(s.storage)
  {
    s.ToggleEditMode();
    s.ToggleEditMode();
  }
}
