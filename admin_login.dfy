/** The admin login page: a shared password compared as it was typed; a
    match stores the admin flag and opens the console, anything else shows
    an error that the next keystroke clears. */
module AdminLogin {
  import opened Wrappers
  import opened Browser

  const AdminPassword: string := "admin123"
  const WrongPasswordError: string := "Senha incorreta"
  const AdminFlagOn: string := "true"
  const ConsolePath: string := "/admin"

  /** The page's state; `storage` is the browser's local storage. */
  class LoginPage {
    var password: string
    var error: string
    /** The last `router.push` target, if any. */
    var route: Option<string>
    const storage: LocalStorage

    constructor (storage: LocalStorage)
      ensures this.storage == storage
      ensures password == "" && error == "" && route == None
    {
      this.storage := storage;
      password := "";
      error := "";
      route := None;
    }

    /** The password input: stores what was typed and clears the error. */
    method OnPasswordChange(value: string)
      modifies this
      ensures password == value && error == ""
      ensures route == old(route)
    {
      password := value;
      error := "";
    }

    /** `handleLogin`: exactly "admin123" (no trimming, no case folding)
        sets the flag to "true" and navigates to the console; any other
        password sets the error and leaves the flag alone. */
    method HandleLogin()
      modifies this, storage
      ensures password == old(password)
      ensures password == AdminPassword ==>
        storage.isAdmin == Some(AdminFlagOn) && route == Some(ConsolePath) && error == old(error)
      ensures password != AdminPassword ==>
        storage.isAdmin == old(storage.isAdmin) && route == old(route) && error == WrongPasswordError
    {
      if password == AdminPassword {
        storage.isAdmin := Some(AdminFlagOn);
        route := Some(ConsolePath);
      } else {
        error := WrongPasswordError;
      }
    }
  }

  /** On a fresh page, any password other than exactly "admin123" is
      refused: the error shows and no flag is stored. */
  method NearMissRefused(typed: string) returns (page: LoginPage)
    requires typed != AdminPassword
    ensures page.storage.isAdmin == None && page.error == WrongPasswordError && page.route == None
  {
    var storage := new LocalStorage(None);
    page := new LoginPage(storage);
    page.OnPasswordChange(typed);
    page.HandleLogin();
  }

  /** The comparison is plain equality, so near misses are different
      passwords: changing any one character (its case, say) or adding a
      space before or after gives a string other than "admin123". */
  lemma NearMissesDiffer(k: nat, c: char)
    requires k < |AdminPassword| && c != AdminPassword[k]
    ensures AdminPassword[..k] + [c] + AdminPassword[k + 1..] != AdminPassword
    ensures " " + AdminPassword != AdminPassword && AdminPassword + " " != AdminPassword
  {
    var changed := AdminPassword[..k] + [c] + AdminPassword[k + 1..];
    assert changed[k] == c;
  }
}
