/** The one piece of browser state the admin pages share: the `isAdmin`
    entry of `localStorage`, kept as an abstract string-valued flag. */
module Browser {
  import opened Wrappers

  const AdminFlagKey: string := "isAdmin"

  /** `localStorage`, restricted to the `isAdmin` entry. */
  class LocalStorage {
    /** `localStorage.getItem("isAdmin")`: null when the entry is absent. */
    var isAdmin: Option<string>

    constructor (initial: Option<string>)
      ensures isAdmin == initial
    {
      isAdmin := initial;
    }
  }
}
