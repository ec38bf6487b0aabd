/** The admin check used by the API routes: an exact match against the configured allow-list. */
module RoleGuard {
  import opened Wrappers
  import Text

  /** `isAdmin(email)`; the allow-list is passed in. */
  function IsAdmin(email: Option<string>, adminEmails: seq<string>): (r: bool)
    ensures !Truthy(email) ==> !r
    ensures Truthy(email) ==> (r <==> exists i :: 0 <= i < |adminEmails| && adminEmails[i] == email.value)
  {
    if !(email.Some? && email.value != "") then false
    else email.value in adminEmails
  }

  /** No case folding: an unlisted spelling is refused even when it lower-cases to a listed address. */
  lemma CaseSensitive(adminEmails: seq<string>, e: string, e': string)
    requires e != "" && e in adminEmails && e' !in adminEmails
    requires Text.ToLower(e') == Text.ToLower(e)
    ensures IsAdmin(Some(e), adminEmails)
    ensures !IsAdmin(Some(e'), adminEmails)
  {
  }

  /** With an empty allow-list nobody is an admin. */
  lemma EmptyListRefusesAll(email: Option<string>)
    ensures !IsAdmin(email, [])
  {
  }
}
