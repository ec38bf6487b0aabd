/**
 * The edge guard in front of the admin pages and the write APIs: a path test, then authentication,
 * then the email allow-list. The JWT lookup is the `token` parameter; the allow-list is passed in.
 */
module Middleware {
  import opened Wrappers
  import Text

  const AdminPathPrefixes: seq<string> := ["/admin", "/api/admin", "/api/properties", "/api/blog", "/api/leads"]

  /** `prefixes.some(prefix => path.startsWith(prefix))`. */
  function AnyPrefix(path: string, prefixes: seq<string>): (r: bool)
    ensures r <==> exists i :: 0 <= i < |prefixes| && Text.StartsWith(path, prefixes[i])
    decreases |prefixes|
  {
    if prefixes == [] then false
    else Text.StartsWith(path, prefixes[0]) || AnyPrefix(path, prefixes[1..])
  }

  predicate IsAdminPath(path: string)
  {
    AnyPrefix(path, AdminPathPrefixes)
  }

  /** The decoded session token; `email` is whatever the token carries. */
  datatype Token = Token(email: Option<string>)

  /** `NextResponse.next()`, or a redirect to `path?reason=…`. */
  datatype Decision = Next | Redirect(path: string, reason: string)

  /** The middleware's decision for one request. */
  function Decide(path: string, token: Option<Token>, adminEmails: seq<string>): (r: Decision)
    ensures !IsAdminPath(path) ==> r == Next
    ensures IsAdminPath(path) && !(token.Some? && Truthy(token.value.email)) ==> r == Redirect("/login", "auth_required")
    ensures IsAdminPath(path) && token.Some? && Truthy(token.value.email) ==>
      (r == Next <==> Text.ToLower(token.value.email.value) in adminEmails)
      && (r != Next ==> r == Redirect("/error", "unauthorized"))
  {
    if !IsAdminPath(path) then Next
    else if token.None? || !(token.value.email.Some? && token.value.email.value != "") then Redirect("/login", "auth_required")
    else
      var email := Text.ToLower(token.value.email.value);
      if email !in adminEmails then Redirect("/error", "unauthorized")
      else Next
  }

  /** Authentication comes first: without an email in the token the answer is never "unauthorized". */
  lemma AuthenticationBeforeAuthorisation(path: string, token: Option<Token>, adminEmails: seq<string>)
    requires token.None? || !Truthy(token.value.email)
    ensures Decide(path, token, adminEmails) != Redirect("/error", "unauthorized")
    ensures Decide(path, token, adminEmails) != Next <==> IsAdminPath(path)
  {
  }

  /** Only the allow-list decides, and only on the lower-cased email: two spellings that differ in case get the same answer. */
  lemma CaseInsensitiveDecision(path: string, e1: string, e2: string, adminEmails: seq<string>)
    requires e1 != "" && e2 != "" && Text.ToLower(e1) == Text.ToLower(e2)
    ensures Decide(path, Some(Token(Some(e1))), adminEmails) == Decide(path, Some(Token(Some(e2))), adminEmails)
  {
  }

  /** The prefix test is plain `startsWith`: "/administrator" and "/api/properties?slug=x" are guarded too. */
  lemma PrefixMatchIsPlainStartsWith()
    ensures IsAdminPath("/administrator")
    ensures IsAdminPath("/api/properties")
    ensures !IsAdminPath("/properties/house-1")
    ensures !IsAdminPath("/")
  {
    assert Text.StartsWith("/administrator", AdminPathPrefixes[0]) by {
      assert "/administrator"[..6] == "/admin";
    }
    assert Text.StartsWith("/api/properties", AdminPathPrefixes[2]);
    assert !Text.StartsWith("/properties/house-1", AdminPathPrefixes[0]) by {
      assert "/properties/house-1"[1] != "/admin"[1];
    }
    assert forall i :: 1 <= i < |AdminPathPrefixes| ==> !Text.StartsWith("/properties/house-1", AdminPathPrefixes[i]) by {
      forall i | 1 <= i < |AdminPathPrefixes| ensures !Text.StartsWith("/properties/house-1", AdminPathPrefixes[i]) {
        assert AdminPathPrefixes[i][1] == 'a';
        assert "/properties/house-1"[1] == 'p';
      }
    }
  }
}
