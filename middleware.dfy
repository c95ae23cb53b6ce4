/** The `authorized` callback of the route middleware (src/middleware.ts). */
module Middleware {
  import opened Wrappers
  import opened Strings

  /** The session token; `role` is the claim the callback reads. */
  datatype Token = Token(role: Option<string>)

  predicate IsAdminPath(path: string) { StartsAt(path, "/admin", 0) }

  predicate IsSignedInPath(path: string)
  {
    path == "/orders" || path == "/cart" || StartsAt(path, "/checkout", 0)
  }

  function Authorized(path: string, token: Option<Token>): bool
  {
    if IsAdminPath(path) then token.Some? && token.value.role == Some("ADMIN")
    else if IsSignedInPath(path) then token.Some?
    else true
  }

  /** No path is both an admin path and a signed-in path, so checking the
      admin rule first never hides the signed-in rule. */
  lemma RulesAreDisjoint(path: string)
    ensures !(IsAdminPath(path) && IsSignedInPath(path))
  {
    if IsAdminPath(path) {
      assert path[1] == 'a';
    }
  }

  /** The three rules, each on its own: admin paths need the ADMIN role,
      every signed-in path needs a token, every other path is open. */
  lemma AuthorizedRules(path: string, token: Option<Token>)
    ensures IsAdminPath(path) ==> (Authorized(path, token) <==> token.Some? && token.value.role == Some("ADMIN"))
    ensures IsSignedInPath(path) ==> (Authorized(path, token) <==> token.Some?)
    ensures !IsAdminPath(path) && !IsSignedInPath(path) ==> Authorized(path, token)
  {
    RulesAreDisjoint(path);
  }

  /** An anonymous visitor reaches exactly the unprotected paths; an admin
      reaches every path. */
  lemma AccessByToken(path: string)
    ensures !Authorized(path, None) <==> IsAdminPath(path) || IsSignedInPath(path)
    ensures Authorized(path, Some(Token(Some("ADMIN"))))
  {
  }
}
