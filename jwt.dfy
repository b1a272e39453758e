// Reading the bearer token out of an Authorization header
// (internal/utils/jwt.go, ExtractTokenFromHeader).
module Jwt {
  import opened GoStrings

  const BearerScheme := "Bearer"

  /**
   * ExtractTokenFromHeader: the header is split once at its first space; a
   * first part equal to "Bearer" ignoring case gives the rest, trimmed, and
   * anything else gives "". The token never starts or ends with white space.
   */
  function ExtractTokenFromHeader(authHeader: string): (token: string)
    ensures authHeader == "" ==> token == ""
    ensures ' ' !in authHeader ==> token == ""
    ensures ' ' in authHeader && !EqualFold(SplitN2(authHeader, ' ')[0], BearerScheme) ==> token == ""
    ensures ' ' in authHeader && EqualFold(SplitN2(authHeader, ' ')[0], BearerScheme) ==> token == TrimSpace(SplitN2(authHeader, ' ')[1])
    ensures token == [] || (!IsSpace(token[0]) && !IsSpace(token[|token| - 1]))
  {
    if authHeader == "" then ""
    else
      var parts := SplitN2(authHeader, ' ');
      if |parts| != 2 || !EqualFold(parts[0], BearerScheme) then ""
      else TrimSpace(parts[1])
  }

  /** The first space of a word, a space and a rest is the one after the word. */
  lemma {:induction false} IndexAfterWord(w: string, c: char, rest: string)
    requires c !in w
    ensures Index(w + [c] + rest, c) == |w|
  {
    if w != [] {
      assert (w + [c] + rest)[1..] == w[1..] + [c] + rest;
      IndexAfterWord(w[1..], c, rest);
    }
  }

  /**
   * For a header made of a scheme without spaces, a space and a token: the
   * token, trimmed, when the scheme is "Bearer" in any letter case, and ""
   * otherwise.
   */
  lemma {:induction false} SchemeThenToken(scheme: string, rest: string)
    requires ' ' !in scheme
    ensures ExtractTokenFromHeader(scheme + " " + rest) == (if EqualFold(scheme, BearerScheme) then TrimSpace(rest) else "")
  {
    var h := scheme + " " + rest;
    IndexAfterWord(scheme, ' ', rest);
    assert h[..|scheme|] == scheme;
    assert h[|scheme| + 1..] == rest;
  }
}
