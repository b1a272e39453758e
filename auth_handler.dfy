// The e-mail shape check of the account handlers
// (internal/handlers/auth/auth_handler.go).
module AuthHandler {
  import opened GoStrings

  /**
   * isValidEmail: an '@' that is not the first character, and the last '.'
   * at least two positions after that first '@' and not the last character.
   */
  predicate IsValidEmail(email: string)
  {
    var at := Index(email, '@');
    if at < 1 then false
    else
      var dot := LastIndex(email, '.');
      dot > at + 1 && dot < |email| - 1
  }

  /**
   * The check spelled out: an '@' after a non-empty local part with no '@'
   * before it, and a last '.' with at least one character between it and
   * that '@' and at least one after it.
   */
  lemma {:induction false} IsValidEmailMeaning(email: string)
    ensures (IsValidEmail(email) <==>
      exists a, d :: 0 < a && a + 1 < d < |email| - 1 && email[a] == '@' && '@' !in email[..a] && email[d] == '.' && '.' !in email[d + 1..])
  {
    var at := Index(email, '@');
    var dot := LastIndex(email, '.');
    if IsValidEmail(email) {
      assert 0 < at && at + 1 < dot < |email| - 1 && email[at] == '@' && '@' !in email[..at] && email[dot] == '.' && '.' !in email[dot + 1..];
    }
    if exists a, d :: 0 < a && a + 1 < d < |email| - 1 && email[a] == '@' && '@' !in email[..a] && email[d] == '.' && '.' !in email[d + 1..] {
      var a, d :| 0 < a && a + 1 < d < |email| - 1 && email[a] == '@' && '@' !in email[..a] && email[d] == '.' && '.' !in email[d + 1..];
      IndexIsFirst(email, '@', a);
      LastIndexIsLast(email, '.', d);
    }
  }

  /** The position of the first occurrence is the one Index reports. */
  lemma {:induction false} IndexIsFirst(s: string, c: char, a: int)
    requires 0 <= a < |s| && s[a] == c && c !in s[..a]
    ensures Index(s, c) == a
  {
    assert s[a] == c;
  }

  /** The position of the last occurrence is the one LastIndex reports. */
  lemma {:induction false} LastIndexIsLast(s: string, c: char, d: int)
    requires 0 <= d < |s| && s[d] == c && c !in s[d + 1..]
    ensures LastIndex(s, c) == d
  {
    assert s[d] == c;
  }

  /** The examples: a shortest accepted address and the three ways it can be broken. */
  lemma {:induction false} IsValidEmailExamples()
    ensures IsValidEmail("a@b.c")
    ensures !IsValidEmail("@b.c")
    ensures !IsValidEmail("a@.c")
    ensures !IsValidEmail("a@b.")
  {
    assert Index("a@b.c", '@') == 1 by { IndexIsFirst("a@b.c", '@', 1); }
    assert LastIndex("a@b.c", '.') == 3;
    assert Index("@b.c", '@') == 0;
    assert Index("a@.c", '@') == 1 by { IndexIsFirst("a@.c", '@', 1); }
    assert LastIndex("a@.c", '.') == 2;
    assert Index("a@b.", '@') == 1 by { IndexIsFirst("a@b.", '@', 1); }
    assert LastIndex("a@b.", '.') == 3;
  }
}
