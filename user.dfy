// The user account predicates of internal/models/user.go: password
// presence, the quote quota (-1 meaning unlimited), the admin role and the
// full display name.
module Users {
  import opened Common

  /** A quota of this value means the user may create any number of quotes. */
  const UnlimitedQuota: int := -1

  /** The account fields the predicates read; identity, metadata and timestamps are not carried. */
  datatype User = User(
    cedula: string,
    cedulaType: string,
    nombre: string,
    apellido: Option<string>,
    email: string,
    telefono: Option<string>,
    passwordHash: Option<string>,
    role: string,
    quoteQuota: int,
    quotesUsed: int,
    activo: bool)
  {
    /** HasPassword: a hash is stored and it is not empty. */
    predicate HasPassword()
    {
      passwordHash.Some? && passwordHash.value != ""
    }

    /** CanQuote: an unlimited quota, or fewer quotes used than allowed. */
    predicate CanQuote()
    {
      quoteQuota == UnlimitedQuota || quotesUsed < quoteQuota
    }

    /** RemainingQuotes: -1 for an unlimited quota, otherwise what is left of it and never negative. */
    function RemainingQuotes(): (n: int)
      ensures quoteQuota == UnlimitedQuota ==> n == -1
      ensures quoteQuota != UnlimitedQuota ==> n >= 0
      ensures quoteQuota != UnlimitedQuota && quotesUsed <= quoteQuota ==> n == quoteQuota - quotesUsed
      ensures quoteQuota != UnlimitedQuota && quotesUsed > quoteQuota ==> n == 0
    {
      if quoteQuota == UnlimitedQuota then -1
      else
        var remaining := quoteQuota - quotesUsed;
        if remaining < 0 then 0 else remaining
    }

    predicate IsAdmin()
    {
      role == "admin"
    }

    /** NombreCompleto: the name, followed by a space and the surname when one is stored and not empty. */
    function NombreCompleto(): (full: string)
      ensures apellido.Some? && apellido.value != "" ==> full == nombre + " " + apellido.value
      ensures apellido.None? || apellido.value == "" ==> full == nombre
    {
      if apellido.Some? && apellido.value != "" then nombre + " " + apellido.value else nombre
    }
  }

  /**
   * For a limited quota the two quota readings agree: the user can quote
   * exactly when some quotes remain. An unlimited quota can always quote.
   */
  lemma {:induction false} QuotaReadingsAgree(u: User)
    ensures u.quoteQuota != UnlimitedQuota ==> (u.CanQuote() <==> u.RemainingQuotes() > 0)
    ensures u.quoteQuota == UnlimitedQuota ==> u.CanQuote() && u.RemainingQuotes() == -1
  {
  }

  /** Using one more quote leaves one fewer, until none remain. */
  lemma {:induction false} UsingAQuote(u: User)
    requires u.quoteQuota != UnlimitedQuota && u.CanQuote()
    ensures u.(quotesUsed := u.quotesUsed + 1).RemainingQuotes() == u.RemainingQuotes() - 1
  {
  }

  /** No password is recorded when the hash is missing or empty. */
  lemma {:induction false} NoPasswordWithoutHash(u: User)
    ensures u.passwordHash.None? ==> !u.HasPassword()
    ensures u.passwordHash == Some("") ==> !u.HasPassword()
  {
  }
}
