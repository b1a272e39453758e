// Costa Rican identity numbers (internal/utils/cedula.go): cleaning a
// number down to its digits, and recognising a personal (física, 9 digits)
// or a legal-entity (jurídica, 10 digits) number, neither starting with 0.
module CedulaUtils {
  import opened GoStrings

  const CedulaFisica := "fisica"
  const CedulaJuridica := "juridica"

  /** CedulaValidation: a rejected number carries no type and no number. */
  datatype CedulaValidation = CedulaValidation(valid: bool, cedulaType: string, cedula: string)

  const Invalid := CedulaValidation(false, "", "")

  /** The digits of a string, in order: what replacing every `\D` match with "" leaves. */
  function Digits(s: string): (r: string)
    ensures AllDigits(r) && |r| <= |s|
  {
    if s == [] then []
    else if IsDigit(s[0]) then [s[0]] + Digits(s[1..])
    else Digits(s[1..])
  }

  /** Digits works piece by piece. */
  lemma {:induction false} DigitsAppend(a: string, b: string)
    ensures Digits(a + b) == Digits(a) + Digits(b)
  {
    if a == [] {
      assert a + b == b;
    } else {
      assert (a + b)[1..] == a[1..] + b;
      DigitsAppend(a[1..], b);
    }
  }

  /** A string of digits only is its own digits. */
  lemma {:induction false} DigitsOfDigits(s: string)
    requires AllDigits(s)
    ensures Digits(s) == s
  {
    if s != [] {
      DigitsOfDigits(s[1..]);
    }
  }

  /** A string without digits has none to keep. */
  lemma {:induction false} DigitsOfNonDigits(s: string)
    requires forall i :: 0 <= i < |s| ==> !IsDigit(s[i])
    ensures Digits(s) == []
  {
    if s != [] {
      DigitsOfNonDigits(s[1..]);
    }
  }

  /** CleanCedula: the digits of the trimmed string. */
  function CleanCedula(cedula: string): (r: string)
    ensures AllDigits(r) && |r| <= |cedula|
  {
    Digits(TrimSpace(cedula))
  }

  /** Trimming first changes nothing: the white space it removes holds no digits. */
  lemma {:induction false} CleanIsDigits(s: string)
    ensures CleanCedula(s) == Digits(s)
  {
    var k := TrimSpaceIsInfix(s);
    DigitsOfPadded(s, k, |TrimSpace(s)|);
  }

  /** A string padded by white space on both sides has the digits of its middle. */
  lemma {:induction false} DigitsOfPadded(s: string, k: nat, n: nat)
    requires k + n <= |s|
    requires forall i :: 0 <= i < k ==> IsSpace(s[i])
    requires forall i :: k + n <= i < |s| ==> IsSpace(s[i])
    ensures Digits(s) == Digits(s[k..k + n])
  {
    var pre, mid, post := s[..k], s[k..k + n], s[k + n..];
    assert s[k..] == mid + post;
    assert s == pre + mid + post;
    assert forall i :: 0 <= i < |pre| ==> pre[i] == s[i];
    assert forall i :: 0 <= i < |post| ==> post[i] == s[k + n + i];
    SpacesHaveNoDigits(pre);
    SpacesHaveNoDigits(post);
    DigitsAppend(pre + mid, post);
    DigitsAppend(pre, mid);
  }

  /** White space holds no digits. */
  lemma {:induction false} SpacesHaveNoDigits(u: string)
    requires forall i :: 0 <= i < |u| ==> IsSpace(u[i])
    ensures Digits(u) == []
  {
    forall i | 0 <= i < |u| ensures !IsDigit(u[i]) {
      assert IsSpace(u[i]);
    }
    DigitsOfNonDigits(u);
  }

  /** Cleaning twice is cleaning once. */
  lemma {:induction false} CleanIdempotent(s: string)
    ensures CleanCedula(CleanCedula(s)) == CleanCedula(s)
  {
    var c := CleanCedula(s);
    CleanIsDigits(c);
    DigitsOfDigits(c);
  }

  /** The pattern `^[1-9]\d{8}$`. */
  predicate MatchesFisica(c: string)
  {
    |c| == 9 && AllDigits(c) && c[0] != '0'
  }

  /** The pattern `^[1-9]\d{9}$`. */
  predicate MatchesJuridica(c: string)
  {
    |c| == 10 && AllDigits(c) && c[0] != '0'
  }

  /**
   * ValidateCedula: valid exactly when the cleaned number is a física or a
   * jurídica one, with that type and the cleaned number; the empty string
   * is invalid.
   */
  function ValidateCedula(identificacion: string): (v: CedulaValidation)
    ensures identificacion == "" ==> v == Invalid
    ensures v.valid <==> MatchesFisica(CleanCedula(identificacion)) || MatchesJuridica(CleanCedula(identificacion))
    ensures v.valid ==> v.cedula == CleanCedula(identificacion)
    ensures v.valid ==> (v.cedulaType == CedulaFisica <==> |v.cedula| == 9)
    ensures v.valid ==> (v.cedulaType == CedulaJuridica <==> |v.cedula| == 10)
    ensures !v.valid ==> v == Invalid
  {
    if identificacion == "" then Invalid
    else
      var cleaned := CleanCedula(identificacion);
      if MatchesFisica(cleaned) then CedulaValidation(true, CedulaFisica, cleaned)
      else if MatchesJuridica(cleaned) then CedulaValidation(true, CedulaJuridica, cleaned)
      else Invalid
  }

  /** The verdict depends only on the cleaned number. */
  lemma {:induction false} ValidationSeesOnlyDigits(a: string, b: string)
    requires Digits(a) == Digits(b)
    ensures ValidateCedula(a) == ValidateCedula(b)
  {
    CleanIsDigits(a);
    CleanIsDigits(b);
  }

  /** Separators between the digits are ignored. */
  lemma {:induction false} SeparatorsIgnored(a: string, sep: char, b: string)
    requires !IsDigit(sep)
    ensures ValidateCedula(a + [sep] + b) == ValidateCedula(a + b)
  {
    DigitsAppend(a + [sep], b);
    DigitsAppend(a, [sep]);
    DigitsAppend(a, b);
    assert Digits([sep]) == [];
    ValidationSeesOnlyDigits(a + [sep] + b, a + b);
  }

  /** A cleaned number validates like the number it came from. */
  lemma {:induction false} CleanedValidatesAlike(s: string)
    ensures ValidateCedula(CleanCedula(s)) == ValidateCedula(s)
  {
    CleanIsDigits(s);
    CleanIsDigits(CleanCedula(s));
    DigitsOfDigits(CleanCedula(s));
  }

  /** No number is both física and jurídica. */
  lemma {:induction false} TypesExclusive(c: string)
    ensures !(MatchesFisica(c) && MatchesJuridica(c))
  {
  }

  predicate IsCedulaFisica(cedula: string)
  {
    MatchesFisica(CleanCedula(cedula))
  }

  predicate IsCedulaJuridica(cedula: string)
  {
    MatchesJuridica(CleanCedula(cedula))
  }

  /** The two predicates agree with the validation and its type. */
  lemma {:induction false} PredicatesAgreeWithValidation(s: string)
    ensures IsCedulaFisica(s) <==> ValidateCedula(s).valid && ValidateCedula(s).cedulaType == CedulaFisica
    ensures IsCedulaJuridica(s) <==> ValidateCedula(s).valid && ValidateCedula(s).cedulaType == CedulaJuridica
  {
  }
}
