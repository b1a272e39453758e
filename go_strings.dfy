// The parts of Go's `strings`, `unicode` and `strconv` packages that the
// quoting engine relies on, over strings as sequences of Unicode code points.
module GoStrings {
  import opened Common

  /** unicode.IsSpace: the Latin-1 spaces and the White_Space code points. */
  predicate IsSpace(c: char)
  {
    c == ' ' || c == '\t' || c == '\n' || c == '\U{0B}' || c == '\U{0C}' || c == '\r'
    || c == '\U{85}' || c == '\U{A0}' || c == '\U{1680}'
    || ('\U{2000}' <= c <= '\U{200A}')
    || c == '\U{2028}' || c == '\U{2029}' || c == '\U{202F}' || c == '\U{205F}' || c == '\U{3000}'
  }

  /** The regular-expression class `\s` of Go's RE2 syntax: `[\t\n\f\r ]`. */
  predicate IsRegexSpace(c: char)
  {
    c == '\t' || c == '\n' || c == '\U{0C}' || c == '\r' || c == ' '
  }

  /** The regular-expression class `\d`: ASCII digits only. */
  predicate IsDigit(c: char)
  {
    '0' <= c <= '9'
  }

  function DigitValue(c: char): nat
    requires IsDigit(c)
  {
    c as int - '0' as int
  }

  predicate AllDigits(s: string)
  {
    forall i :: 0 <= i < |s| ==> IsDigit(s[i])
  }

  // ---------------------------------------------------------------- trimming

  /** The string without its leading white space. */
  function TrimLeft(s: string): (r: string)
    ensures |r| <= |s| && r == s[|s| - |r|..]
    ensures forall i :: 0 <= i < |s| - |r| ==> IsSpace(s[i])
    ensures r == [] || !IsSpace(r[0])
  {
    if |s| > 0 && IsSpace(s[0]) then TrimLeft(s[1..]) else s
  }

  /** The string without its trailing white space. */
  function TrimRight(s: string): (r: string)
    ensures |r| <= |s| && r == s[..|r|]
    ensures forall i :: |r| <= i < |s| ==> IsSpace(s[i])
    ensures r == [] || !IsSpace(r[|r| - 1])
  {
    if |s| > 0 && IsSpace(s[|s| - 1]) then TrimRight(s[..|s| - 1]) else s
  }

  /** strings.TrimSpace. */
  function TrimSpace(s: string): (r: string)
    ensures |r| <= |s|
    ensures r == [] || (!IsSpace(r[0]) && !IsSpace(r[|r| - 1]))
    ensures s == [] || (!IsSpace(s[0]) && !IsSpace(s[|s| - 1])) ==> r == s
  {
    TrimRight(TrimLeft(s))
  }

  /** A string that neither starts nor ends with white space is its own trim. */
  lemma {:induction false} TrimSpaceUnchanged(s: string)
    requires s == [] || (!IsSpace(s[0]) && !IsSpace(s[|s| - 1]))
    ensures TrimSpace(s) == s
  {
  }

  /** What TrimSpace removes are white-space code points at both ends. */
  lemma {:induction false} TrimSpaceIsInfix(s: string) returns (k: nat)
    ensures k + |TrimSpace(s)| <= |s|
    ensures s[k..k + |TrimSpace(s)|] == TrimSpace(s)
    ensures forall i :: 0 <= i < k ==> IsSpace(s[i])
    ensures forall i :: k + |TrimSpace(s)| <= i < |s| ==> IsSpace(s[i])
  {
    var l := TrimLeft(s);
    k := |s| - |l|;
    var r := TrimRight(l);
    assert r == l[..|r|];
    assert l == s[k..];
    forall i | k + |r| <= i < |s|
      ensures IsSpace(s[i])
    {
      assert s[i] == l[i - k];
    }
  }

  lemma {:induction false} TrimSpaceIdempotent(s: string)
    ensures TrimSpace(TrimSpace(s)) == TrimSpace(s)
  {
  }

  // ---------------------------------------------------------------- case mapping

  /**
   * unicode.ToLower for ASCII and Latin-1 letters, plus the code points whose
   * Go lower case lies in those ranges (KELVIN SIGN, ANGSTROM SIGN,
   * LATIN CAPITAL LETTER I WITH DOT ABOVE, LATIN CAPITAL LETTER Y WITH DIAERESIS).
   */
  function LowerRune(c: char): char
  {
    if 'A' <= c <= 'Z' then (c as int + 32) as char
    else if '\U{C0}' <= c <= '\U{DE}' && c != '\U{D7}' then (c as int + 32) as char
    else if c == '\U{178}' then '\U{FF}'
    else if c == '\U{212A}' then 'k'
    else if c == '\U{212B}' then '\U{E5}'
    else if c == '\U{130}' then 'i'
    else c
  }

  /**
   * unicode.ToUpper for ASCII and Latin-1 letters, plus the code points whose
   * Go upper case lies in or leaves those ranges (MICRO SIGN, y with diaeresis,
   * DOTLESS I, LONG S).
   */
  function UpperRune(c: char): char
  {
    if 'a' <= c <= 'z' then (c as int - 32) as char
    else if '\U{E0}' <= c <= '\U{FE}' && c != '\U{F7}' then (c as int - 32) as char
    else if c == '\U{FF}' then '\U{178}'
    else if c == '\U{B5}' then '\U{39C}'
    else if c == '\U{131}' then 'I'
    else if c == '\U{17F}' then 'S'
    else c
  }

  /** strings.ToLower: the case mapping applied code point by code point. */
  function ToLower(s: string): (r: string)
    ensures |r| == |s| && forall i :: 0 <= i < |s| ==> r[i] == LowerRune(s[i])
  {
    if s == [] then [] else [LowerRune(s[0])] + ToLower(s[1..])
  }

  /** A string every code point of which is already lower case is its own lower case. */
  lemma {:induction false} ToLowerFixed(s: string)
    requires forall i :: 0 <= i < |s| ==> LowerRune(s[i]) == s[i]
    ensures ToLower(s) == s
  {
    if s != [] {
      ToLowerFixed(s[1..]);
    }
  }

  /** Lowering twice is lowering once. */
  lemma {:induction false} ToLowerIdempotent(s: string)
    ensures ToLower(ToLower(s)) == ToLower(s)
  {
    var t := ToLower(s);
    forall i | 0 <= i < |t|
      ensures LowerRune(t[i]) == t[i]
    {
      assert t[i] == LowerRune(s[i]);
    }
    ToLowerFixed(t);
  }

  /** strings.ToUpper: the case mapping applied code point by code point. */
  function ToUpper(s: string): (r: string)
    ensures |r| == |s| && forall i :: 0 <= i < |s| ==> r[i] == UpperRune(s[i])
  {
    if s == [] then [] else [UpperRune(s[0])] + ToUpper(s[1..])
  }

  /** The representative of a code point's simple case-folding orbit. */
  function FoldRune(c: char): char
  {
    if c == '\U{130}' then c
    else if c == '\U{17F}' then 's'
    else LowerRune(c)
  }

  /** strings.EqualFold: equal under simple case folding, code point by code point. */
  predicate EqualFold(a: string, b: string)
  {
    |a| == |b| && forall i :: 0 <= i < |a| ==> FoldRune(a[i]) == FoldRune(b[i])
  }

  // ---------------------------------------------------------------- searching and splitting

  /** strings.IndexRune: the first position of `c`, or -1. */
  function Index(s: string, c: char): (r: int)
    ensures -1 <= r < |s|
    ensures r >= 0 ==> s[r] == c && c !in s[..r]
    ensures r == -1 <==> c !in s
  {
    if |s| == 0 then -1
    else if s[0] == c then 0
    else
      var k := Index(s[1..], c);
      if k == -1 then -1 else k + 1
  }

  /** strings.LastIndex with a one-character separator: the last position of `c`, or -1. */
  function LastIndex(s: string, c: char): (r: int)
    ensures -1 <= r < |s|
    ensures r >= 0 ==> s[r] == c && c !in s[r + 1..]
    ensures r == -1 <==> c !in s
  {
    if |s| == 0 then -1
    else if s[|s| - 1] == c then |s| - 1
    else LastIndex(s[..|s| - 1], c)
  }

  /** strings.SplitN(s, sep, 2) for a one-character separator. */
  function SplitN2(s: string, sep: char): (parts: seq<string>)
    ensures sep !in s ==> parts == [s]
    ensures sep in s ==> |parts| == 2 && parts[0] + [sep] + parts[1] == s && sep !in parts[0]
  {
    var i := Index(s, sep);
    if i < 0 then [s] else [s[..i], s[i + 1..]]
  }

  /** A word as strings.Fields returns it: non-empty and free of white space. */
  predicate IsWord(w: string)
  {
    |w| > 0 && forall i :: 0 <= i < |w| ==> !IsSpace(w[i])
  }

  /** The length of the longest prefix without white space. */
  function WordLength(s: string): (k: nat)
    ensures k <= |s|
    ensures forall i :: 0 <= i < k ==> !IsSpace(s[i])
    ensures k < |s| ==> IsSpace(s[k])
  {
    if |s| == 0 || IsSpace(s[0]) then 0 else 1 + WordLength(s[1..])
  }

  /** strings.Fields: the maximal runs of non-space code points, in order. */
  function Fields(s: string): seq<string>
    decreases |s|
  {
    var t := TrimLeft(s);
    if t == [] then []
    else
      var k := WordLength(t);
      [t[..k]] + Fields(t[k..])
  }

  lemma {:induction false} FirstWord(t: string)
    requires t != [] && !IsSpace(t[0])
    ensures IsWord(t[..WordLength(t)])
  {
    var w := t[..WordLength(t)];
    forall i | 0 <= i < |w| ensures !IsSpace(w[i]) {
      assert w[i] == t[i];
    }
  }

  /** Every field is a word. */
  lemma {:induction false} FieldsAreWords(s: string)
    ensures forall i :: 0 <= i < |Fields(s)| ==> IsWord(Fields(s)[i])
    decreases |s|
  {
    var t := TrimLeft(s);
    if t != [] {
      var k := WordLength(t);
      var w := t[..k];
      FirstWord(t);
      var rest := Fields(t[k..]);
      FieldsAreWords(t[k..]);
      assert Fields(s) == [w] + rest;
      forall i | 0 <= i < |Fields(s)| ensures IsWord(Fields(s)[i]) {
        if i > 0 {
          assert Fields(s)[i] == rest[i - 1];
        }
      }
    }
  }

  /** strings.Join. */
  function Join(ws: seq<string>, sep: string): string
  {
    if |ws| == 0 then ""
    else if |ws| == 1 then ws[0]
    else ws[0] + sep + Join(ws[1..], sep)
  }

  /** A join starts with the first part's first character and ends with the last part's last. */
  lemma {:induction false} JoinEnds(ws: seq<string>, sep: string)
    requires |ws| >= 1 && forall i :: 0 <= i < |ws| ==> |ws[i]| > 0
    ensures |Join(ws, sep)| > 0
    ensures Join(ws, sep)[0] == ws[0][0]
    ensures Join(ws, sep)[|Join(ws, sep)| - 1] == ws[|ws| - 1][|ws[|ws| - 1]| - 1]
    decreases |ws|
  {
    if |ws| >= 2 {
      JoinEnds(ws[1..], sep);
    }
  }

  lemma {:induction false} TrimLeftNoLeadingSpace(s: string)
    requires s == [] || !IsSpace(s[0])
    ensures TrimLeft(s) == s
  {
  }

  lemma {:induction false} JoinStartsWithWord(ws: seq<string>)
    requires forall i :: 0 <= i < |ws| ==> IsWord(ws[i])
    ensures Join(ws, " ") == [] <==> ws == []
    ensures ws != [] ==> !IsSpace(Join(ws, " ")[0])
  {
    if |ws| >= 2 {
      assert Join(ws, " ")[0] == ws[0][0];
    }
  }

  lemma {:induction false} WordLengthOfWordThenSpace(w: string, rest: string)
    requires IsWord(w)
    requires rest == [] || IsSpace(rest[0])
    ensures WordLength(w + rest) == |w|
    decreases |w|
  {
    if |w| > 1 {
      assert (w + rest)[1..] == w[1..] + rest;
      WordLengthOfWordThenSpace(w[1..], rest);
    }
  }

  /** Joining words with single spaces and splitting them with Fields gives the words back. */
  lemma {:induction false} FieldsOfJoin(ws: seq<string>)
    requires forall i :: 0 <= i < |ws| ==> IsWord(ws[i])
    ensures Fields(Join(ws, " ")) == ws
    decreases |ws|
  {
    if |ws| == 0 {
    } else if |ws| == 1 {
      TrimLeftNoLeadingSpace(ws[0]);
      WordLengthOfWordThenSpace(ws[0], []);
      assert ws[0] + [] == ws[0];
      assert ws[0][|ws[0]|..] == [];
    } else {
      var j := Join(ws[1..], " ");
      var s := Join(ws, " ");
      assert s == ws[0] + (" " + j);
      TrimLeftNoLeadingSpace(s);
      WordLengthOfWordThenSpace(ws[0], " " + j);
      assert s[..|ws[0]|] == ws[0];
      assert s[|ws[0]|..] == " " + j;
      JoinStartsWithWord(ws[1..]);
      assert TrimLeft(" " + j) == TrimLeft(j) by {
        assert (" " + j)[1..] == j;
      }
      TrimLeftNoLeadingSpace(j);
      FieldsOfJoin(ws[1..]);
      assert Fields(" " + j) == Fields(j);
    }
  }

  // ---------------------------------------------------------------- numbers

  /** The value of a non-empty run of decimal digits. */
  function DecimalValue(s: string): nat
    requires AllDigits(s)
  {
    if |s| == 0 then 0 else 10 * DecimalValue(s[..|s| - 1]) + DigitValue(s[|s| - 1])
  }

  const MinInt64: int := -0x8000_0000_0000_0000
  const MaxInt64: int := 0x7FFF_FFFF_FFFF_FFFF

  /**
   * strconv.Atoi on a 64-bit platform: an optional sign and at least one
   * decimal digit, within the int64 range.
   */
  function Atoi(s: string): (r: Option<int>)
    ensures r.Some? ==> MinInt64 <= r.value <= MaxInt64
    ensures AllDigits(s) && |s| > 0 && DecimalValue(s) <= MaxInt64 ==> r == Some(DecimalValue(s))
    ensures s == [] || s == "+" || s == "-" ==> r.None?
  {
    var neg := |s| > 0 && s[0] == '-';
    var body := if |s| > 0 && (s[0] == '-' || s[0] == '+') then s[1..] else s;
    if |body| == 0 || !AllDigits(body) then None
    else
      var v: int := if neg then -(DecimalValue(body) as int) else DecimalValue(body);
      if MinInt64 <= v <= MaxInt64 then Some(v) else None
  }

  function NatToString(n: nat): (s: string)
    ensures |s| > 0 && AllDigits(s)
  {
    var d := ['0' + ((n % 10) as char)];
    if n < 10 then d else NatToString(n / 10) + d
  }

  /** fmt's %d verb. */
  function IntToString(n: int): string
  {
    if n < 0 then "-" + NatToString(-n) else NatToString(n)
  }

  /** %d prints the number Atoi reads back. */
  lemma {:induction false} NatToStringValue(n: nat)
    ensures DecimalValue(NatToString(n)) == n
  {
    var d := ['0' + ((n % 10) as char)];
    if n >= 10 {
      NatToStringValue(n / 10);
      var s := NatToString(n / 10) + d;
      assert s[..|s| - 1] == NatToString(n / 10);
    }
  }
}
