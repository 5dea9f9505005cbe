/**
 * Values shared by every layer of the store back end: nullable references,
 * the exceptions the controllers tell apart, the fixed-width integers of the
 * request models, and the few .NET string operations the code relies on
 * (IsNullOrEmpty, ordinal Contains, Int32/Int64 ToString, Convert.ToInt32).
 */
module Common {

  datatype Option<+T> = None | Some(value: T)

  /** An exception as a catch block sees it: a SqlException with its error
      number and message, or any other exception. */
  datatype Failure = SqlFailure(number: int, message: string) | OtherFailure

  /** What a call into a collaborator produced: a value, or an exception. */
  datatype Outcome<+T> = Ok(value: T) | Threw(failure: Failure)

  /** C# int and long. */
  type Int32 = x: int | -0x8000_0000 <= x < 0x8000_0000
  type Int64 = x: int | -0x8000_0000_0000_0000 <= x < 0x8000_0000_0000_0000

  /** string.IsNullOrEmpty */
  predicate IsNullOrEmpty(s: Option<string>)
  {
    s.None? || |s.value| == 0
  }

  /** Length of a string the code has already found non-null (0 for null,
      a case every caller has excluded before asking). */
  function Length(s: Option<string>): nat
  {
    if s.Some? then |s.value| else 0
  }

  /** The string itself, or "" for null. */
  function OrEmpty(s: Option<string>): string
  {
    if s.Some? then s.value else ""
  }

  /** t occurs in s starting at index i. */
  predicate OccursAt(s: string, t: string, i: nat)
  {
    i + |t| <= |s| && s[i..i + |t|] == t
  }

  /** string.Contains(string), ordinal comparison. */
  predicate Contains(s: string, t: string)
  {
    exists i: nat | i <= |s| :: OccursAt(s, t, i)
  }

  lemma ContainsItself(s: string)
    ensures Contains(s, s)
  {
    assert OccursAt(s, s, 0);
  }

  /** A longer string is never contained in a shorter one. */
  lemma LongerNotContained(s: string, t: string)
    requires |s| < |t|
    ensures !Contains(s, t)
  {
  }

  /** A different text of the message's own length does not occur in it. */
  lemma SameLengthNotContained(s: string, t: string)
    requires |s| == |t| && s != t
    ensures !Contains(s, t)
  {
    forall i: nat | i <= |s| ensures !OccursAt(s, t, i) {
      if i == 0 {
        assert s[0..|t|] == s;
      }
    }
  }

  /** A text holding a character the message lacks does not occur in it. */
  lemma CharNotContained(s: string, t: string, k: nat)
    requires k < |t| && t[k] !in s
    ensures !Contains(s, t)
  {
    forall i: nat | i <= |s| ensures !OccursAt(s, t, i) {
      if i + |t| <= |s| {
        assert s[i..i + |t|][k] == s[i + k];
      }
    }
  }

  // ---------------------------------------------------------------------------
  // Decimal text of integers (invariant culture: ASCII digits, '-' sign).

  function Pow10(k: nat): (p: nat)
    ensures p >= 1
  {
    if k == 0 then 1 else 10 * Pow10(k - 1)
  }

  function DigitChar(d: nat): char
    requires d < 10
  {
    "0123456789"[d]
  }

  predicate IsDigit(c: char)
  {
    '0' <= c <= '9'
  }

  function DigitValue(c: char): nat
    requires IsDigit(c)
  {
    c as int - '0' as int
  }

  /** Decimal digits of a natural number, most significant first, no leading zeros. */
  function NatToString(n: nat): (s: string)
    ensures |s| >= 1
    ensures forall i | 0 <= i < |s| :: IsDigit(s[i])
    decreases n
  {
    if n < 10 then [DigitChar(n)] else NatToString(n / 10) + [DigitChar(n % 10)]
  }

  /** Int32.ToString() / Int64.ToString(). */
  function IntToString(n: int): string
  {
    if n < 0 then "-" + NatToString(-n) else NatToString(n)
  }

  /** A number has fewer than w digits exactly when it is below 10^(w-1). */
  lemma {:induction false} NatToStringShorter(n: nat, w: nat)
    requires w >= 2
    ensures |NatToString(n)| < w <==> n < Pow10(w - 1)
    decreases n
  {
    if n >= 10 {
      var q := n / 10;
      assert |NatToString(n)| == |NatToString(q)| + 1;
      if w == 2 {
        assert Pow10(1) == 10;
      } else {
        NatToStringShorter(q, w - 1);
        assert Pow10(w - 1) == 10 * Pow10(w - 2);
        assert q < Pow10(w - 2) <==> n < 10 * Pow10(w - 2);
      }
    } else {
      assert Pow10(w - 1) == 10 * Pow10(w - 2);
    }
  }

  /** The length C# reports for n.ToString() being below w, for w >= 3: a
      positive number needs at least w - 1 digits' worth of value, a negative
      one w - 2 (its sign takes a character). */
  lemma IntToStringShorter(n: int, w: nat)
    requires w >= 3
    ensures n >= 0 ==> (|IntToString(n)| < w <==> n < Pow10(w - 1))
    ensures n < 0 ==> (|IntToString(n)| < w <==> -n < Pow10(w - 2))
  {
    if n >= 0 {
      NatToStringShorter(n, w);
    } else {
      NatToStringShorter(-n, w - 1);
    }
  }

  // ---------------------------------------------------------------------------
  // Convert.ToInt32(string), that is Int32.Parse with NumberStyles.Integer:
  // white space (U+0009 to U+000D and U+0020) may surround an optional sign
  // followed by decimal digits, NUL characters may end the text, and the value
  // must fit in an Int32; anything else throws (FormatException or
  // OverflowException), modelled as None.

  function DigitsValue(s: string): nat
    requires forall i | 0 <= i < |s| :: IsDigit(s[i])
  {
    if s == [] then 0 else 10 * DigitsValue(s[..|s| - 1]) + DigitValue(s[|s| - 1])
  }

  predicate AllDigits(s: string)
  {
    |s| >= 1 && forall i | 0 <= i < |s| :: IsDigit(s[i])
  }

  /** The white space NumberStyles.AllowLeadingWhite and AllowTrailingWhite skip. */
  predicate IsParseWhite(c: char)
  {
    '\t' <= c <= '\r' || c == ' '
  }

  function TrimLeadingWhite(s: string): string
  {
    if s != [] && IsParseWhite(s[0]) then TrimLeadingWhite(s[1..]) else s
  }

  function TrimTrailingWhite(s: string): string
  {
    if s != [] && IsParseWhite(s[|s| - 1]) then TrimTrailingWhite(s[..|s| - 1]) else s
  }

  function TrimTrailingNuls(s: string): string
  {
    if s != [] && s[|s| - 1] == '\0' then TrimTrailingNuls(s[..|s| - 1]) else s
  }

  /** The number itself: an optional sign and digits, within Int32. */
  function ParseSignedDigits(s: string): Option<Int32>
  {
    if |s| >= 1 && (s[0] == '-' || s[0] == '+') && AllDigits(s[1..]) then
      var d: int := DigitsValue(s[1..]);
      var v := if s[0] == '-' then -d else d;
      if -0x8000_0000 <= v < 0x8000_0000 then Some(v) else None
    else if AllDigits(s) then
      var v := DigitsValue(s);
      if v < 0x8000_0000 then Some(v) else None
    else None
  }

  function ParseInt32(s: string): (r: Option<Int32>)
    ensures r.Some? ==> |s| >= 1
    // plain digits read as their decimal value, when it fits
    ensures AllDigits(s) ==> (r.Some? <==> DigitsValue(s) < 0x8000_0000)
    ensures AllDigits(s) && r.Some? ==> r.value == DigitsValue(s)
  {
    ParseSignedDigits(TrimLeadingWhite(TrimTrailingWhite(TrimTrailingNuls(s))))
  }

  lemma {:induction false} TrimTrailingNulsOf(s: string, nuls: string)
    requires s == [] || s[|s| - 1] != '\0'
    requires forall i | 0 <= i < |nuls| :: nuls[i] == '\0'
    ensures TrimTrailingNuls(s + nuls) == s
    decreases |nuls|
  {
    if nuls != [] {
      assert (s + nuls)[..|s + nuls| - 1] == s + nuls[..|nuls| - 1];
      TrimTrailingNulsOf(s, nuls[..|nuls| - 1]);
    } else {
      assert s + nuls == s;
    }
  }

  lemma {:induction false} TrimTrailingWhiteOf(s: string, white: string)
    requires s == [] || !IsParseWhite(s[|s| - 1])
    requires forall i | 0 <= i < |white| :: IsParseWhite(white[i])
    ensures TrimTrailingWhite(s + white) == s
    decreases |white|
  {
    if white != [] {
      assert (s + white)[..|s + white| - 1] == s + white[..|white| - 1];
      TrimTrailingWhiteOf(s, white[..|white| - 1]);
    } else {
      assert s + white == s;
    }
  }

  lemma {:induction false} TrimLeadingWhiteOf(white: string, s: string)
    requires s == [] || !IsParseWhite(s[0])
    requires forall i | 0 <= i < |white| :: IsParseWhite(white[i])
    ensures TrimLeadingWhite(white + s) == s
    decreases |white|
  {
    if white != [] {
      assert (white + s)[1..] == white[1..] + s;
      TrimLeadingWhiteOf(white[1..], s);
    } else {
      assert white + s == s;
    }
  }

  lemma {:induction false} DigitsOfNat(n: nat)
    ensures DigitsValue(NatToString(n)) == n
    decreases n
  {
    var s := NatToString(n);
    DigitCharValue(n % 10);
    if n >= 10 {
      DigitsOfNat(n / 10);
      assert s[..|s| - 1] == NatToString(n / 10);
      assert s[|s| - 1] == DigitChar(n % 10);
    } else {
      assert s[..|s| - 1] == [];
    }
  }

  lemma DigitCharValue(d: nat)
    requires d < 10
    ensures IsDigit(DigitChar(d)) && DigitValue(DigitChar(d)) == d
  {
  }

  /** Reading back the decimal text of an Int32 gives the same number. */
  lemma SignedDigitsOfInt(n: Int32)
    ensures ParseSignedDigits(IntToString(n)) == Some(n)
    ensures |IntToString(n)| >= 1 && IsDigit(IntToString(n)[|IntToString(n)| - 1])
    ensures IntToString(n)[0] == '-' || IsDigit(IntToString(n)[0])
  {
    var s := IntToString(n);
    if n < 0 {
      var m: nat := -(n as int);
      DigitsOfNat(m);
      assert s == "-" + NatToString(m);
      assert s[1..] == NatToString(m);
      assert AllDigits(s[1..]);
    } else {
      DigitsOfNat(n);
      assert s == NatToString(n);
      assert s[0] != '-' && s[0] != '+';
    }
  }

  /** Convert.ToInt32 reads back an Int32's decimal text whatever white space
      surrounds it and whatever NULs end it. */
  lemma PaddedIntParses(n: Int32, lead: string, trail: string, nuls: string)
    requires forall i | 0 <= i < |lead| :: IsParseWhite(lead[i])
    requires forall i | 0 <= i < |trail| :: IsParseWhite(trail[i])
    requires forall i | 0 <= i < |nuls| :: nuls[i] == '\0'
    ensures ParseInt32(lead + IntToString(n) + trail + nuls) == Some(n)
  {
    var t := IntToString(n);
    SignedDigitsOfInt(n);
    assert (lead + t + trail)[|lead + t + trail| - 1] == if trail == [] then t[|t| - 1] else trail[|trail| - 1];
    TrimTrailingNulsOf(lead + t + trail, nuls);
    assert (lead + t + trail) == (lead + t) + trail;
    TrimTrailingWhiteOf(lead + t, trail);
    TrimLeadingWhiteOf(lead, t);
  }

  /** Reading back the decimal text of an Int32 gives the same number. */
  lemma ParseIntToString(n: Int32)
    ensures ParseInt32(IntToString(n)) == Some(n)
  {
    PaddedIntParses(n, "", "", "");
    assert "" + IntToString(n) + "" + "" == IntToString(n);
  }

  // ---------------------------------------------------------------------------
  // UserValidator.IsValidEmail: new EmailAddressAttribute().IsValid(email).
  // The attribute (.NET Core) accepts a string whose first '@' is neither the
  // first nor the last character and is also its last '@'.

  /** string.IndexOf(char): the first position of c, or -1. */
  function IndexOf(s: string, c: char): (r: int)
    ensures -1 <= r < |s|
    ensures r >= 0 ==> s[r] == c && forall j | 0 <= j < r :: s[j] != c
    ensures r == -1 <==> forall j | 0 <= j < |s| :: s[j] != c
  {
    if s == [] then -1
    else if s[0] == c then 0
    else
      var k := IndexOf(s[1..], c);
      assert forall j | 1 <= j < |s| :: s[j] == s[1..][j - 1];
      if k == -1 then -1 else k + 1
  }

  /** string.LastIndexOf(char): the last position of c, or -1. */
  function LastIndexOf(s: string, c: char): (r: int)
    ensures -1 <= r < |s|
    ensures r >= 0 ==> s[r] == c && forall j | r < j < |s| :: s[j] != c
    ensures r == -1 <==> forall j | 0 <= j < |s| :: s[j] != c
  {
    if s == [] then -1
    else if s[|s| - 1] == c then |s| - 1
    else LastIndexOf(s[..|s| - 1], c)
  }

  predicate IsValidEmail(email: string)
  {
    var index := IndexOf(email, '@');
    index > 0 && index != |email| - 1 && index == LastIndexOf(email, '@')
  }

  /** An address is accepted exactly when it holds one '@', with something
      on each side of it. */
  lemma ValidEmailShape(email: string)
    ensures IsValidEmail(email) <==>
              exists i | 0 < i < |email| - 1 :: email[i] == '@'
                && forall j | 0 <= j < |email| && j != i :: email[j] != '@'
  {
    var first, last := IndexOf(email, '@'), LastIndexOf(email, '@');
    if IsValidEmail(email) {
      assert forall j | 0 <= j < |email| && j != first :: email[j] != '@' by {
        forall j | 0 <= j < |email| && j != first ensures email[j] != '@' {
          if j > first { assert j > last; }
        }
      }
    }
    if exists i | 0 < i < |email| - 1 :: email[i] == '@' && forall j | 0 <= j < |email| && j != i :: email[j] != '@' {
      var i :| 0 < i < |email| - 1 && email[i] == '@' && forall j | 0 <= j < |email| && j != i :: email[j] != '@';
      assert first == i && last == i;
    }
  }
}
