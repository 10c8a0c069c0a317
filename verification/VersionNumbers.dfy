/** Reading the major number of a protocol version undoes writing it. */
module VersionNumbers {
  import opened Wrappers
  import opened Codec
  import InlineTokens

  function Digit(n: nat): char
    requires n < 10
  {
    '0' + n as char
  }

  /** The decimal digits of a number. */
  function Decimal(n: nat): (s: string)
    ensures s != "" && forall c <- s :: IsDigit(c)
  {
    if n < 10 then [Digit(n)] else Decimal(n / 10) + [Digit(n % 10)]
  }

  /** What a row of digits is worth, behind digits worth `acc`. */
  function Worth(s: string, acc: int): int {
    if s == "" then acc else Worth(s[1..], acc * 10 + (s[0] as int - '0' as int))
  }

  lemma {:induction false} WorthAppend(s: string, c: char, acc: int)
    ensures Worth(s + [c], acc) == Worth(s, acc) * 10 + (c as int - '0' as int)
    decreases |s|
  {
    if s == "" {
      assert "" + [c] == [c];
    } else {
      WorthAppend(s[1..], c, acc * 10 + (s[0] as int - '0' as int));
      assert (s + [c])[1..] == s[1..] + [c];
    }
  }

  lemma {:induction false} WorthOfDecimal(n: nat)
    ensures Worth(Decimal(n), 0) == n
  {
    if n >= 10 {
      WorthOfDecimal(n / 10);
      WorthAppend(Decimal(n / 10), Digit(n % 10), 0);
    }
  }

  lemma {:induction false} DigitsWorth(s: string, acc: int, afterDigit: bool)
    requires forall c <- s :: IsDigit(c)
    ensures Digits(s, acc, afterDigit) == if s == "" && !afterDigit then None else Some(Worth(s, acc))
    decreases |s|
  {
    if s != "" { DigitsWorth(s[1..], acc * 10 + (s[0] as int - '0' as int), true); }
  }

  /** A number is read with blanks around it, and with a sign. */
  lemma ReadsNumbers(n: nat, left: string, right: string)
    requires InlineTokens.Blank(left) && InlineTokens.Blank(right)
    ensures ParseInt(left + Decimal(n) + right) == Some(n)
    ensures var r := ParseInt(left + ("-" + Decimal(n)) + right); r.Some? && r.value + n == 0
    ensures ParseInt(left + ("+" + Decimal(n)) + right) == Some(n)
  {
    var s := Decimal(n);
    assert IsDigit(s[0]) && IsDigit(s[|s| - 1]);
    DigitsWorth(s, 0, false);
    WorthOfDecimal(n);
    InlineTokens.TrimPadded(left, s, right);
    InlineTokens.TrimPadded(left, "-" + s, right);
    InlineTokens.TrimPadded(left, "+" + s, right);
    assert ("-" + s)[1..] == s && ("+" + s)[1..] == s;
  }

  lemma {:induction false} BeforeSeparator(s: string, sep: char, rest: string)
    requires sep !in s
    ensures Before(s, sep) == s && Before(s + [sep] + rest, sep) == s
    decreases |s|
  {
    if s == "" {
      assert "" + [sep] + rest == [sep] + rest;
    } else {
      BeforeSeparator(s[1..], sep, rest);
      assert (s + [sep] + rest)[1..] == s[1..] + [sep] + rest && [s[0]] + s[1..] == s;
    }
  }

  /** The major number of a version is what stands before its first dot, or all of it. */
  lemma MajorOfVersion(n: nat, rest: string)
    ensures Major(Decimal(n)) == Some(n) && Major(Decimal(n) + "." + rest) == Some(n)
  {
    var s := Decimal(n);
    BeforeSeparator(s, '.', rest);
    ReadsNumbers(n, "", "");
    assert "" + s + "" == s;
  }

  lemma {:induction false} DigitsNeeded(s: string, acc: int, afterDigit: bool)
    requires Digits(s, acc, afterDigit).Some?
    ensures (forall c <- s :: IsDigit(c) || c == '_') && (!afterDigit ==> s != "" && IsDigit(s[0]))
    ensures s != "" ==> IsDigit(s[|s| - 1])
    ensures forall i :: 0 <= i < |s| - 1 && s[i] == '_' ==> IsDigit(s[i + 1])
    decreases |s|
  {
    if s != "" {
      if IsDigit(s[0]) {
        DigitsNeeded(s[1..], acc * 10 + (s[0] as int - '0' as int), true);
      } else {
        DigitsNeeded(s[1..], acc, false);
      }
    }
  }

  /** Nothing else is one: blanks and sign off, it begins and ends with a digit and has only digits and underscores. */
  lemma NumbersOnly(s: string)
    requires ParseInt(s).Some?
    ensures var t := Trim(s);
            var u := if t != "" && (t[0] == '-' || t[0] == '+') then t[1..] else t;
            && u != "" && IsDigit(u[0]) && IsDigit(u[|u| - 1]) && (forall c <- u :: IsDigit(c) || c == '_')
            && forall i :: 0 <= i < |u| - 1 && u[i] == '_' ==> IsDigit(u[i + 1])
  {
    var t := Trim(s);
    DigitsNeeded(if t != "" && (t[0] == '-' || t[0] == '+') then t[1..] else t, 0, false);
  }
}
