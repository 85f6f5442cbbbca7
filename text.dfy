/**
 * String operations the widgets rely on: String.prototype.trim, includes,
 * a global single-character replace (`s.replace(/c/g, rep)`), the text
 * escaping the DOM applies when text is read back as markup, and the decimal
 * conversions behind `n.toString()` and `parseInt`.
 */
module Text {
  import opened Wrappers

  /**
   * What an element's content was last set from: markup through innerHTML,
   * or plain text through textContent.
   */
  datatype Content = Markup(html: string) | PlainText(text: string)

  /** ECMAScript WhiteSpace and LineTerminator code points (what trim removes). */
  predicate IsJsSpace(c: char)
  {
    c == '\t' || c == '\n' || c == '\U{B}' || c == '\U{C}' || c == '\r' || c == ' '
    || c == '\U{A0}' || c == '\U{1680}' || ('\U{2000}' <= c <= '\U{200A}')
    || c == '\U{2028}' || c == '\U{2029}' || c == '\U{202F}' || c == '\U{205F}'
    || c == '\U{3000}' || c == '\U{FEFF}'
  }

  /** Drops the leading white space. */
  function TrimStart(s: string): (r: string)
  {
    if s != [] && IsJsSpace(s[0]) then TrimStart(s[1..]) else s
  }

  /** TrimStart keeps the longest suffix that does not start with white space. */
  lemma {:induction false} TrimStartSpec(s: string)
    ensures |TrimStart(s)| <= |s| && TrimStart(s) == s[|s| - |TrimStart(s)|..]
    ensures TrimStart(s) == [] || !IsJsSpace(TrimStart(s)[0])
    ensures forall i :: 0 <= i < |s| - |TrimStart(s)| ==> IsJsSpace(s[i])
  {
    if s != [] && IsJsSpace(s[0]) {
      TrimStartSpec(s[1..]);
      forall i | 0 <= i < |s| - |TrimStart(s)| ensures IsJsSpace(s[i]) {
        if i > 0 { assert s[i] == s[1..][i - 1]; }
      }
    }
  }

  /** Drops the trailing white space. */
  function TrimEnd(s: string): (r: string)
  {
    if s != [] && IsJsSpace(s[|s| - 1]) then TrimEnd(s[..|s| - 1]) else s
  }

  /** TrimEnd keeps the longest prefix that does not end with white space. */
  lemma {:induction false} TrimEndSpec(s: string)
    ensures |TrimEnd(s)| <= |s| && TrimEnd(s) == s[..|TrimEnd(s)|]
    ensures TrimEnd(s) == [] || !IsJsSpace(TrimEnd(s)[|TrimEnd(s)| - 1])
    ensures forall i :: |TrimEnd(s)| <= i < |s| ==> IsJsSpace(s[i])
  {
    if s != [] && IsJsSpace(s[|s| - 1]) {
      TrimEndSpec(s[..|s| - 1]);
      forall i | |TrimEnd(s)| <= i < |s| ensures IsJsSpace(s[i]) {
        if i < |s| - 1 { assert s[i] == s[..|s| - 1][i]; }
      }
    }
  }

  /** String.prototype.trim. */
  function Trim(s: string): (r: string)
  {
    TrimEnd(TrimStart(s))
  }

  /** A trimmed string is empty exactly when the input is all white space. */
  lemma TrimEmptyIff(s: string)
    ensures Trim(s) == [] <==> forall i :: 0 <= i < |s| ==> IsJsSpace(s[i])
  {
    var t := TrimStart(s);
    TrimStartSpec(s);
    TrimEndSpec(t);
    if Trim(s) != [] {
      assert !IsJsSpace(t[0]);
      assert t[0] == s[|s| - |t|];
    }
  }

  /**
   * Trimming keeps a contiguous slice, everything cut off on either side is
   * white space, and no white space is left at either end.
   */
  lemma TrimIsSlice(s: string)
    ensures exists i, j :: 0 <= i <= j <= |s| && Trim(s) == s[i..j]
                           && (forall k :: 0 <= k < i ==> IsJsSpace(s[k]))
                           && (forall k :: j <= k < |s| ==> IsJsSpace(s[k]))
    ensures Trim(s) != [] ==> !IsJsSpace(Trim(s)[0]) && !IsJsSpace(Trim(s)[|Trim(s)| - 1])
  {
    var t := TrimStart(s);
    var r := TrimEnd(t);
    TrimStartSpec(s);
    TrimEndSpec(t);
    var i := |s| - |t|;
    var j := i + |r|;
    assert r == s[i..j];
    forall k | j <= k < |s| ensures IsJsSpace(s[k]) {
      assert s[k] == t[k - i];
    }
    if r != [] {
      assert r[0] == t[0];
    }
  }

  /** `t` occurs in `s` starting at index `i`. */
  predicate OccursAt(s: string, t: string, i: nat)
  {
    i + |t| <= |s| && s[i..i + |t|] == t
  }

  /** String.prototype.includes. */
  function Includes(s: string, t: string): (b: bool)
    ensures b <==> exists i: nat :: OccursAt(s, t, i)
    decreases |s|
  {
    if |t| > |s| then false
    else if s[..|t|] == t then assert OccursAt(s, t, 0); true
    else
      var b := Includes(s[1..], t);
      assert b ==> exists i: nat :: OccursAt(s, t, i) by {
        if b {
          var j: nat :| OccursAt(s[1..], t, j);
          assert s[j + 1..j + 1 + |t|] == s[1..][j..j + |t|];
          assert OccursAt(s, t, j + 1);
        }
      }
      assert (exists i: nat :: OccursAt(s, t, i)) ==> b by {
        if exists i: nat :: OccursAt(s, t, i) {
          var j: nat :| OccursAt(s, t, j);
          assert j != 0;
          assert s[1..][j - 1..j - 1 + |t|] == s[j..j + |t|];
          assert OccursAt(s[1..], t, j - 1);
        }
      }
      b
  }

  /** `s.replace(/c/g, rep)`: every occurrence of the character `c` replaced by `rep`. */
  function ReplaceChar(s: string, c: char, rep: string): (r: string)
  {
    if s == [] then [] else (if s[0] == c then rep else [s[0]]) + ReplaceChar(s[1..], c, rep)
  }

  /** Number of occurrences of `c` in `s`. */
  function Count(s: string, c: char): (n: nat)
  {
    if s == [] then 0 else (if s[0] == c then 1 else 0) + Count(s[1..], c)
  }

  lemma {:induction false} CountAppend(a: string, b: string, c: char)
    ensures Count(a + b, c) == Count(a, c) + Count(b, c)
  {
    if a == [] {
      assert a + b == b;
    } else {
      assert (a + b)[1..] == a[1..] + b;
      CountAppend(a[1..], b, c);
    }
  }

  lemma {:induction false} ReplaceAppend(a: string, b: string, c: char, rep: string)
    ensures ReplaceChar(a + b, c, rep) == ReplaceChar(a, c, rep) + ReplaceChar(b, c, rep)
  {
    if a == [] {
      assert a + b == b;
    } else {
      assert (a + b)[1..] == a[1..] + b;
      ReplaceAppend(a[1..], b, c, rep);
    }
  }

  /** Text that does not contain `c` is left as it is. */
  lemma {:induction false} ReplaceAbsent(s: string, c: char, rep: string)
    requires c !in s
    ensures ReplaceChar(s, c, rep) == s
  {
    if s != [] {
      ReplaceAbsent(s[1..], c, rep);
    }
  }

  /** Replacing `c` grows the text by `|rep| - 1` per occurrence. */
  lemma {:induction false} ReplaceLength(s: string, c: char, rep: string)
    ensures |ReplaceChar(s, c, rep)| == |s| + (|rep| - 1) * Count(s, c)
  {
    if s != [] {
      ReplaceLength(s[1..], c, rep);
      if s[0] == c {
        assert (|rep| - 1) * Count(s, c) == (|rep| - 1) * Count(s[1..], c) + (|rep| - 1);
      }
    }
  }

  /** Replacing `c` by text without `d` keeps the number of `d`s. */
  lemma {:induction false} ReplaceKeepsCount(s: string, c: char, rep: string, d: char)
    requires d != c && d !in rep
    ensures Count(ReplaceChar(s, c, rep), d) == Count(s, d)
  {
    if s != [] {
      ReplaceKeepsCount(s[1..], c, rep, d);
      var head := if s[0] == c then rep else [s[0]];
      CountAppend(head, ReplaceChar(s[1..], c, rep), d);
      if s[0] == c {
        assert Count(rep, d) == 0 by { CountAbsent(rep, d); }
      } else {
        assert head[1..] == [];
      }
    }
  }

  /** A character that does not occur is counted zero times. */
  lemma {:induction false} CountAbsent(s: string, d: char)
    requires d !in s
    ensures Count(s, d) == 0
  {
    if s != [] {
      assert d !in s[1..] by {
        forall i | 0 <= i < |s[1..]| ensures s[1..][i] != d { assert s[1..][i] == s[i + 1]; }
      }
      CountAbsent(s[1..], d);
    }
  }

  /** Replacing `c` by text without `c` leaves no `c`. */
  lemma {:induction false} ReplaceRemoves(s: string, c: char, rep: string)
    requires c !in rep
    ensures c !in ReplaceChar(s, c, rep)
  {
    if s != [] {
      ReplaceRemoves(s[1..], c, rep);
      var head := if s[0] == c then rep else [s[0]];
      assert ReplaceChar(s, c, rep) == head + ReplaceChar(s[1..], c, rep);
    }
  }

  /** Every `<` in `html` opens a `<br>` and every `>` closes one. */
  predicate BracketsInBreaks(html: string)
  {
    (forall i :: 0 <= i < |html| && html[i] == '<' ==> i + 4 <= |html| && html[i..i + 4] == "<br>")
    && (forall i :: 0 <= i < |html| && html[i] == '>' ==> 3 <= i && html[i - 3..i + 1] == "<br>")
  }

  lemma BracketsConcat(a: string, b: string)
    requires BracketsInBreaks(a) && BracketsInBreaks(b)
    ensures BracketsInBreaks(a + b)
  {
    var html := a + b;
    forall i | 0 <= i < |html| && html[i] == '<' ensures i + 4 <= |html| && html[i..i + 4] == "<br>" {
      if i < |a| {
        assert a[i] == '<';
        assert html[i..i + 4] == a[i..i + 4];
      } else {
        var j := i - |a|;
        assert b[j] == '<';
        assert j + 4 <= |b| && b[j..j + 4] == "<br>";
        assert html[i..i + 4] == b[j..j + 4];
      }
    }
    forall i | 0 <= i < |html| && html[i] == '>' ensures 3 <= i && html[i - 3..i + 1] == "<br>" {
      if i < |a| {
        assert a[i] == '>';
        assert html[i - 3..i + 1] == a[i - 3..i + 1];
      } else {
        var j := i - |a|;
        assert b[j] == '>';
        assert 3 <= j && b[j - 3..j + 1] == "<br>";
        assert i - 3 >= |a|;
        assert html[i - 3..i + 1] == b[j - 3..j + 1];
      }
    }
  }

  /**
   * Turning the newlines of bracket-free text into `<br>` leaves no `<` or
   * `>` outside those breaks.
   */
  lemma {:induction false} BreaksOnlyBrackets(s: string)
    requires forall i :: 0 <= i < |s| ==> s[i] != '<' && s[i] != '>'
    ensures BracketsInBreaks(ReplaceChar(s, '\n', "<br>"))
  {
    if s != [] {
      BreaksOnlyBrackets(s[1..]);
      var head := if s[0] == '\n' then "<br>" else [s[0]];
      assert BracketsInBreaks(head) by {
        if s[0] == '\n' {
          assert head[..4] == head;
        }
      }
      BracketsConcat(head, ReplaceChar(s[1..], '\n', "<br>"));
    }
  }

  /** The character reference a text node serialises `c` to, or `c` itself. */
  function EscapeChar(c: char): (r: string)
  {
    match c
    case '&' => "&amp;"
    case '\U{A0}' => "&nbsp;"
    case '<' => "&lt;"
    case '>' => "&gt;"
    case _ => [c]
  }

  /**
   * Serialising a text node as markup (reading innerHTML after setting
   * textContent): `&`, U+00A0, `<` and `>` become character references, so
   * no `<` or `>` is left.
   */
  function EscapeText(s: string): (r: string)
    ensures forall i :: 0 <= i < |r| ==> r[i] != '<' && r[i] != '>'
  {
    if s == [] then [] else EscapeChar(s[0]) + EscapeText(s[1..])
  }

  // ---------------------------------------------------------------- decimal

  predicate IsDigit(c: char) { '0' <= c <= '9' }

  function DigitChar(d: nat): (c: char)
    requires d < 10
    ensures IsDigit(c)
  {
    ['0', '1', '2', '3', '4', '5', '6', '7', '8', '9'][d]
  }

  function DigitValue(c: char): (d: nat)
    requires IsDigit(c)
    ensures d < 10 && DigitChar(d) == c
  {
    (c as int) - ('0' as int)
  }

  /** The decimal numeral of a natural number, without leading zeros. */
  function NatToString(n: nat): (r: string)
    ensures r != [] && forall i :: 0 <= i < |r| ==> IsDigit(r[i])
    decreases n
  {
    if n < 10 then [DigitChar(n)] else NatToString(n / 10) + [DigitChar(n % 10)]
  }

  /** Number.prototype.toString for an integer value. */
  function IntToString(n: int): (r: string)
  {
    if n < 0 then "-" + NatToString(-n) else NatToString(n)
  }

  /** The value of a string of decimal digits. */
  function DigitsValue(d: string): (n: nat)
    requires forall i :: 0 <= i < |d| ==> IsDigit(d[i])
  {
    if d == [] then 0 else 10 * DigitsValue(d[..|d| - 1]) + DigitValue(d[|d| - 1])
  }

  /** Length of the run of digits at the start of `s`. */
  function DigitRun(s: string): (n: nat)
    ensures n <= |s| && forall i :: 0 <= i < n ==> IsDigit(s[i])
    ensures n < |s| ==> !IsDigit(s[n])
  {
    if s != [] && IsDigit(s[0]) then 1 + DigitRun(s[1..]) else 0
  }

  /** The value of the longest run of digits at the start of `body`; None when there is none. */
  function ParseDigits(body: string): (r: Option<nat>)
  {
    var n := DigitRun(body);
    if n == 0 then None else Some(DigitsValue(body[..n]))
  }

  /**
   * parseInt with radix 10: leading white space is skipped, one optional
   * sign is read, then the longest run of digits; no digits is NaN (None).
   */
  function ParseInt(s: string): (r: Option<int>)
    ensures TrimStart(s) == [] ==> r.None?
    ensures TrimStart(s) != [] && IsDigit(TrimStart(s)[0]) ==> r.Some? && r.value >= 0
    ensures TrimStart(s) != [] && !IsDigit(TrimStart(s)[0]) && TrimStart(s)[0] != '-' && TrimStart(s)[0] != '+' ==> r.None?
    ensures r.Some? && r.value < 0 ==> TrimStart(s)[0] == '-'
  {
    var t := TrimStart(s);
    if t != [] && t[0] == '-' then
      match ParseDigits(t[1..])
      case None => None
      case Some(v) => Some(0 - v)
    else if t != [] && t[0] == '+' then ParseDigits(t[1..])
    else ParseDigits(t)
  }

  lemma {:induction false} NatToStringValue(n: nat)
    ensures DigitsValue(NatToString(n)) == n
    decreases n
  {
    var r := NatToString(n);
    if n >= 10 {
      NatToStringValue(n / 10);
      assert r[..|r| - 1] == NatToString(n / 10);
    }
  }

  lemma {:induction false} DigitRunAllDigits(s: string)
    requires forall i :: 0 <= i < |s| ==> IsDigit(s[i])
    ensures DigitRun(s) == |s|
  {
    if s != [] {
      DigitRunAllDigits(s[1..]);
    }
  }

  /** Text that starts with a digit or a sign is not changed by TrimStart. */
  lemma TrimStartKeeps(s: string)
    requires s != [] && !IsJsSpace(s[0])
    ensures TrimStart(s) == s
  {
  }

  lemma ParseDigitsAll(digits: string)
    requires digits != [] && forall i :: 0 <= i < |digits| ==> IsDigit(digits[i])
    ensures ParseDigits(digits) == Some(DigitsValue(digits))
  {
    DigitRunAllDigits(digits);
    assert digits[..|digits|] == digits;
  }

  /** A minus sign in front of digits that parse to `v` parses to `-v`. */
  lemma ParseNegative(digits: string, v: nat)
    requires ParseDigits(digits) == Some(v)
    ensures ParseInt("-" + digits) == Some(0 - v)
  {
    var s := "-" + digits;
    assert s[0] == '-' && s[1..] == digits;
    assert TrimStart(s) == s;
  }

  /** Digits that parse to `v` on their own parse to `v` through parseInt. */
  lemma ParsePositive(digits: string, v: nat)
    requires ParseDigits(digits) == Some(v) && IsDigit(digits[0])
    ensures ParseInt(digits) == Some(v)
  {
    assert TrimStart(digits) == digits;
  }

  /** parseInt reads back exactly what toString wrote. */
  lemma ParseIntToString(n: int)
    ensures ParseInt(IntToString(n)) == Some(n)
  {
    var m := if n < 0 then -n else n;
    var digits := NatToString(m);
    NatToStringValue(m);
    ParseDigitsAll(digits);
    if n < 0 {
      ParseNegative(digits, m);
    } else {
      ParsePositive(digits, m);
    }
  }
}
