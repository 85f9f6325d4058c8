/** Text operations of JavaScript's String as the dashboard uses them, on
    `seq<char>`. Case folding is ASCII only: `toLowerCase` and
    `toUpperCase` of other letters are not modelled. */
module Strings {
  import opened Wrappers

  predicate IsUpper(c: char) { 'A' <= c <= 'Z' }
  predicate IsLowerLetter(c: char) { 'a' <= c <= 'z' }
  predicate IsDigit(c: char) { '0' <= c <= '9' }

  /** `toLowerCase` of one character. */
  function LowerChar(c: char): (r: char)
    ensures !IsUpper(r)
    ensures IsUpper(c) || r == c
  {
    if IsUpper(c) then (c as int + 32) as char else c
  }

  /** `toUpperCase` of one character. */
  function UpperChar(c: char): (r: char)
    ensures !IsLowerLetter(r)
    ensures IsLowerLetter(c) || r == c
  {
    if IsLowerLetter(c) then (c as int - 32) as char else c
  }

  /** `s.toLowerCase()` */
  function Lower(s: string): (r: string)
    ensures |r| == |s|
    ensures forall i :: 0 <= i < |s| ==> r[i] == LowerChar(s[i])
  {
    if s == [] then [] else [LowerChar(s[0])] + Lower(s[1..])
  }

  lemma LowerIdempotent(s: string)
    ensures Lower(Lower(s)) == Lower(s)
  {
    var l := Lower(s);
    assert forall i :: 0 <= i < |l| ==> LowerChar(l[i]) == l[i];
  }

  /** `sub` occurs in `s` starting at offset `i`. */
  predicate OccursAt(s: string, sub: string, i: int)
  {
    0 <= i && i + |sub| <= |s| && s[i..i + |sub|] == sub
  }

  /** `s.includes(sub)`: `sub` occurs in `s` at some offset. */
  predicate Contains(s: string, sub: string)
  {
    exists i :: 0 <= i <= |s| - |sub| && OccursAt(s, sub, i)
  }

  /** A scanning decision procedure for `Contains`, used by executable code. */
  function ContainsAt(s: string, sub: string, from: nat): (b: bool)
    requires from <= |s|
    ensures b <==> exists i :: from <= i && OccursAt(s, sub, i)
    decreases |s| - from
  {
    if |s| - from < |sub| then false
    else if s[from..from + |sub|] == sub then assert OccursAt(s, sub, from); true
    else ContainsAt(s, sub, from + 1)
  }

  function Includes(s: string, sub: string): (b: bool)
    ensures b <==> Contains(s, sub)
  {
    ContainsAt(s, sub, 0)
  }

  lemma EmptyIsContained(s: string)
    ensures Contains(s, [])
  {
    assert OccursAt(s, [], 0);
  }

  lemma ContainsItself(s: string)
    ensures Contains(s, s)
  {
    assert OccursAt(s, s, 0);
  }

  lemma ContainsChar(s: string, c: char)
    ensures Contains(s, [c]) <==> c in s
  {
    if c in s {
      var i :| 0 <= i < |s| && s[i] == c;
      assert s[i..i + 1] == [c];
      assert OccursAt(s, [c], i);
    }
    if Contains(s, [c]) {
      var i :| 0 <= i <= |s| - 1 && OccursAt(s, [c], i);
      assert s[i..i + 1] == [c];
      assert s[i] == c;
    }
  }

  /** Case-insensitive substring test, as `a.toLowerCase().includes(b.toLowerCase())`. */
  predicate ContainsIgnoreCase(s: string, sub: string)
  {
    Includes(Lower(s), Lower(sub))
  }

  lemma EmptySearchMatches(s: string)
    ensures ContainsIgnoreCase(s, "")
  {
    EmptyIsContained(Lower(s));
  }

  /** `s.startsWith(p)` */
  predicate StartsWith(s: string, p: string) { p <= s }

  /** JavaScript whitespace for `trim`, restricted to the ASCII and
      no-break space characters. */
  predicate IsSpace(c: char)
  {
    c == ' ' || c == '\t' || c == '\n' || c == '\r' || c == '\U{000B}' || c == '\U{000C}' || c == '\U{00A0}'
  }

  function TrimStart(s: string): (r: string)
    ensures |r| <= |s| && r == s[|s| - |r|..]
    ensures r == [] || !IsSpace(r[0])
    ensures forall i :: 0 <= i < |s| - |r| ==> IsSpace(s[i])
  {
    if s != [] && IsSpace(s[0]) then TrimStart(s[1..]) else s
  }

  function TrimEnd(s: string): (r: string)
    ensures |r| <= |s| && r == s[..|r|]
    ensures r == [] || !IsSpace(r[|r| - 1])
    ensures forall i :: |r| <= i < |s| ==> IsSpace(s[i])
  {
    if s != [] && IsSpace(s[|s| - 1]) then TrimEnd(s[..|s| - 1]) else s
  }

  /** `s.trim()`: the leading spaces dropped one by one, then the trailing ones. */
  function Trim(s: string): (r: string)
    ensures |r| <= |s|
    ensures r == [] <==> forall i :: 0 <= i < |s| ==> IsSpace(s[i])
  {
    if s != [] && IsSpace(s[0]) then Trim(s[1..])
    else
      var t := TrimEnd(s);
      assert s != [] ==> t != [] by {
        if s != [] {
          assert !IsSpace(s[0]);
        }
      }
      t
  }

  /** The characters a regular expression's `.` does not match. */
  predicate IsLineTerminator(c: char)
  {
    c == '\n' || c == '\r' || c == '\U{2028}' || c == '\U{2029}'
  }

  /** `/^.{lo,hi}$/.test(s)` */
  predicate DotsBetween(s: string, lo: nat, hi: nat)
  {
    lo <= |s| <= hi && forall i :: 0 <= i < |s| ==> !IsLineTerminator(s[i])
  }

  /** A string is blank when `trim()` leaves nothing. */
  predicate IsBlank(s: string) { Trim(s) == [] }

  /** `'*'.repeat(n)` and friends. */
  function Repeat(c: char, n: nat): (r: string)
    ensures |r| == n && forall i :: 0 <= i < n ==> r[i] == c
  {
    if n == 0 then [] else [c] + Repeat(c, n - 1)
  }

  /** `s.padStart(n, c)` */
  function PadStart(s: string, n: nat, c: char): (r: string)
    ensures |s| >= n ==> r == s
    ensures |s| < n ==> |r| == n && r[n - |s|..] == s
  {
    if |s| >= n then s else Repeat(c, n - |s|) + s
  }

  function DigitChar(d: nat): (c: char)
    requires d < 10
    ensures IsDigit(c) && c as int - '0' as int == d
  {
    ('0' as int + d) as char
  }

  /** `n.toString()` for a non-negative integer. */
  function NatToString(n: nat): (r: string)
    ensures 1 <= |r|
    ensures forall i :: 0 <= i < |r| ==> IsDigit(r[i])
    ensures n < 10 <==> |r| == 1
    ensures 10 <= n < 100 ==> |r| == 2
    decreases n
  {
    if n < 10 then [DigitChar(n)] else NatToString(n / 10) + [DigitChar(n % 10)]
  }

  function DigitValue(c: char): nat
    requires IsDigit(c)
  {
    c as int - '0' as int
  }

  /** Reads a string of decimal digits back as a number. */
  function ParseDigits(s: string): nat
    requires forall i :: 0 <= i < |s| ==> IsDigit(s[i])
  {
    if s == [] then 0 else 10 * ParseDigits(s[..|s| - 1]) + DigitValue(s[|s| - 1])
  }

  lemma {:induction false} NatToStringRoundTrip(n: nat)
    ensures ParseDigits(NatToString(n)) == n
    decreases n
  {
    var r := NatToString(n);
    if n >= 10 {
      NatToStringRoundTrip(n / 10);
      assert r[..|r| - 1] == NatToString(n / 10);
    }
  }

  /** `n.toString()` for any integer: a minus sign before negative numbers. */
  function IntToString(n: int): (r: string)
    ensures n >= 0 ==> r == NatToString(n)
    ensures n < 0 ==> r == ['-'] + NatToString(-n)
  {
    if n >= 0 then NatToString(n) else ['-'] + NatToString(-n)
  }

  /** 10^k, which exceeds k and, past 10^0, ends in a zero. */
  function Pow10(k: nat): (p: nat)
    ensures p >= 1 && k < p
    ensures k >= 1 ==> p % 10 == 0
  {
    if k == 0 then 1 else 10 * Pow10(k - 1)
  }

  /** Reading digits from the left: the first digit counts for 10^(number of the rest). */
  lemma {:induction false} ParseDigitsHead(c: char, s: string)
    requires IsDigit(c) && forall i :: 0 <= i < |s| ==> IsDigit(s[i])
    ensures ParseDigits([c] + s) == DigitValue(c) * Pow10(|s|) + ParseDigits(s)
    decreases |s|
  {
    var t := [c] + s;
    if s != [] {
      var init := s[..|s| - 1];
      assert t[..|t| - 1] == [c] + init && t[|t| - 1] == s[|s| - 1];
      ParseDigitsHead(c, init);
      var last := DigitValue(s[|s| - 1]);
      assert ParseDigits(t) == 10 * ParseDigits([c] + init) + last;
      assert ParseDigits(s) == 10 * ParseDigits(init) + last;
      assert Pow10(|s|) == 10 * Pow10(|init|);
      HeadStep(DigitValue(c), Pow10(|init|), ParseDigits([c] + init), ParseDigits(init), last);
    }
  }

  /** The arithmetic step of `ParseDigitsHead`: one more digit at the end. */
  lemma HeadStep(v: int, p: int, a: int, b: int, last: int)
    requires a == v * p + b
    ensures 10 * a + last == v * (10 * p) + (10 * b + last)
  {
  }

  /** The digits of a fraction `0 <= f < 1` after the decimal point, at most `n` of them,
      stopping as soon as nothing remains. */
  function FractionDigits(f: real, n: nat): (r: string)
    requires 0.0 <= f < 1.0
    ensures |r| <= n && forall i :: 0 <= i < |r| ==> IsDigit(r[i])
    decreases n
  {
    if f == 0.0 || n == 0 then []
    else
      var t := f * 10.0;
      [DigitChar(t.Floor)] + FractionDigits(t - t.Floor as real, n - 1)
  }

  /** `digits` is f scaled by `p` and truncated. */
  predicate Truncates(f: real, digits: nat, p: nat)
  {
    digits as real <= f * p as real < digits as real + 1.0
  }

  /** `digits` is f scaled by `p`, with nothing cut off. */
  predicate Exact(f: real, digits: nat, p: nat)
  {
    f * p as real == digits as real
  }

  /** The digits read back are f truncated to that many places, and f itself when fewer
      than `n` were needed. */
  lemma {:induction false} FractionDigitsValue(f: real, n: nat)
    requires 0.0 <= f < 1.0
    ensures var r := FractionDigits(f, n);
            Truncates(f, ParseDigits(r), Pow10(|r|)) &&
            (|r| < n ==> Exact(f, ParseDigits(r), Pow10(|r|)))
    decreases n
  {
    if f != 0.0 && n != 0 {
      var t := f * 10.0;
      var d := t.Floor;
      var g := t - d as real;
      var rest := FractionDigits(g, n - 1);
      FractionDigitsValue(g, n - 1);
      var r := FractionDigits(f, n);
      assert r == [DigitChar(d)] + rest;
      ParseDigitsHead(DigitChar(d), rest);
      ShiftDigit(f, d, g, Pow10(|rest|), ParseDigits(rest));
    } else {
      assert Pow10(0) == 1;
    }
  }

  /** One more digit in front: the arithmetic step of `FractionDigitsValue`. */
  lemma ShiftDigit(f: real, d: int, g: real, p: nat, q: nat)
    requires 0 <= d && f * 10.0 == d as real + g
    requires Truncates(g, q, p)
    ensures Truncates(f, d * p + q, 10 * p)
    ensures Exact(g, q, p) ==> Exact(f, d * p + q, 10 * p)
  {
    assert (10 * p) as real == 10.0 * p as real;
    assert (d * p) as real == d as real * p as real;
    assert f * (10.0 * p as real) == (d as real + g) * p as real;
  }

  /** `x + ""` for a number: a "-" before negatives, the digits of the whole part, and when
      there is a fraction, "." and its digits, up to twenty of them. */
  function RealToString(x: real): (r: string)
  {
    var a := if x < 0.0 then -x else x;
    var n := a.Floor;
    var frac := FractionDigits(a - n as real, 20);
    (if x < 0.0 then "-" else "") + NatToString(n) + (if frac == [] then "" else "." + frac)
  }

  /** A whole number's text is the integer's: no point and no fraction digits. */
  lemma WholeRealToString(n: int)
    ensures RealToString(n as real) == IntToString(n)
  {
    var a := if n < 0 then -n else n;
    assert (if n as real < 0.0 then -(n as real) else n as real) == a as real;
    assert (a as real).Floor == a;
  }

  /** 12.5 is sent as "12.5" and 0.25 as "0.25". */
  lemma FractionalRealToString()
    ensures RealToString(12.5) == "12.5"
    ensures RealToString(0.25) == "0.25"
  {
    assert (12.5).Floor == 12;
    assert (5.0).Floor == 5;
    assert FractionDigits(0.0, 19) == [];
    assert FractionDigits(0.5, 20) == "5";
    assert NatToString(12) == "12";
    assert (0.25).Floor == 0;
    assert (2.5).Floor == 2;
    assert FractionDigits(0.0, 18) == [];
    assert FractionDigits(0.5, 19) == "5";
    assert FractionDigits(0.25, 20) == "25";
  }

  /** `s.slice(-k)` for k > 0: the last k characters, or all of s if shorter. */
  function TakeLast(s: string, k: nat): (r: string)
    ensures |r| == if |s| < k then |s| else k
    ensures r == s[|s| - |r|..]
  {
    if |s| <= k then s else s[|s| - k..]
  }

  /** `s.split(pat)` for a non-empty pattern: the pieces between the
      non-overlapping occurrences of `pat`, found left to right. */
  function SplitOn(s: string, pat: string): (r: seq<string>)
    requires pat != []
    ensures |r| >= 1
    decreases |s|
  {
    if |s| < |pat| then [s]
    else if pat <= s then [[]] + SplitOn(s[|pat|..], pat)
    else
      var rest := SplitOn(s[1..], pat);
      [[s[0]] + rest[0]] + rest[1..]
  }

  /** Splitting on one character cuts a string at every occurrence of it. */
  lemma {:induction false} SplitAtSeparator(a: string, c: char, b: string)
    ensures SplitOn(a + [c] + b, [c]) == SplitOn(a, [c]) + SplitOn(b, [c])
    decreases |a|
  {
    var s := a + [c] + b;
    if a == [] {
      assert [c] <= s;
      assert s[1..] == b;
    } else if a[0] == c {
      assert [c] <= s && [c] <= a;
      assert s[1..] == a[1..] + [c] + b;
      SplitAtSeparator(a[1..], c, b);
    } else {
      assert s[1..] == a[1..] + [c] + b;
      SplitAtSeparator(a[1..], c, b);
    }
  }

  /** No piece of a split on one character contains that character. */
  lemma {:induction false} SplitPiecesAvoid(s: string, c: char)
    ensures forall k :: 0 <= k < |SplitOn(s, [c])| ==> c !in SplitOn(s, [c])[k]
    decreases |s|
  {
    if |s| >= 1 {
      SplitPiecesAvoid(s[1..], c);
    }
  }

  /** A string in which the pattern never occurs splits into itself alone. */
  lemma {:induction false} SplitOnAbsent(s: string, pat: string)
    requires pat != [] && !Contains(s, pat)
    ensures SplitOn(s, pat) == [s]
    decreases |s|
  {
    if |s| >= |pat| {
      assert !(pat <= s) by {
        if pat <= s {
          assert OccursAt(s, pat, 0);
        }
      }
      assert !Contains(s[1..], pat) by {
        if Contains(s[1..], pat) {
          var i :| 0 <= i <= |s[1..]| - |pat| && OccursAt(s[1..], pat, i);
          assert s[i + 1..i + 1 + |pat|] == s[1..][i..i + |pat|];
          assert OccursAt(s, pat, i + 1);
        }
      }
      SplitOnAbsent(s[1..], pat);
      assert [s[0]] + s[1..] == s;
    }
  }

  /** The first piece of a split is a prefix of the string. */
  lemma {:induction false} SplitOnFirstPrefix(s: string, pat: string)
    requires pat != []
    ensures SplitOn(s, pat)[0] <= s
    decreases |s|
  {
    if |s| >= |pat| && !(pat <= s) {
      SplitOnFirstPrefix(s[1..], pat);
      var head := SplitOn(s[1..], pat)[0];
      assert ([s[0]] + head)[1..] == head;
      assert s == [s[0]] + s[1..];
    }
  }

  /** A string that starts with the pattern splits into an empty piece and the splits of the rest. */
  lemma SplitOnLeading(pat: string, t: string)
    requires pat != []
    ensures SplitOn(pat + t, pat) == [[]] + SplitOn(t, pat)
  {
    assert pat <= pat + t;
    assert (pat + t)[|pat|..] == t;
  }

  /** `parts.join(sep)` */
  function Join(parts: seq<string>, sep: string): (r: string)
  {
    if parts == [] then []
    else if |parts| == 1 then parts[0]
    else parts[0] + sep + Join(parts[1..], sep)
  }

  lemma JoinConsHead(c: char, parts: seq<string>, sep: string)
    requires parts != []
    ensures Join([[c] + parts[0]] + parts[1..], sep) == [c] + Join(parts, sep)
  {
    var q := [[c] + parts[0]] + parts[1..];
    assert q[1..] == parts[1..];
  }

  /** The text `replaceAll` puts in place of one match of a string pattern: `rep` with its
      `$` patterns expanded. "$$" stands for "$", "$&" for the match, "$`" for the text before
      it and "$'" for the text after it; any other "$" is kept as written. */
  function Substitution(rep: string, matched: string, before: string, after: string): (r: string)
    ensures '$' !in rep ==> r == rep
    decreases |rep|
  {
    if rep == [] then []
    else if rep[0] == '$' && |rep| >= 2 && rep[1] in "$&`'" then
      (if rep[1] == '$' then "$" else if rep[1] == '&' then matched else if rep[1] == '`' then before else after)
      + Substitution(rep[2..], matched, before, after)
    else [rep[0]] + Substitution(rep[1..], matched, before, after)
  }

  /** `replaceAll` from offset `i` of `s` on: every non-overlapping occurrence, scanning
      left to right, is replaced by its substitution, which sees the whole of `s`. */
  function ReplaceAllFrom(s: string, pat: string, rep: string, i: nat): (r: string)
    requires pat != [] && i <= |s|
    decreases |s| - i
  {
    if |s| - i < |pat| then s[i..]
    else if pat <= s[i..] then Substitution(rep, pat, s[..i], s[i + |pat|..]) + ReplaceAllFrom(s, pat, rep, i + |pat|)
    else [s[i]] + ReplaceAllFrom(s, pat, rep, i + 1)
  }

  /** `s.replaceAll(pat, rep)` for a non-empty string pattern. */
  function ReplaceAll(s: string, pat: string, rep: string): (r: string)
    requires pat != []
  {
    ReplaceAllFrom(s, pat, rep, 0)
  }

  /** Every non-overlapping occurrence replaced by `rep` itself, with no `$` patterns. */
  function ReplaceText(s: string, pat: string, rep: string): (r: string)
    requires pat != []
    decreases |s|
  {
    if |s| < |pat| then s
    else if pat <= s then rep + ReplaceText(s[|pat|..], pat, rep)
    else [s[0]] + ReplaceText(s[1..], pat, rep)
  }

  lemma {:induction false} ReplaceFromVerbatim(s: string, pat: string, rep: string, i: nat)
    requires pat != [] && i <= |s| && '$' !in rep
    ensures ReplaceAllFrom(s, pat, rep, i) == ReplaceText(s[i..], pat, rep)
    decreases |s| - i
  {
    var t := s[i..];
    if |s| - i < |pat| {
    } else if pat <= t {
      ReplaceFromVerbatim(s, pat, rep, i + |pat|);
      assert t[|pat|..] == s[i + |pat|..];
    } else {
      ReplaceFromVerbatim(s, pat, rep, i + 1);
      assert t[1..] == s[i + 1..];
    }
  }

  /** Without a "$" in the replacement, `replaceAll` inserts the replacement as written. */
  lemma ReplaceAllVerbatim(s: string, pat: string, rep: string)
    requires pat != [] && '$' !in rep
    ensures ReplaceAll(s, pat, rep) == ReplaceText(s, pat, rep)
  {
    ReplaceFromVerbatim(s, pat, rep, 0);
    assert s[0..] == s;
  }

  /** Verbatim replacement agrees with its independent definition `s.split(pat).join(rep)`. */
  lemma {:induction false} ReplaceTextIsSplitJoin(s: string, pat: string, rep: string)
    requires pat != []
    ensures ReplaceText(s, pat, rep) == Join(SplitOn(s, pat), rep)
    decreases |s|
  {
    if |s| < |pat| {
    } else if pat <= s {
      ReplaceTextIsSplitJoin(s[|pat|..], pat, rep);
      var rest := SplitOn(s[|pat|..], pat);
      assert ([[]] + rest)[1..] == rest;
    } else {
      ReplaceTextIsSplitJoin(s[1..], pat, rep);
      JoinConsHead(s[0], SplitOn(s[1..], pat), rep);
    }
  }

  /** With a replacement free of "$", `replaceAll` is `s.split(pat).join(rep)`. */
  lemma ReplaceAllIsSplitJoin(s: string, pat: string, rep: string)
    requires pat != [] && '$' !in rep
    ensures ReplaceAll(s, pat, rep) == Join(SplitOn(s, pat), rep)
  {
    ReplaceAllVerbatim(s, pat, rep);
    ReplaceTextIsSplitJoin(s, pat, rep);
  }

  /** An occurrence in the tail is an occurrence one position later in the whole string. */
  lemma OccursShift(s: string, pat: string, i: int)
    requires |s| >= 1 && 0 <= i
    ensures OccursAt(s[1..], pat, i) <==> OccursAt(s, pat, i + 1)
  {
    if i + |pat| <= |s| - 1 {
      assert s[1..][i..i + |pat|] == s[i + 1..i + 1 + |pat|];
    }
  }

  lemma {:induction false} ReplaceFromAbsent(s: string, pat: string, rep: string, i: nat)
    requires pat != [] && i <= |s|
    requires forall j :: i <= j ==> !OccursAt(s, pat, j)
    ensures ReplaceAllFrom(s, pat, rep, i) == s[i..]
    decreases |s| - i
  {
    if |s| - i >= |pat| {
      assert !OccursAt(s, pat, i);
      assert s[i..][..|pat|] == s[i..i + |pat|];
      ReplaceFromAbsent(s, pat, rep, i + 1);
    }
  }

  /** A string without the pattern is left unchanged, whatever the replacement holds. */
  lemma ReplaceAllAbsent(s: string, pat: string, rep: string)
    requires pat != []
    requires !Contains(s, pat)
    ensures ReplaceAll(s, pat, rep) == s
  {
    ReplaceFromAbsent(s, pat, rep, 0);
  }

  /** With a replacement free of "$", a leading occurrence is replaced and the scan resumes
      after it. */
  lemma ReplaceAllLeading(pat: string, t: string, rep: string)
    requires pat != [] && '$' !in rep
    ensures ReplaceAll(pat + t, pat, rep) == rep + ReplaceAll(t, pat, rep)
  {
    var s := pat + t;
    assert pat <= s;
    assert s[|pat|..] == t;
    ReplaceAllVerbatim(s, pat, rep);
    ReplaceAllVerbatim(t, pat, rep);
  }

  /** Position just after the last occurrence of `c`, or 0 if there is none:
      `s.substring(s.lastIndexOf(c) + 1)` starts here. */
  function AfterLast(s: string, c: char): (k: nat)
    ensures k <= |s|
    ensures k > 0 ==> s[k - 1] == c
    ensures forall i :: k <= i < |s| ==> s[i] != c
  {
    if s == [] then 0
    else if s[|s| - 1] == c then |s|
    else AfterLast(s[..|s| - 1], c)
  }

  /** `s.replaceAll(c, "")` for a one-character pattern. */
  function RemoveChar(s: string, c: char): (r: string)
    ensures c !in r
    ensures |r| <= |s|
    ensures c !in s ==> r == s
  {
    if s == [] then []
    else if s[0] == c then RemoveChar(s[1..], c)
    else [s[0]] + RemoveChar(s[1..], c)
  }

  lemma {:induction false} RemoveCharIsReplaceText(s: string, c: char)
    ensures RemoveChar(s, c) == ReplaceText(s, [c], [])
    decreases |s|
  {
    if s != [] {
      RemoveCharIsReplaceText(s[1..], c);
      assert [c] <= s <==> s[0] == c;
    }
  }

  /** `s.replaceAll(c, "")`: every c removed. */
  lemma RemoveCharIsReplaceAll(s: string, c: char)
    ensures RemoveChar(s, c) == ReplaceAll(s, [c], [])
  {
    RemoveCharIsReplaceText(s, c);
    ReplaceAllVerbatim(s, [c], []);
  }
}
