/**
 The string operations of Go's `strings` and `strconv` packages that the service
 relies on. A Go string is a sequence of Unicode characters here; comparing
 characters by code point gives the order Go gets by comparing UTF-8 bytes.
 */
module Text {
  import opened Wrappers
  import opened Sorting

  // ---------------------------------------------------------------- trimming

  /** unicode.IsSpace */
  predicate IsSpace(c: char) {
    var n := c as int;
    || 9 <= n <= 13 || n == 32 || n == 0x85 || n == 0xA0 || n == 0x1680
    || 0x2000 <= n <= 0x200A || n == 0x2028 || n == 0x2029 || n == 0x202F
    || n == 0x205F || n == 0x3000
  }

  /** The white space characters of Unicode, one by one. */
  lemma SpacesAre(c: char)
    ensures IsSpace(c) <==>
            c as int in {0x9, 0xA, 0xB, 0xC, 0xD, 0x20, 0x85, 0xA0, 0x1680, 0x2000, 0x2001, 0x2002, 0x2003, 0x2004,
                         0x2005, 0x2006, 0x2007, 0x2008, 0x2009, 0x200A, 0x2028, 0x2029, 0x202F, 0x205F, 0x3000}
  {
  }

  predicate Trimmed(s: string) {
    s == [] || (!IsSpace(s[0]) && !IsSpace(s[|s| - 1]))
  }

  function TrimLeft(s: string): (r: string)
    ensures r == [] || !IsSpace(r[0])
    ensures |r| <= |s| && forall c :: c in r ==> c in s
  {
    if s != [] && IsSpace(s[0]) then TrimLeft(s[1..]) else s
  }

  function TrimRight(s: string): (r: string)
    ensures r == [] || !IsSpace(r[|r| - 1])
    ensures |r| <= |s| && forall c :: c in r ==> c in s
    ensures r != [] ==> r[0] == s[0]
  {
    if s != [] && IsSpace(s[|s| - 1]) then TrimRight(s[..|s| - 1]) else s
  }

  /** strings.TrimSpace */
  function Trim(s: string): (r: string)
    ensures Trimmed(r)
    ensures Trimmed(s) ==> r == s
    ensures forall c :: c in r ==> c in s
    ensures |r| <= |s|
  {
    TrimRight(TrimLeft(s))
  }

  lemma {:induction false} AllBlankLeft(s: string)
    requires TrimLeft(s) == ""
    ensures forall i :: 0 <= i < |s| ==> IsSpace(s[i])
  {
    if s == [] {
    } else {
      AllBlankLeft(s[1..]);
      assert forall i :: 1 <= i < |s| ==> s[i] == s[1..][i - 1];
    }
  }

  lemma {:induction false} AllBlankRight(s: string)
    requires TrimRight(s) == ""
    ensures forall i :: 0 <= i < |s| ==> IsSpace(s[i])
  {
    if s == [] {
    } else {
      AllBlankRight(s[..|s| - 1]);
    }
  }

  /** Only blank strings trim to nothing. */
  lemma NonBlank(s: string, i: nat)
    requires i < |s| && !IsSpace(s[i])
    ensures Trim(s) != ""
  {
    if Trim(s) == "" {
      AllBlankRight(TrimLeft(s));
      assert TrimLeft(s) == "";
      AllBlankLeft(s);
      assert false;
    }
  }

  lemma {:induction false} TrimLeftCuts(s: string) returns (i: nat)
    ensures i <= |s| && TrimLeft(s) == s[i..] && forall k :: 0 <= k < i ==> IsSpace(s[k])
  {
    if s == [] || !IsSpace(s[0]) {
      i := 0;
    } else {
      var j := TrimLeftCuts(s[1..]);
      i := j + 1;
      assert forall k :: 1 <= k < i ==> s[k] == s[1..][k - 1];
    }
  }

  lemma {:induction false} TrimRightCuts(s: string) returns (j: nat)
    ensures j <= |s| && TrimRight(s) == s[..j] && forall k :: j <= k < |s| ==> IsSpace(s[k])
  {
    var n := |s|;
    if s == [] || !IsSpace(s[n - 1]) {
      j := n;
    } else {
      j := TrimRightCuts(s[..n - 1]);
      assert forall k :: j <= k < n - 1 ==> s[k] == s[..n - 1][k];
    }
  }

  /** Trimming removes the blanks around a string, all of them and nothing else. */
  lemma TrimIsMiddle(s: string) returns (i: nat, j: nat)
    ensures i <= j <= |s| && Trim(s) == s[i..j]
    ensures forall k :: 0 <= k < i || j <= k < |s| ==> IsSpace(s[k])
    ensures i < j ==> !IsSpace(s[i]) && !IsSpace(s[j - 1])
  {
    hide TrimLeft, TrimRight;
    i := TrimLeftCuts(s);
    var t := s[i..];
    var m := TrimRightCuts(t);
    j := i + m;
    assert t[..m] == s[i..j];
    assert forall k :: j <= k < |s| ==> s[k] == t[k - i];
    assert Trim(s) == s[i..j];
  }

  /** The trimmed, non-blank items of a list, in order. */
  function TrimNonEmpty(items: seq<string>): (r: seq<string>) {
    if items == [] then []
    else
      var n := |items| - 1;
      TrimNonEmpty(items[..n]) + (if Trim(items[n]) == "" then [] else [Trim(items[n])])
  }

  /** Nothing but blanks is lost. */
  lemma {:induction false} TrimNonEmptyElements(items: seq<string>, x: string)
    ensures x in TrimNonEmpty(items) <==> x != "" && exists i :: 0 <= i < |items| && Trim(items[i]) == x
  {
    hide Trim, Trimmed;
    if items == [] {
    } else {
      var n := |items| - 1;
      TrimNonEmptyElements(items[..n], x);
      TrimsTo(items, x);
    }
  }

  lemma TrimsTo(items: seq<string>, x: string)
    requires items != []
    ensures var n := |items| - 1;
            (exists i :: 0 <= i < |items| && Trim(items[i]) == x) <==>
            (exists i :: 0 <= i < n && Trim(items[..n][i]) == x) || Trim(items[n]) == x
  {
    hide Trim, Trimmed;
    var n := |items| - 1;
    assert forall i :: 0 <= i < n ==> items[..n][i] == items[i];
    if i :| 0 <= i < |items| && Trim(items[i]) == x {
      assert i < n ==> Trim(items[..n][i]) == x;
    }
  }

  lemma {:induction false} TrimNonEmptyFixed(items: seq<string>)
    requires forall i :: 0 <= i < |items| ==> items[i] != "" && Trimmed(items[i])
    ensures TrimNonEmpty(items) == items
  {
    hide Trim, Trimmed;
    if items == [] {
    } else {
      var n := |items| - 1;
      TrimNonEmptyFixed(items[..n]);
      assert Trim(items[n]) == items[n];
      assert items == items[..n] + [items[n]];
    }
  }

  // ------------------------------------------------------------ letter case

  function LowerChar(c: char): (r: char) {
    if 'A' <= c <= 'Z' then (c as int + 32) as char else c
  }

  /** strings.ToLower on ASCII letters. */
  function Lower(s: string): (r: string)
    ensures |r| == |s|
    ensures forall i :: 0 <= i < |s| ==> r[i] == LowerChar(s[i])
  {
    seq(|s|, i requires 0 <= i < |s| => LowerChar(s[i]))
  }

  const UPPER_LETTERS: string := "ABCDEFGHIJKLMNOPQRSTUVWXYZ"
  const LOWER_LETTERS: string := "abcdefghijklmnopqrstuvwxyz"

  /** Each upper-case letter becomes the lower-case one, and everything else stays. */
  lemma LowerLetters(c: char)
    ensures forall i :: 0 <= i < 26 ==> LowerChar(UPPER_LETTERS[i]) == LOWER_LETTERS[i]
    ensures c !in UPPER_LETTERS ==> LowerChar(c) == c
  {
    assert |UPPER_LETTERS| == 26 && |LOWER_LETTERS| == 26;
    forall i | 0 <= i < 26
      ensures UPPER_LETTERS[i] as int == 65 + i && LOWER_LETTERS[i] as int == 97 + i
    {
    }
    if 'A' <= c <= 'Z' {
      assert UPPER_LETTERS[c as int - 65] == c;
    }
  }

  /** strings.EqualFold on ASCII letters. */
  predicate EqualFold(a: string, b: string) {
    Lower(a) == Lower(b)
  }

  /** unicode.ToUpper as far as its result is ASCII: the dotless i and the long s map to I and S. */
  function UpperChar(c: char): (r: char) {
    if 'a' <= c <= 'z' then (c as int - 32) as char
    else if c as int == 0x131 then 'I'
    else if c as int == 0x17F then 'S'
    else c
  }

  /** normalizeASCIIUpper: trim, upper-case, and drop every non-ASCII character. */
  function AsciiUpper(s: string): (r: string) {
    KeepAsciiUpper(Trim(s))
  }

  function KeepAsciiUpper(s: string): (r: string)
    ensures forall c :: c in r ==> c as int <= 127 && !('a' <= c <= 'z')
  {
    if s == [] then []
    else (if UpperChar(s[0]) as int > 127 then [] else [UpperChar(s[0])]) + KeepAsciiUpper(s[1..])
  }

  /** Character by character: letters are raised, non-ASCII characters that do not become ASCII are dropped. */
  lemma {:induction false} AsciiUpperReads(s: string, c: char)
    ensures AsciiUpper(s) == KeepAsciiUpper(Trim(s))
    ensures KeepAsciiUpper("") == ""
    ensures forall i :: 0 <= i < 26 ==> KeepAsciiUpper([LOWER_LETTERS[i]] + s) == [UPPER_LETTERS[i]] + KeepAsciiUpper(s)
    ensures c as int == 0x131 ==> KeepAsciiUpper([c] + s) == "I" + KeepAsciiUpper(s)
    ensures c as int == 0x17F ==> KeepAsciiUpper([c] + s) == "S" + KeepAsciiUpper(s)
    ensures c as int <= 127 && c !in LOWER_LETTERS ==> KeepAsciiUpper([c] + s) == [c] + KeepAsciiUpper(s)
    ensures c as int > 127 && c as int != 0x131 && c as int != 0x17F ==> KeepAsciiUpper([c] + s) == KeepAsciiUpper(s)
  {
    hide Trim;
    assert |UPPER_LETTERS| == 26 && |LOWER_LETTERS| == 26;
    forall i | 0 <= i < 26
      ensures UPPER_LETTERS[i] as int == 65 + i && LOWER_LETTERS[i] as int == 97 + i
    {
    }
    forall i | 0 <= i < 26
      ensures KeepAsciiUpper([LOWER_LETTERS[i]] + s) == [UPPER_LETTERS[i]] + KeepAsciiUpper(s)
    {
      assert ([LOWER_LETTERS[i]] + s)[1..] == s;
      assert UpperChar(LOWER_LETTERS[i]) == UPPER_LETTERS[i];
    }
    assert ([c] + s)[1..] == s;
    if 'a' <= c <= 'z' {
      assert LOWER_LETTERS[c as int - 97] == c;
    }
  }

  predicate HasPrefix(s: string, p: string) {
    |p| <= |s| && s[..|p|] == p
  }

  // ------------------------------------------------------------------ order

  /** The `<` of Go strings. */
  predicate Less(a: string, b: string) {
    if b == [] then false
    else if a == [] then true
    else a[0] < b[0] || (a[0] == b[0] && Less(a[1..], b[1..]))
  }

  /** a and b agree up to k, where a ends or has the smaller code point. */
  predicate DiffersAt(a: string, b: string, k: nat) {
    && k <= |a| && k < |b| && a[..k] == b[..k]
    && (k == |a| || a[k] as int < b[k] as int)
  }

  /** The first difference decides; a proper prefix comes first. */
  ghost predicate Precedes(a: string, b: string) {
    exists k: nat :: DiffersAt(a, b, k)
  }

  lemma {:induction false} LessExact(a: string, b: string)
    ensures Less(a, b) <==> Precedes(a, b)
  {
    if a == [] || b == [] {
      assert b != [] ==> DiffersAt(a, b, 0);
    } else {
      var s, t := a[1..], b[1..];
      LessExact(s, t);
      if a[0] < b[0] {
        assert DiffersAt(a, b, 0);
      }
      if a[0] == b[0] && Precedes(s, t) {
        var k: nat :| DiffersAt(s, t, k);
        assert a[..k + 1] == [a[0]] + s[..k] && b[..k + 1] == [b[0]] + t[..k];
        assert DiffersAt(a, b, k + 1);
      }
      if Precedes(a, b) && !(a[0] < b[0]) {
        var k: nat :| DiffersAt(a, b, k);
        assert a[0] == a[..k][0] == b[..k][0] == b[0];
        assert s[..k - 1] == a[..k][1..] && t[..k - 1] == b[..k][1..];
        assert DiffersAt(s, t, k - 1);
      }
    }
  }

  lemma {:induction false} LessTrichotomy(a: string, b: string)
    ensures a == b || Less(a, b) || Less(b, a)
    ensures !(Less(a, b) && Less(b, a))
    ensures a == b ==> !Less(a, b)
  {
    if a == [] || b == [] || a[0] != b[0] {
    } else {
      LessTrichotomy(a[1..], b[1..]);
      if a[1..] == b[1..] {
        assert a == [a[0]] + a[1..] && b == [b[0]] + b[1..];
      }
    }
  }

  lemma {:induction false} LessTransitive(a: string, b: string, c: string)
    requires Less(a, b) && Less(b, c)
    ensures Less(a, c)
  {
    if a == [] || a[0] != b[0] || b[0] != c[0] {
    } else {
      LessTransitive(a[1..], b[1..], c[1..]);
    }
  }

  /** So sorting strings by it makes sense. */
  lemma LessIsOrder()
    ensures StrictWeakOrder(Less)
  {
    forall x: string ensures !Less(x, x) {
      LessTrichotomy(x, x);
    }
    forall x: string, y, z | Less(x, y) && Less(y, z) ensures Less(x, z) {
      LessTransitive(x, y, z);
    }
    forall x: string, y, z | !Less(x, y) && !Less(y, z) ensures !Less(x, z) {
      LessTrichotomy(x, y);
      LessTrichotomy(y, z);
      LessTrichotomy(x, z);
      if y != x && y != z {
        LessTransitive(z, y, x);
      }
    }
  }

  // ---------------------------------------------------------------- numbers

  function DigitChar(d: nat): (c: char)
    requires d < 10
  {
    (48 + d) as char
  }

  predicate IsDigit(c: char) {
    '0' <= c <= '9'
  }

  function DigitValue(c: char): (d: nat)
    requires IsDigit(c)
    ensures d < 10
  {
    c as int - 48
  }

  function Digits(n: nat): (s: string)
    ensures s != []
    ensures forall i :: 0 <= i < |s| ==> IsDigit(s[i])
  {
    if n < 10 then [DigitChar(n)] else Digits(n / 10) + [DigitChar(n % 10)]
  }

  /** strconv.FormatInt(n, 10) */
  function FormatInt(n: int): (s: string)
    ensures s != []
    ensures forall i :: 0 <= i < |s| ==> IsDigit(s[i]) || s[i] == '-'
  {
    if n < 0 then "-" + Digits(-n) else Digits(n)
  }

  predicate AllDigits(s: string) {
    s != [] && forall i :: 0 <= i < |s| ==> IsDigit(s[i])
  }

  function DecimalValue(s: string): (n: nat)
    requires forall i :: 0 <= i < |s| ==> IsDigit(s[i])
  {
    if s == [] then 0 else 10 * DecimalValue(s[..|s| - 1]) + DigitValue(s[|s| - 1])
  }

  /** strconv.ParseInt(s, 10, 64): optional sign, at least one digit, int64 range. */
  function ParseInt(s: string): (r: Option<Int64>) {
    var negative := s != [] && s[0] == '-';
    var body := if s != [] && (s[0] == '-' || s[0] == '+') then s[1..] else s;
    if !AllDigits(body) then None
    else
      var v: int := DecimalValue(body);
      var n := if negative then -v else v;
      if -0x8000_0000_0000_0000 <= n <= 0x7fff_ffff_ffff_ffff then Some(n) else None
  }

  lemma {:induction false} DecimalOfDigits(n: nat)
    ensures DecimalValue(Digits(n)) == n
  {
    if n < 10 {
      assert Digits(n)[..0] == [];
    } else {
      var s := Digits(n);
      assert s[..|s| - 1] == Digits(n / 10);
      DecimalOfDigits(n / 10);
    }
  }

  /** Printing an int64 and reading it back gives the same number. */
  lemma ParseFormatInt(n: Int64)
    ensures ParseInt(FormatInt(n)) == Some(n)
  {
    if n < 0 {
      var m: nat := -(n as int);
      DecimalOfDigits(m);
      assert FormatInt(n)[1..] == Digits(m);
    } else {
      DecimalOfDigits(n);
    }
  }

  /** Decimal notation as people write it. */
  lemma DecimalSamples()
    ensures FormatInt(0) == "0" && FormatInt(7) == "7" && FormatInt(-42) == "-42" && FormatInt(1903) == "1903"
    ensures ParseInt("+5") == Some(5) && ParseInt("") == None && ParseInt("-") == None && ParseInt("1x") == None
  {
    assert Digits(1903) == Digits(190) + "3" == Digits(19) + "0" + "3" == Digits(1) + "9" + "0" + "3";
    assert Digits(42) == Digits(4) + "2";
    assert "+5"[1..] == "5" && "5"[..0] == "" && DecimalValue("5") == 5;
    assert "-"[1..] == "";
    assert "1x"[1] == 'x' && !IsDigit('x');
  }

  lemma FormatIntTrimmed(n: int)
    ensures Trimmed(FormatInt(n))
    ensures '\n' !in FormatInt(n)
  {
  }

  // ------------------------------------------------------------------ lines

  function IndexOfNewline(s: string): (i: nat)
    ensures i <= |s|
    ensures '\n' !in s[..i]
    ensures i < |s| ==> s[i] == '\n'
  {
    if s == [] || s[0] == '\n' then 0 else 1 + IndexOfNewline(s[1..])
  }

  /** strings.Split(s, "\n") */
  function SplitLines(s: string): (lines: seq<string>)
    ensures |lines| >= 1
    decreases |s|
  {
    var i := IndexOfNewline(s);
    if i == |s| then [s] else [s[..i]] + SplitLines(s[i + 1..])
  }

  /** strings.Join(lines, "\n") */
  function JoinLines(lines: seq<string>): (s: string)
    requires |lines| >= 1
  {
    if |lines| == 1 then lines[0] else lines[0] + "\n" + JoinLines(lines[1..])
  }

  lemma FirstNewline(line: string, rest: string)
    requires '\n' !in line
    ensures IndexOfNewline(line + "\n" + rest) == |line|
    ensures IndexOfNewline(line) == |line|
  {
    var s := line + "\n" + rest;
    var i := IndexOfNewline(s);
    assert forall k :: 0 <= k < |line| ==> s[k] == line[k] && line[k] != '\n';
    assert s[|line|] == '\n';
    assert forall k :: 0 <= k < i ==> s[..i][k] == s[k] && s[k] != '\n';
  }

  lemma SplitFirst(line: string, rest: string)
    requires '\n' !in line
    ensures SplitLines(line + "\n" + rest) == [line] + SplitLines(rest)
  {
    hide IndexOfNewline;
    var s := line + "\n" + rest;
    FirstNewline(line, rest);
    assert s[..|line|] == line && s[|line| + 1..] == rest;
  }

  /** Splitting undoes joining when no line holds a newline. */
  lemma {:induction false} SplitJoin(lines: seq<string>)
    requires |lines| >= 1
    requires forall i :: 0 <= i < |lines| ==> '\n' !in lines[i]
    ensures SplitLines(JoinLines(lines)) == lines
  {
    hide IndexOfNewline, SplitLines;
    if |lines| == 1 {
      SplitOne(lines[0]);
    } else {
      SplitFirst(lines[0], JoinLines(lines[1..]));
      SplitJoin(lines[1..]);
    }
  }

  lemma SplitOne(line: string)
    requires '\n' !in line
    ensures SplitLines(line) == [line]
  {
    hide IndexOfNewline;
    FirstNewline(line, []);
  }

  lemma JoinCons(line: string, rest: seq<string>)
    requires |rest| >= 1
    ensures JoinLines([line] + rest) == line + "\n" + JoinLines(rest)
  {
    assert ([line] + rest)[1..] == rest;
  }

  lemma CutAt(s: string, i: nat)
    requires i < |s| && s[i] == '\n'
    ensures s == s[..i] + "\n" + s[i + 1..]
  {
  }

  /** Splitting cuts at every newline and nowhere else. */
  lemma {:induction false} JoinSplit(s: string)
    ensures JoinLines(SplitLines(s)) == s
    ensures forall i :: 0 <= i < |SplitLines(s)| ==> '\n' !in SplitLines(s)[i]
    decreases |s|
  {
    hide IndexOfNewline, JoinLines;
    var i := IndexOfNewline(s);
    if i == |s| {
      assert s[..i] == s;
      JoinOne(s);
    } else {
      JoinSplit(s[i + 1..]);
      JoinCons(s[..i], SplitLines(s[i + 1..]));
      CutAt(s, i);
    }
  }

  lemma JoinOne(line: string)
    ensures JoinLines([line]) == line
  {
  }

  /** The length of a joined text, one line at a time. */
  function TotalLength(lines: seq<string>): (n: nat) {
    if lines == [] then 0 else |lines[0]| + 1 + TotalLength(lines[1..])
  }

  lemma {:induction false} JoinLength(lines: seq<string>)
    requires |lines| >= 1
    ensures |JoinLines(lines)| + 1 == TotalLength(lines)
  {
    if |lines| == 1 {
    } else {
      JoinLength(lines[1..]);
    }
  }

  /** Two texts joined from lines of pairwise equal lengths are equal only if every line is. */
  lemma {:induction false} JoinInjectiveOnLengths(a: seq<string>, b: seq<string>)
    requires |a| == |b| >= 1
    requires forall i :: 0 <= i < |a| ==> |a[i]| == |b[i]|
    requires JoinLines(a) == JoinLines(b)
    ensures a == b
  {
    if |a| == 1 {
    } else {
      var sa, sb := JoinLines(a), JoinLines(b);
      var n := |a[0]|;
      assert a[0] == sa[..n] == sb[..n] == b[0];
      assert JoinLines(a[1..]) == sa[n + 1..] == sb[n + 1..] == JoinLines(b[1..]);
      JoinInjectiveOnLengths(a[1..], b[1..]);
    }
  }

  /** Equal totals leave no room for one line to differ in length. */
  lemma {:induction false} OneLineLength(a: seq<string>, b: seq<string>, k: nat)
    requires |a| == |b| && k < |a|
    requires forall i :: 0 <= i < |a| && i != k ==> |a[i]| == |b[i]|
    requires TotalLength(a) == TotalLength(b)
    ensures |a[k]| == |b[k]|
  {
    if k == 0 {
      TotalLengthAgree(a[1..], b[1..]);
    } else {
      OneLineLength(a[1..], b[1..], k - 1);
    }
  }

  lemma {:induction false} TotalLengthAgree(a: seq<string>, b: seq<string>)
    requires |a| == |b|
    requires forall i :: 0 <= i < |a| ==> |a[i]| == |b[i]|
    ensures TotalLength(a) == TotalLength(b)
  {
    if a == [] {
    } else {
      TotalLengthAgree(a[1..], b[1..]);
    }
  }
}
