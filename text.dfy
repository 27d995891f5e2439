/**
  The handful of Go standard-library string operations the tool relies on:
  strings.TrimSpace, strings.HasPrefix, strings.Split and strings.Join on "\n",
  fmt's "%d" formatting and fmt.Sscanf's "%d" scanning. Strings are sequences
  of Unicode scalar values (Go's runes), not UTF-8 bytes.
*/
module Text {
  import opened Wrappers

  /** Go's unicode.IsSpace: the Unicode White_Space characters. */
  predicate IsSpace(c: char) {
    ('\t' <= c <= '\r') || c == ' ' || c == '\U{85}' || c == '\U{A0}' || c == '\U{1680}'
    || ('\U{2000}' <= c <= '\U{200A}') || c == '\U{2028}' || c == '\U{2029}'
    || c == '\U{202F}' || c == '\U{205F}' || c == '\U{3000}'
  }

  predicate IsDigit(c: char) {
    '0' <= c <= '9'
  }

  /** Drops leading white space. */
  function TrimLeft(s: string): (r: string)
    ensures |r| <= |s| && r == s[|s| - |r|..]
    ensures r == [] || !IsSpace(r[0])
    ensures forall i :: 0 <= i < |s| - |r| ==> IsSpace(s[i])
  {
    if |s| > 0 && IsSpace(s[0]) then
      var r := TrimLeft(s[1..]);
      assert s[1..][|s| - 1 - |r|..] == s[|s| - |r|..];
      r
    else s
  }

  /** Drops trailing white space. */
  function TrimRight(s: string): (r: string)
    ensures |r| <= |s| && r == s[..|r|]
    ensures r == [] || !IsSpace(r[|r| - 1])
    ensures forall i :: |r| <= i < |s| ==> IsSpace(s[i])
  {
    if |s| > 0 && IsSpace(s[|s| - 1]) then TrimRight(s[..|s| - 1]) else s
  }

  /** strings.TrimSpace: the text between the leading and the trailing white space. */
  function TrimSpace(s: string): (r: string)
    ensures r == [] || (!IsSpace(r[0]) && !IsSpace(r[|r| - 1]))
  {
    var t := TrimLeft(s);
    assert t != [] ==> t[0] == s[|s| - |t|];
    TrimRight(t)
  }

  /** A text trims to nothing exactly when it is all white space. */
  lemma TrimSpaceEmpty(s: string)
    ensures TrimSpace(s) == [] <==> forall i :: 0 <= i < |s| ==> IsSpace(s[i])
  {
    var t := TrimLeft(s);
    var r := TrimRight(t);
    assert t != [] ==> t[0] == s[|s| - |t|];
    assert r == [] ==> t == [];
  }

  /** A string with no white space at either end is its own trimmed text. */
  lemma TrimSpaceOfTrimmed(s: string)
    requires s == [] || (!IsSpace(s[0]) && !IsSpace(s[|s| - 1]))
    ensures TrimSpace(s) == s
  {
  }

  predicate IsBlank(s: string) {
    TrimSpace(s) == []
  }

  /** strings.HasPrefix. */
  predicate HasPrefix(s: string, prefix: string) {
    |prefix| <= |s| && s[..|prefix|] == prefix
  }

  /** The index of the first '=' in t, or |t| when there is none. */
  function FirstEquals(t: string): (n: nat)
    ensures n <= |t|
  {
    if |t| == 0 || t[0] == '=' then 0 else 1 + FirstEquals(t[1..])
  }

  /** A line that starts with "KEY=", for a key with no '=', has its first '=' right after the key. */
  lemma {:induction false} FirstEqualsAfterKey(t: string, key: string)
    requires '=' !in key
    requires HasPrefix(t, key + "=")
    ensures FirstEquals(t) == |key|
    decreases |key|
  {
    if |key| > 0 {
      assert t[0] == (key + "=")[0] == key[0];
      assert (key + "=")[1..] == key[1..] + "=";
      assert t[1..][..|key[1..] + "="|] == t[..|key + "="|][1..];
      FirstEqualsAfterKey(t[1..], key[1..]);
    } else {
      assert t[0] == (key + "=")[0];
    }
  }

  /**
    Two "KEY=" prefixes of one string, for keys that contain no '=', are
    the same prefix: no line can start with two different "KEY=".
  */
  lemma KeyPrefixesExclusive(t: string, a: string, b: string)
    requires '=' !in a && '=' !in b
    requires HasPrefix(t, a + "=") && HasPrefix(t, b + "=")
    ensures a == b
  {
    FirstEqualsAfterKey(t, a);
    FirstEqualsAfterKey(t, b);
    assert a == (a + "=")[..|a|] == t[..|a|] == (b + "=")[..|b|] == b;
  }

  /** strings.Split(s, "\n"): the pieces between newlines; always at least one. */
  function SplitOn(s: string): (pieces: seq<string>)
    ensures |pieces| >= 1
    decreases |s|
  {
    if |s| == 0 then [""]
    else
      var prev := SplitOn(s[..|s| - 1]);
      if s[|s| - 1] == '\n' then prev + [""]
      else prev[..|prev| - 1] + [prev[|prev| - 1] + [s[|s| - 1]]]
  }

  /** strings.Join(lines, sep). */
  function Join(lines: seq<string>, sep: string): string
    decreases |lines|
  {
    if |lines| == 0 then ""
    else if |lines| == 1 then lines[0]
    else Join(lines[..|lines| - 1], sep) + sep + lines[|lines| - 1]
  }

  lemma JoinSnoc(front: seq<string>, last: string, sep: string)
    requires |front| >= 1
    ensures Join(front + [last], sep) == Join(front, sep) + sep + last
  {
    assert (front + [last])[..|front|] == front;
  }

  /** Extending the last line by one character extends the joined text by it. */
  lemma JoinExtendLast(lines: seq<string>, c: char, sep: string)
    requires |lines| >= 1
    ensures Join(lines[..|lines| - 1] + [lines[|lines| - 1] + [c]], sep) == Join(lines, sep) + [c]
  {
    if |lines| > 1 {
      var front := lines[..|lines| - 1];
      JoinSnoc(front, lines[|lines| - 1] + [c], sep);
      assert front + [lines[|lines| - 1]] == lines;
      JoinSnoc(front, lines[|lines| - 1], sep);
    }
  }

  /** Splitting on newlines and joining with newlines gives back the text. */
  lemma {:induction false} JoinSplitOn(s: string)
    ensures Join(SplitOn(s), "\n") == s
    decreases |s|
  {
    if |s| > 0 {
      var init, c := s[..|s| - 1], s[|s| - 1];
      JoinSplitOn(init);
      JoinSplitOnStep(init, c);
      assert init + [c] == s;
    }
  }

  /** The inductive step of JoinSplitOn: one more character. */
  lemma JoinSplitOnStep(init: string, c: char)
    requires Join(SplitOn(init), "\n") == init
    ensures Join(SplitOn(init + [c]), "\n") == init + [c]
  {
    var prev := SplitOn(init);
    SplitOnSnoc(init, c);
    if c == '\n' {
      JoinSnoc(prev, "", "\n");
    } else {
      JoinExtendLast(prev, c, "\n");
    }
  }

  /** One more character either starts a new piece (a newline) or extends the last one. */
  lemma SplitOnSnoc(s: string, c: char)
    ensures SplitOn(s + [c]) ==
      var prev := SplitOn(s);
      if c == '\n' then prev + [""] else prev[..|prev| - 1] + [prev[|prev| - 1] + [c]]
  {
    assert (s + [c])[..|s|] == s;
  }

  /** A text with no newline is a single piece. */
  lemma {:induction false} SplitOnNoNewline(b: string)
    requires '\n' !in b
    ensures SplitOn(b) == [b]
    decreases |b|
  {
    if |b| > 0 {
      SplitOnNoNewline(b[..|b| - 1]);
      assert b[..|b| - 1] + [b[|b| - 1]] == b;
    }
  }

  /** Appending a newline and a newline-free piece appends exactly that piece. */
  lemma {:induction false} SplitOnAppend(a: string, b: string)
    requires '\n' !in b
    ensures SplitOn(a + "\n" + b) == SplitOn(a) + [b]
    decreases |b|
  {
    var s := a + "\n" + b;
    if |b| == 0 {
      assert s[..|s| - 1] == a;
    } else {
      var b' := b[..|b| - 1];
      SplitOnAppend(a, b');
      assert s[..|s| - 1] == a + "\n" + b';
      assert b' + [b[|b| - 1]] == b;
    }
  }

  /** Newline-free lines joined with newlines split back into the same lines. */
  lemma {:induction false} SplitOnJoin(lines: seq<string>)
    requires |lines| >= 1
    requires forall i :: 0 <= i < |lines| ==> '\n' !in lines[i]
    ensures SplitOn(Join(lines, "\n")) == lines
    decreases |lines|
  {
    if |lines| == 1 {
      SplitOnNoNewline(lines[0]);
    } else {
      var front := lines[..|lines| - 1];
      SplitOnJoin(front);
      SplitOnAppend(Join(front, "\n"), lines[|lines| - 1]);
      assert front + [lines[|lines| - 1]] == lines;
    }
  }

  /** Go's math.MinInt64 and math.MaxInt64: the range of Go's int on 64-bit hosts. */
  const MinInt64: int := -0x8000_0000_0000_0000
  const MaxInt64: int := 0x7FFF_FFFF_FFFF_FFFF

  function DigitValue(c: char): nat
    requires IsDigit(c)
  {
    (c as int) - ('0' as int)
  }

  function DigitChar(d: nat): (c: char)
    requires d < 10
    ensures IsDigit(c) && DigitValue(c) == d
  {
    (('0' as int) + d) as char
  }

  /** The value of a run of decimal digits (strconv.ParseInt's base-10 magnitude). */
  function DigitsValue(d: string): nat
    requires forall i :: 0 <= i < |d| ==> IsDigit(d[i])
    decreases |d|
  {
    if |d| == 0 then 0 else DigitsValue(d[..|d| - 1]) * 10 + DigitValue(d[|d| - 1])
  }

  /** The length of the longest run of decimal digits at the start of s. */
  function DigitRun(s: string): (n: nat)
    ensures n <= |s|
    ensures forall i :: 0 <= i < n ==> IsDigit(s[i])
    ensures n == |s| || !IsDigit(s[n])
  {
    if |s| > 0 && IsDigit(s[0]) then 1 + DigitRun(s[1..]) else 0
  }

  /**
    The white space fmt's scanner skips before a number: any Unicode space
    except a newline, which Sscanf reports as an error instead.
  */
  function SkipSpace(s: string): (r: string)
    ensures |r| <= |s| && r == s[|s| - |r|..]
    ensures r == [] || !IsSpace(r[0]) || r[0] == '\n'
  {
    if |s| > 0 && IsSpace(s[0]) && s[0] != '\n' then
      var r := SkipSpace(s[1..]);
      assert s[1..][|s| - 1 - |r|..] == s[|s| - |r|..];
      r
    else s
  }

  /** The value of the longest run of decimal digits at the start of u, if there is one. */
  function ScanDigits(u: string): (r: Option<nat>)
    ensures r.None? <==> DigitRun(u) == 0
  {
    var n := DigitRun(u);
    if n == 0 then None
    else
      var digits := u[..n];
      assert forall i :: 0 <= i < |digits| ==> digits[i] == u[i];
      Some(DigitsValue(digits))
  }

  /**
    fmt.Sscanf(s, "%d", &n) for a Go int: skip white space, accept one
    optional sign, then the longest run of decimal digits (at least one),
    which must fit in 64 bits. Whatever follows the digits is not read.
  */
  function ScanInt(s: string): (r: Option<int>)
    ensures r.Some? ==> MinInt64 <= r.value <= MaxInt64
  {
    var t := SkipSpace(s);
    var negative := |t| > 0 && t[0] == '-';
    var magnitude := if |t| > 0 && (t[0] == '+' || t[0] == '-') then ScanDigits(t[1..]) else ScanDigits(t);
    if magnitude.None? then None
    else
      var v: int := if negative then -(magnitude.value as int) else magnitude.value;
      if MinInt64 <= v <= MaxInt64 then Some(v) else None
  }

  /** The decimal digits of a natural number, most significant first. */
  function NatToString(n: nat): (s: string)
    ensures |s| >= 1 && forall i :: 0 <= i < |s| ==> IsDigit(s[i])
  {
    if n < 10 then [DigitChar(n)] else NatToString(n / 10) + [DigitChar(n % 10)]
  }

  /** fmt.Sprintf("%d", n). */
  function IntToString(n: int): (s: string)
    ensures |s| >= 1 && IsDigit(s[|s| - 1]) && (IsDigit(s[0]) || s[0] == '-')
    ensures forall i :: 0 <= i < |s| ==> s[i] != '\n' && s[i] != '='
  {
    if n < 0 then "-" + NatToString(-n) else NatToString(n)
  }

  lemma {:induction false} DigitsValueOfNatToString(n: nat)
    ensures DigitsValue(NatToString(n)) == n
  {
    if n >= 10 {
      DigitsValueOfNatToString(n / 10);
      var s := NatToString(n);
      assert s[..|s| - 1] == NatToString(n / 10);
    }
  }

  lemma {:induction false} DigitRunOfDigits(d: string)
    requires forall i :: 0 <= i < |d| ==> IsDigit(d[i])
    ensures DigitRun(d) == |d|
  {
    if |d| > 0 {
      DigitRunOfDigits(d[1..]);
    }
  }

  lemma SkipSpaceOfNonSpace(s: string)
    requires |s| > 0 && !IsSpace(s[0])
    ensures SkipSpace(s) == s
  {
  }

  /** Scanning the digits of a non-negative 64-bit number gives it back. */
  lemma ScanIntOfNatToString(m: nat)
    requires m <= MaxInt64
    ensures ScanInt(NatToString(m)) == Some(m)
  {
    var d := NatToString(m);
    SkipSpaceOfNonSpace(d);
    assert !(d[0] == '+' || d[0] == '-');
    DigitRunOfDigits(d);
    assert d[..|d|] == d;
    DigitsValueOfNatToString(m);
    assert ScanDigits(d) == Some(m);
  }

  /** Scanning a minus sign and the digits of m gives -m, down to MinInt64. */
  lemma ScanIntOfNegated(m: nat)
    requires m <= -MinInt64
    ensures ScanInt("-" + NatToString(m)) == Some(-(m as int))
  {
    var d := NatToString(m);
    var s := "-" + d;
    SkipSpaceOfNonSpace(s);
    assert s[1..] == d;
    DigitRunOfDigits(d);
    assert d[..|d|] == d;
    DigitsValueOfNatToString(m);
    assert ScanDigits(d) == Some(m);
  }

  /** Scanning what "%d" printed gives back the number, for every 64-bit int. */
  lemma ScanIntOfIntToString(n: int)
    requires MinInt64 <= n <= MaxInt64
    ensures ScanInt(IntToString(n)) == Some(n)
  {
    if n < 0 {
      ScanIntOfNegated(-n);
    } else {
      ScanIntOfNatToString(n);
    }
  }
}
