/**
  The line-oriented reading of a project's .env file (portmanager.go):
  splitLines and the recovery of a suffix from an APP_PORT line.
*/
module EnvFile {
  import opened Wrappers
  import opened Text
  import Ports

  /** Drops one trailing carriage return. */
  function StripCR(piece: string): string {
    if |piece| > 0 && piece[|piece| - 1] == '\r' then piece[..|piece| - 1] else piece
  }

  /** Every piece without its trailing carriage return. */
  function MapStripCR(pieces: seq<string>): (r: seq<string>)
    ensures |r| == |pieces| && forall i :: 0 <= i < |pieces| ==> r[i] == StripCR(pieces[i])
  {
    seq(|pieces|, i requires 0 <= i < |pieces| => StripCR(pieces[i]))
  }

  lemma MapStripCRSnoc(pieces: seq<string>, piece: string)
    ensures MapStripCR(pieces + [piece]) == MapStripCR(pieces) + [StripCR(piece)]
  {
  }

  /** Pieces without carriage returns are left as they are. */
  lemma MapStripCRNoCR(pieces: seq<string>)
    requires forall i :: 0 <= i < |pieces| ==> '\r' !in pieces[i]
    ensures MapStripCR(pieces) == pieces
  {
  }

  /**
    The lines of a text: its newline-separated pieces, without the empty piece
    a final newline (or an empty text) leaves, each without one trailing '\r'.
  */
  function Lines(s: string): seq<string> {
    var pieces := SplitOn(s);
    var kept := if pieces[|pieces| - 1] == "" then pieces[..|pieces| - 1] else pieces;
    MapStripCR(kept)
  }

  /**
    The state of splitLines after reading s[..i]: the pieces cut so far are
    raw, the current one runs from start, and lines are the cut pieces
    without their final '\r'.
  */
  ghost predicate Scanned(s: string, i: nat, start: nat, raw: seq<string>, lines: seq<string>) {
    start <= i <= |s| && SplitOn(s[..i]) == raw + [s[start..i]] && lines == MapStripCR(raw)
  }

  /** splitLines: walk the text once, cutting a line at every '\n'. */
  method SplitLines(s: string) returns (lines: seq<string>)
    ensures lines == Lines(s)
  {
    lines := [];
    ghost var raw: seq<string> := [];
    var start := 0;
    assert Scanned(s, 0, start, raw, lines) by { assert s[..0] == ""; }
    for i := 0 to |s|
      invariant Scanned(s, i, start, raw, lines)
    {
      if s[i] == '\n' {
        var end := i;
        if end > start && s[end - 1] == '\r' {
          end := end - 1;
        }
        CutLine(s, start, i, end, raw, lines);
        lines := lines + [s[start..end]];
        raw := raw + [s[start..i]];
        start := i + 1;
      } else {
        SplitStepOther(s, start, i, raw, lines);
      }
    }
    if start < |s| {
      var line := s[start..];
      if |line| > 0 && line[|line| - 1] == '\r' {
        line := line[..|line| - 1];
      }
      LastLine(s, start, line, raw, lines);
      lines := lines + [line];
    } else {
      LinesOfPieces(s, start, raw);
    }
  }

  /** One newline: the piece before it, without a final '\r', becomes a line. */
  lemma CutLine(s: string, start: nat, i: nat, end: nat, raw: seq<string>, lines: seq<string>)
    requires i < |s| && s[i] == '\n' && Scanned(s, i, start, raw, lines)
    requires end == (if i > start && s[i - 1] == '\r' then i - 1 else i)
    ensures start <= end <= i
    ensures Scanned(s, i + 1, i + 1, raw + [s[start..i]], lines + [s[start..end]])
  {
    SplitStepNewline(s, start, i, raw);
    var piece := s[start..i];
    if i > start && s[i - 1] == '\r' {
      assert piece[|piece| - 1] == '\r' && piece[..|piece| - 1] == s[start..end];
    }
    assert s[start..end] == StripCR(piece);
    MapStripCRSnoc(raw, piece);
  }

  /** The text after the last newline, when there is some, is the last line. */
  lemma LastLine(s: string, start: nat, line: string, raw: seq<string>, lines: seq<string>)
    requires start < |s| && Scanned(s, |s|, start, raw, lines)
    requires line == StripCR(s[start..])
    ensures lines + [line] == Lines(s)
  {
    LinesOfPieces(s, start, raw);
  }

  lemma SplitStepNewline(s: string, start: nat, i: nat, raw: seq<string>)
    requires start <= i < |s| && s[i] == '\n'
    requires SplitOn(s[..i]) == raw + [s[start..i]]
    ensures SplitOn(s[..i + 1]) == (raw + [s[start..i]]) + [s[i + 1..i + 1]]
  {
    assert s[..i + 1] == s[..i] + [s[i]];
    SplitOnSnoc(s[..i], s[i]);
    assert s[i + 1..i + 1] == [];
  }

  lemma SplitStepOther(s: string, start: nat, i: nat, raw: seq<string>, lines: seq<string>)
    requires i < |s| && s[i] != '\n' && Scanned(s, i, start, raw, lines)
    ensures Scanned(s, i + 1, start, raw, lines)
  {
    assert s[..i + 1] == s[..i] + [s[i]];
    SplitOnSnoc(s[..i], s[i]);
    assert s[start..i + 1] == s[start..i] + [s[i]];
    assert (raw + [s[start..i]])[..|raw|] == raw;
  }

  lemma LinesOfPieces(s: string, start: nat, raw: seq<string>)
    requires start <= |s|
    requires SplitOn(s[..|s|]) == raw + [s[start..|s|]]
    ensures Lines(s) == MapStripCR(raw) + (if start < |s| then [StripCR(s[start..])] else [])
  {
    assert s[..|s|] == s;
    if start < |s| {
      MapStripCRSnoc(raw, s[start..]);
    } else {
      assert (raw + [""])[..|raw|] == raw;
    }
  }

  /**
    Newline-free pieces joined with "\n" read back as those pieces, each
    without one trailing '\r' (so "\r\n" line ends are accepted), provided
    the last piece is not empty.
  */
  lemma LinesOfJoin(ps: seq<string>)
    requires |ps| >= 1 && ps[|ps| - 1] != ""
    requires forall i :: 0 <= i < |ps| ==> '\n' !in ps[i]
    ensures Lines(Join(ps, "\n")) == MapStripCR(ps)
  {
    SplitOnJoin(ps);
    var pieces := SplitOn(Join(ps, "\n"));
    assert pieces[|pieces| - 1] != "";
  }

  /** The same with a final "\n", where the last piece may be empty too. */
  lemma LinesOfJoinNewline(ps: seq<string>)
    requires |ps| >= 1
    requires forall i :: 0 <= i < |ps| ==> '\n' !in ps[i]
    ensures Lines(Join(ps, "\n") + "\n") == MapStripCR(ps)
  {
    var text := Join(ps, "\n");
    SplitOnJoin(ps);
    SplitOnAppend(text, "");
    assert text + "\n" + "" == text + "\n";
    var pieces := SplitOn(text + "\n");
    assert pieces[..|pieces| - 1] == ps;
  }

  /** No line contains a newline. */
  lemma {:induction false} SplitOnPiecesHaveNoNewline(s: string)
    ensures forall i :: 0 <= i < |SplitOn(s)| ==> '\n' !in SplitOn(s)[i]
    decreases |s|
  {
    if |s| > 0 {
      SplitOnPiecesHaveNoNewline(s[..|s| - 1]);
    }
  }

  lemma LinesHaveNoNewline(s: string)
    ensures forall i :: 0 <= i < |Lines(s)| ==> '\n' !in Lines(s)[i]
  {
    SplitOnPiecesHaveNoNewline(s);
    var pieces := SplitOn(s);
    var kept := if pieces[|pieces| - 1] == "" then pieces[..|pieces| - 1] else pieces;
    forall i | 0 <= i < |Lines(s)| ensures '\n' !in Lines(s)[i] {
      assert '\n' !in kept[i];
      assert forall c :: c in StripCR(kept[i]) ==> c in kept[i];
    }
  }

  /**
    For a text without carriage returns, joining its lines with "\n", plus a
    final "\n" when the text ended with one, gives back the text.
  */
  lemma LinesRoundTrip(s: string)
    requires '\r' !in s
    ensures Join(Lines(s), "\n") + (if |s| > 0 && s[|s| - 1] == '\n' then "\n" else "") == s
  {
    var pieces := SplitOn(s);
    JoinSplitOn(s);
    SplitOnPiecesAreSubstrings(s);
    if pieces[|pieces| - 1] == "" {
      var kept := pieces[..|pieces| - 1];
      MapStripCRNoCR(kept);
      if |pieces| == 1 {
        assert s == "";
      } else {
        assert kept + [""] == pieces;
        JoinSnoc(kept, "", "\n");
        SplitOnLastEmpty(s);
      }
    } else {
      MapStripCRNoCR(pieces);
      SplitOnLastNonEmpty(s);
    }
  }

  /** Every piece of a text without '\r' is itself without '\r'. */
  lemma {:induction false} SplitOnPiecesAreSubstrings(s: string)
    requires '\r' !in s
    ensures forall i :: 0 <= i < |SplitOn(s)| ==> '\r' !in SplitOn(s)[i]
    decreases |s|
  {
    if |s| > 0 {
      assert forall c :: c in s[..|s| - 1] ==> c in s;
      SplitOnPiecesAreSubstrings(s[..|s| - 1]);
    }
  }

  /** A last piece is empty exactly when the text is empty or ends in a newline. */
  lemma SplitOnLastEmpty(s: string)
    requires SplitOn(s)[|SplitOn(s)| - 1] == "" && |SplitOn(s)| > 1
    ensures |s| > 0 && s[|s| - 1] == '\n'
  {
  }

  lemma SplitOnLastNonEmpty(s: string)
    requires SplitOn(s)[|SplitOn(s)| - 1] != ""
    ensures !(|s| > 0 && s[|s| - 1] == '\n')
  {
  }

  /** The port an "APP_PORT=" line sets, as fmt.Sscanf reads it after trimming the line. */
  function AppPortValue(line: string): Option<int> {
    var t := TrimSpace(line);
    if HasPrefix(t, "APP_PORT=") then ScanInt(t[|"APP_PORT="|..]) else None
  }

  /** The APP_PORT value of every line, in order. */
  function AppPortValues(lines: seq<string>): (ports: seq<Option<int>>)
    ensures |ports| == |lines| && forall i :: 0 <= i < |lines| ==> ports[i] == AppPortValue(lines[i])
  {
    seq(|lines|, i requires 0 <= i < |lines| => AppPortValue(lines[i]))
  }

  /** A port value a suffix can be recovered from: at least the APP base. */
  predicate Recoverable(port: Option<int>) {
    port.Some? && port.value >= Ports.AppBase
  }

  /** The suffix recovered from the first recoverable port value, scanning top to bottom. */
  function FirstRecovered(ports: seq<Option<int>>): Option<int>
    decreases |ports|
  {
    if |ports| == 0 then None
    else if Recoverable(ports[0]) then Some(ports[0].value - Ports.AppBase)
    else FirstRecovered(ports[1..])
  }

  /** The suffix the first recoverable APP_PORT line of a .env gives. */
  function EnvSuffix(lines: seq<string>): Option<int> {
    FirstRecovered(AppPortValues(lines))
  }

  /**
    FirstRecovered finds k exactly at the first recoverable value, which is
    8000 + k, and finds nothing exactly when no value is recoverable.
  */
  lemma {:induction false} FirstRecoveredFirstMatch(ports: seq<Option<int>>)
    ensures FirstRecovered(ports).None? <==> forall i :: 0 <= i < |ports| ==> !Recoverable(ports[i])
    ensures FirstRecovered(ports).Some? ==>
      var k := FirstRecovered(ports).value;
      k >= 0 && exists i :: 0 <= i < |ports| && ports[i] == Some(Ports.AppBase + k) &&
                             (forall j :: 0 <= j < i ==> !Recoverable(ports[j]))
    decreases |ports|
  {
    if |ports| > 0 && !Recoverable(ports[0]) {
      var rest := ports[1..];
      FirstRecoveredFirstMatch(rest);
      assert forall i :: 1 <= i < |ports| ==> ports[i] == rest[i - 1];
      if FirstRecovered(rest).Some? {
        var k := FirstRecovered(rest).value;
        var i :| 0 <= i < |rest| && rest[i] == Some(Ports.AppBase + k)
          && forall j :: 0 <= j < i ==> !Recoverable(rest[j]);
        assert ports[i + 1] == Some(Ports.AppBase + k);
        assert forall j :: 0 <= j < i + 1 ==> !Recoverable(ports[j]) by {
          forall j | 0 <= j < i + 1 ensures !Recoverable(ports[j]) {
            if j > 0 {
              assert ports[j] == rest[j - 1];
            }
          }
        }
      }
    } else if |ports| > 0 {
      assert ports[0] == Some(Ports.AppBase + FirstRecovered(ports).value);
    }
  }

  /** A value at the head decides; otherwise the rest does. */
  lemma FirstRecoveredSkip(ports: seq<Option<int>>, i: nat)
    requires i <= |ports|
    requires forall j :: 0 <= j < i ==> !Recoverable(ports[j])
    ensures FirstRecovered(ports[i..]) == FirstRecovered(ports)
    decreases i
  {
    if i > 0 {
      FirstRecoveredSkip(ports, i - 1);
      assert ports[i - 1..][1..] == ports[i..];
    }
  }

  /** Scanning from position i: the value there decides when it is recoverable, the rest otherwise. */
  lemma FirstRecoveredFrom(ports: seq<Option<int>>, i: nat)
    requires i < |ports|
    ensures FirstRecovered(ports[i..]) ==
      if Recoverable(ports[i]) then Some(ports[i].value - Ports.AppBase) else FirstRecovered(ports[i + 1..])
  {
    assert ports[i..][1..] == ports[i + 1..];
  }

  /**
    extractSuffixFromEnv on the text of a .env file: the first trimmed line
    starting with "APP_PORT=" whose value scans as a number of at least 8000
    gives that number minus 8000; otherwise nothing is found.
  */
  method ExtractSuffixFromEnv(content: string) returns (suffix: int, found: bool)
    ensures found <==> EnvSuffix(Lines(content)).Some?
    ensures found ==> suffix == EnvSuffix(Lines(content)).value && suffix >= 0
    ensures !found ==> suffix == 0
  {
    var lines := SplitLines(content);
    ghost var ports := AppPortValues(lines);
    for i := 0 to |lines|
      invariant FirstRecovered(ports[i..]) == EnvSuffix(lines)
    {
      FirstRecoveredFrom(ports, i);
      var line := TrimSpace(lines[i]);
      if HasPrefix(line, "APP_PORT=") {
        var p := ScanInt(line[|"APP_PORT="|..]);
        if p.Some? && p.value >= 8000 {
          assert ports[i] == p;
          return p.value - 8000, true;
        }
      }
      assert !Recoverable(ports[i]);
    }
    assert ports[|lines|..] == [];
    return 0, false;
  }

  /** An "APP_PORT=" line written with fmt's "%d" reads back as the number written. */
  lemma AppPortValueOfLine(n: int)
    requires MinInt64 <= n <= MaxInt64
    ensures AppPortValue("APP_PORT=" + IntToString(n)) == Some(n)
  {
    var line := "APP_PORT=" + IntToString(n);
    TrimSpaceOfTrimmed(line);
    assert line[|"APP_PORT="|..] == IntToString(n);
    ScanIntOfIntToString(n);
  }

  /** Reading the ports of two runs of lines one after the other. */
  lemma AppPortValuesAppend(a: seq<string>, b: seq<string>)
    ensures AppPortValues(a + b) == AppPortValues(a) + AppPortValues(b)
  {
  }

  lemma AppPortValuesSingle(line: string)
    ensures AppPortValues([line]) == [AppPortValue(line)]
  {
    var ports := AppPortValues([line]);
    assert |ports| == 1;
    assert ports[0] == AppPortValue([line][0]);
    assert [line][0] == line;
  }

  /** Behind values that are not recoverable, a value decides when it is recoverable and is skipped otherwise. */
  lemma FirstRecoveredBehind(before: seq<Option<int>>, x: Option<int>, after: seq<Option<int>>)
    requires forall j :: 0 <= j < |before| ==> !Recoverable(before[j])
    ensures FirstRecovered(before + [x] + after) ==
      if Recoverable(x) then Some(x.value - Ports.AppBase) else FirstRecovered(after)
  {
    var ports := before + [x] + after;
    FirstRecoveredSkip(ports, |before|);
    FirstRecoveredFrom(ports, |before|);
    assert ports[|before| + 1..] == after;
  }

  /**
    Behind lines that give no usable port, a line whose APP_PORT value is
    recoverable decides the suffix, and any other line is skipped.
  */
  lemma EnvSuffixBehind(before: seq<string>, line: string, after: seq<string>)
    requires forall j :: 0 <= j < |before| ==> !Recoverable(AppPortValue(before[j]))
    ensures EnvSuffix(before + [line] + after) ==
      if Recoverable(AppPortValue(line)) then Some(AppPortValue(line).value - Ports.AppBase) else EnvSuffix(after)
  {
    AppPortValuesAppend(before, [line]);
    AppPortValuesAppend(before + [line], after);
    AppPortValuesSingle(line);
    FirstRecoveredBehind(AppPortValues(before), AppPortValue(line), AppPortValues(after));
  }

  /** Three newline-free pieces joined by newlines read back as three lines. */
  lemma LinesOfThree(a: string, b: string, c: string)
    requires '\n' !in a && '\n' !in b && '\n' !in c && c != ""
    ensures Lines(a + "\n" + b + "\n" + c) == [StripCR(a), StripCR(b), StripCR(c)]
  {
    JoinSnoc([a], b, "\n");
    JoinSnoc([a, b], c, "\n");
    assert [a] + [b] == [a, b];
    assert [a, b] + [c] == [a, b, c];
    LinesOfJoin([a, b, c]);
  }

  /** splitLines on a text with a "\r\n" line end in the middle gives three clean lines. */
  lemma SplitLinesScenario(text: string)
    requires text == "line1\nline2\r\nline3"
    ensures Lines(text) == ["line1", "line2", "line3"]
  {
    var a, b, c := "line1", "line2\r", "line3";
    assert text == a + "\n" + b + "\n" + c;
    LinesOfThree(a, b, c);
    assert StripCR(b) == "line2";
  }
}
