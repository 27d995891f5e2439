/**
  The rewrite of a project's .env by the setup command (setupEnv in
  main.go): old port and Xdebug lines are dropped, the database settings
  are forced to Sail's defaults when the file is new or a reset is asked
  for, and one block of port settings followed by the Xdebug mode is put
  at the end.
*/
module Setup {
  import opened Wrappers
  import opened Text
  import opened Ports
  import opened EnvFile

  /** A "KEY=value" setting. */
  datatype Setting = Setting(key: string, value: string)

  function SettingLine(s: Setting): string {
    s.key + "=" + s.value
  }

  /** The database settings Sail expects (a Go map; its order is not fixed). */
  const CoreUpdates: seq<Setting> := [
    Setting("DB_CONNECTION", "mysql"),
    Setting("DB_HOST", "mysql"),
    Setting("DB_PORT", "3306"),
    Setting("DB_DATABASE", "laravel"),
    Setting("DB_USERNAME", "sail"),
    Setting("DB_PASSWORD", "password")
  ]

  const DebugKey: string := "SAIL_XDEBUG_MODE"

  const DebugSetting: Setting := Setting(DebugKey, "develop,debug,coverage")

  /** An upper-case key name: letters and underscores. */
  predicate IsKeyName(key: string) {
    |key| > 0 && forall i :: 0 <= i < |key| ==> ('A' <= key[i] <= 'Z') || key[i] == '_'
  }

  /** A value of lower-case letters, digits and commas. */
  predicate IsPlainValue(v: string) {
    |v| > 0 && forall i :: 0 <= i < |v| ==> ('a' <= v[i] <= 'z') || ('0' <= v[i] <= '9') || v[i] == ','
  }

  /** The settings the tool writes as they are: simple names and values. */
  predicate IsPlainSetting(s: Setting) {
    IsKeyName(s.key) && IsPlainValue(s.value)
  }

  lemma CoreSettingsPlainA()
    ensures IsPlainSetting(Setting("DB_CONNECTION", "mysql")) && IsPlainSetting(Setting("DB_HOST", "mysql"))
    ensures IsPlainSetting(Setting("DB_PORT", "3306"))
  {
  }

  lemma CoreSettingsPlainB()
    ensures IsPlainSetting(Setting("DB_DATABASE", "laravel")) && IsPlainSetting(Setting("DB_USERNAME", "sail"))
    ensures IsPlainSetting(Setting("DB_PASSWORD", "password"))
  {
  }

  /** The database settings are plain and their keys start with 'D'. */
  lemma CoreSettingsPlain()
    ensures forall j :: 0 <= j < |CoreUpdates| ==> IsPlainSetting(CoreUpdates[j]) && CoreUpdates[j].key[0] == 'D'
  {
    CoreSettingsPlainA();
    CoreSettingsPlainB();
  }

  lemma CoreKeysDistinct()
    ensures forall j, k :: 0 <= j < k < |CoreUpdates| ==> CoreUpdates[j].key != CoreUpdates[k].key
  {
  }

  lemma PortNamesPlainA()
    ensures IsKeyName("APP_PORT") && IsKeyName("FORWARD_DB_PORT") && IsKeyName("FORWARD_REDIS_PORT")
  {
  }

  lemma PortNamesPlainB()
    ensures IsKeyName("FORWARD_MEILISEARCH_PORT") && IsKeyName("FORWARD_MAILPIT_DASHBOARD_PORT")
  {
  }

  lemma PortNamesPlainC()
    ensures IsKeyName("FORWARD_MAILPIT_PORT") && IsKeyName("VITE_PORT")
  {
  }

  /** The port keys are plain names, none starting with 'D'. */
  lemma PortNamesPlain()
    ensures forall k :: 0 <= k < |PortTable| ==> IsKeyName(PortTable[k].name) && PortTable[k].name[0] != 'D'
  {
    PortNamesPlainA();
    PortNamesPlainB();
    PortNamesPlainC();
  }

  lemma PortNamesDistinct()
    ensures forall j, k :: 0 <= j < k < |PortTable| ==> PortTable[j].name != PortTable[k].name
    ensures forall k :: 0 <= k < |PortTable| ==> PortTable[k].name != DebugKey
  {
  }

  lemma DebugSettingPlain()
    ensures IsPlainSetting(DebugSetting) && DebugKey[0] != 'D'
  {
    assert IsKeyName("SAIL_XDEBUG_MODE");
    assert IsPlainValue("develop,debug,coverage");
  }

  /** A key name has no '=', no line break and no white space at its start. */
  lemma KeyNameFacts(key: string)
    requires IsKeyName(key)
    ensures '=' !in key && '\n' !in key && !IsSpace(key[0])
  {
  }


  /**
    The tables setupEnv works from: the port roles, whose keys it drops from
    the input and writes back in this order; the Xdebug setting, dropped and
    written last; and the database defaults.
  */
  datatype EnvTables = EnvTables(ports: seq<PortRole>, debug: Setting, updates: seq<Setting>)

  /** The tables of setupEnv: the seven Sail ports, SAIL_XDEBUG_MODE and the six database settings. */
  const Sail: EnvTables := EnvTables(PortTable, DebugSetting, CoreUpdates)

  /**
    Tables setupEnv can work from: plain key names, no key twice, and no
    database key among the keys it drops.
  */
  predicate WellFormed(tb: EnvTables) {
    (forall k :: 0 <= k < |tb.ports| ==> IsKeyName(tb.ports[k].name)) &&
    (forall j, k :: 0 <= j < k < |tb.ports| ==> tb.ports[j].name != tb.ports[k].name) &&
    (forall k :: 0 <= k < |tb.ports| ==> tb.ports[k].name != tb.debug.key) &&
    IsPlainSetting(tb.debug) &&
    (forall j :: 0 <= j < |tb.updates| ==> IsPlainSetting(tb.updates[j])) &&
    (forall i, j :: 0 <= i < j < |tb.updates| ==> tb.updates[i].key != tb.updates[j].key) &&
    (forall j, k :: 0 <= j < |tb.updates| && 0 <= k < |tb.ports| ==> tb.updates[j].key != tb.ports[k].name) &&
    (forall j :: 0 <= j < |tb.updates| ==> tb.updates[j].key != tb.debug.key)
  }

  lemma SailKeysDisjoint()
    ensures forall j, k :: 0 <= j < |CoreUpdates| && 0 <= k < |PortTable| ==> CoreUpdates[j].key != PortTable[k].name
    ensures forall j :: 0 <= j < |CoreUpdates| ==> CoreUpdates[j].key != DebugKey
  {
    CoreSettingsPlain();
    PortNamesPlain();
    DebugSettingPlain();
  }

  /** The Sail tables are well formed. */
  lemma SailWellFormed()
    ensures WellFormed(Sail)
  {
    PortNamesPlain();
    PortNamesDistinct();
    DebugSettingPlain();
    CoreSettingsPlain();
    CoreKeysDistinct();
    SailKeysDisjoint();
  }

  /** A trimmed line starts with "KEY=". */
  predicate StartsWithKey(t: string, key: string) {
    HasPrefix(t, key + "=")
  }

  /** The line sets `key`: once trimmed, it starts with "KEY=". */
  predicate Mentions(line: string, key: string) {
    StartsWithKey(TrimSpace(line), key)
  }

  /** A trimmed line that sets one of the port keys or the Xdebug mode. */
  predicate IsSkipText(t: string, tb: EnvTables) {
    (exists k :: 0 <= k < |tb.ports| && StartsWithKey(t, tb.ports[k].name)) || StartsWithKey(t, tb.debug.key)
  }

  predicate IsSkipLine(line: string, tb: EnvTables) {
    IsSkipText(TrimSpace(line), tb)
  }

  /** The first of `settings` whose key the trimmed line sets. */
  function MatchIn(settings: seq<Setting>, t: string): (m: Option<Setting>)
    ensures m.Some? ==> m.value in settings && StartsWithKey(t, m.value.key)
    ensures m.None? ==> forall j :: 0 <= j < |settings| ==> !StartsWithKey(t, settings[j].key)
    decreases |settings|
  {
    if |settings| == 0 then None
    else if StartsWithKey(t, settings[0].key) then Some(settings[0])
    else
      var m := MatchIn(settings[1..], t);
      assert forall j :: 1 <= j < |settings| ==> settings[j] == settings[1..][j - 1];
      m
  }

  /**
    At most one database key can start a line, so the map's iteration order
    does not matter: the setting found is the one whose key the line sets.
  */
  lemma MatchUnique(t: string, j: nat, tb: EnvTables)
    requires WellFormed(tb) && j < |tb.updates| && StartsWithKey(t, tb.updates[j].key)
    ensures MatchIn(tb.updates, t) == Some(tb.updates[j])
  {
    var m := MatchIn(tb.updates, t);
    var i :| 0 <= i < |tb.updates| && tb.updates[i] == m.value;
    KeyNameFacts(tb.updates[j].key);
    KeyNameFacts(m.value.key);
    KeyPrefixesExclusive(t, tb.updates[j].key, m.value.key);
  }

  /**
    What the first pass makes of one line: nothing for a port or Xdebug
    line; the default for a database line when the settings apply; the line
    itself otherwise.
  */
  function Rewrite(line: string, applyDb: bool, tb: EnvTables): seq<string> {
    var t := TrimSpace(line);
    if IsSkipText(t, tb) then []
    else if applyDb && MatchIn(tb.updates, t).Some? then [SettingLine(MatchIn(tb.updates, t).value)]
    else [line]
  }

  /** The database key a line counts as seen. */
  function SeenBy(line: string, applyDb: bool, tb: EnvTables): set<string> {
    var t := TrimSpace(line);
    if !IsSkipText(t, tb) && applyDb && MatchIn(tb.updates, t).Some? then {MatchIn(tb.updates, t).value.key} else {}
  }

  /** The lines `f` makes of each of `xs`, one after the other. */
  function FlatMap(xs: seq<string>, f: string -> seq<string>): seq<string>
    decreases |xs|
  {
    if |xs| == 0 then [] else FlatMap(xs[..|xs| - 1], f) + f(xs[|xs| - 1])
  }

  lemma {:induction false} FlatMapAppend(a: seq<string>, b: seq<string>, f: string -> seq<string>)
    ensures FlatMap(a + b, f) == FlatMap(a, f) + FlatMap(b, f)
    decreases |b|
  {
    if |b| == 0 {
      assert a + b == a;
    } else {
      FlatMapAppend(a, b[..|b| - 1], f);
      assert (a + b)[..|a + b| - 1] == a + b[..|b| - 1];
    }
  }

  /** Every one of `xs` satisfies `p`. */
  predicate All(xs: seq<string>, p: string -> bool) {
    forall i :: 0 <= i < |xs| ==> p(xs[i])
  }

  lemma AllAppend(a: seq<string>, b: seq<string>, p: string -> bool)
    requires All(a, p) && All(b, p)
    ensures All(a + b, p)
  {
  }

  lemma AllPrefix(xs: seq<string>, n: nat, p: string -> bool)
    requires All(xs, p) && n <= |xs|
    ensures All(xs[..n], p)
  {
  }

  lemma {:induction false} AllFlatMap(xs: seq<string>, f: string -> seq<string>, p: string -> bool)
    requires forall i :: 0 <= i < |xs| ==> All(f(xs[i]), p)
    ensures All(FlatMap(xs, f), p)
    decreases |xs|
  {
    if |xs| > 0 {
      var init := xs[..|xs| - 1];
      forall i | 0 <= i < |init|
        ensures All(f(init[i]), p)
      {
        assert init[i] == xs[i];
      }
      AllFlatMap(init, f, p);
      AllAppend(FlatMap(init, f), f(xs[|xs| - 1]), p);
    }
  }

  function RewriteBy(applyDb: bool, tb: EnvTables): string -> seq<string> {
    line => Rewrite(line, applyDb, tb)
  }

  /** The first pass over all lines. */
  function FirstPass(lines: seq<string>, applyDb: bool, tb: EnvTables): seq<string> {
    FlatMap(lines, RewriteBy(applyDb, tb))
  }

  /** The keys `f` gives for each of `xs`, together. */
  function UnionMap(xs: seq<string>, f: string -> set<string>): set<string>
    decreases |xs|
  {
    if |xs| == 0 then {} else UnionMap(xs[..|xs| - 1], f) + f(xs[|xs| - 1])
  }

  function SeenByFn(applyDb: bool, tb: EnvTables): string -> set<string> {
    line => SeenBy(line, applyDb, tb)
  }

  /** The database keys the first pass rewrote. */
  function Seen(lines: seq<string>, applyDb: bool, tb: EnvTables): set<string> {
    UnionMap(lines, SeenByFn(applyDb, tb))
  }

  /** The database settings not seen, in the order the map yields them. */
  function Missing(order: seq<Setting>, seen: set<string>): seq<string>
    decreases |order|
  {
    if |order| == 0 then []
    else
      var s := order[|order| - 1];
      Missing(order[..|order| - 1], seen) + (if s.key in seen then [] else [SettingLine(s)])
  }

  lemma {:induction false} AllMissing(order: seq<Setting>, seen: set<string>, p: string -> bool)
    requires forall i :: 0 <= i < |order| ==> p(SettingLine(order[i]))
    ensures All(Missing(order, seen), p)
    decreases |order|
  {
    if |order| > 0 {
      var init := order[..|order| - 1];
      forall i | 0 <= i < |init|
        ensures p(SettingLine(init[i]))
      {
        assert init[i] == order[i];
      }
      AllMissing(init, seen, p);
      var last := order[|order| - 1];
      AllAppend(Missing(init, seen), if last.key in seen then [] else [SettingLine(last)], p);
    }
  }

  /** An order a Go map can yield its entries in: every setting once. */
  predicate IsMapOrder(order: seq<Setting>, updates: seq<Setting>) {
    (forall s :: s in order ==> s in updates) &&
    (forall s :: s in updates ==> s in order) &&
    (forall i, j :: 0 <= i < j < |order| ==> order[i] != order[j])
  }

  /** The lines without the blank ones at their end. */
  function DropTrailingBlank(lines: seq<string>): seq<string>
    decreases |lines|
  {
    if |lines| > 0 && IsBlank(lines[|lines| - 1]) then DropTrailingBlank(lines[..|lines| - 1]) else lines
  }

  /**
    Dropping trailing blank lines keeps a prefix that is empty or ends with a
    non-blank line, and drops only blank lines.
  */
  lemma {:induction false} DropTrailingBlankSpec(lines: seq<string>)
    ensures |DropTrailingBlank(lines)| <= |lines|
    ensures DropTrailingBlank(lines) == lines[..|DropTrailingBlank(lines)|]
    ensures DropTrailingBlank(lines) == [] || !IsBlank(DropTrailingBlank(lines)[|DropTrailingBlank(lines)| - 1])
    ensures forall i :: |DropTrailingBlank(lines)| <= i < |lines| ==> IsBlank(lines[i])
    decreases |lines|
  {
    if |lines| > 0 && IsBlank(lines[|lines| - 1]) {
      var init := lines[..|lines| - 1];
      DropTrailingBlankSpec(init);
      DropTrailingBlankStep(lines, init, DropTrailingBlank(init));
    }
  }

  /** The inductive step of DropTrailingBlankSpec: one more blank line at the end. */
  lemma DropTrailingBlankStep(lines: seq<string>, init: seq<string>, r: seq<string>)
    requires |lines| > 0 && IsBlank(lines[|lines| - 1]) && init == lines[..|lines| - 1]
    requires |r| <= |init| && r == init[..|r|]
    requires forall i :: |r| <= i < |init| ==> IsBlank(init[i])
    ensures r == lines[..|r|]
    ensures forall i :: |r| <= i < |lines| ==> IsBlank(lines[i])
  {
    forall i | |r| <= i < |lines|
      ensures IsBlank(lines[i])
    {
      if i < |lines| - 1 {
        assert lines[i] == init[i];
      }
    }
  }

  /** Dropping blank lines at the end never drops a line that is not blank. */
  lemma DropTrailingBlankKeeps(lines: seq<string>, i: nat)
    requires i < |lines| && !IsBlank(lines[i])
    ensures i < |DropTrailingBlank(lines)| && DropTrailingBlank(lines)[i] == lines[i]
  {
    DropTrailingBlankSpec(lines);
  }

  /** A port setting as fmt's "%d" writes it. */
  function PortLine(role: PortRole, suffix: int): string {
    role.name + "=" + IntToString(PortOf(role, suffix))
  }

  function PortLines(ports: seq<PortRole>, suffix: int): (ls: seq<string>)
    ensures |ls| == |ports| && forall k :: 0 <= k < |ports| ==> ls[k] == PortLine(ports[k], suffix)
  {
    seq(|ports|, k requires 0 <= k < |ports| => PortLine(ports[k], suffix))
  }

  /** The block every rewrite ends with: a blank line, the ports, a blank line, the Xdebug mode. */
  function PortBlock(tb: EnvTables, suffix: int): seq<string> {
    [""] + PortLines(tb.ports, suffix) + ["", SettingLine(tb.debug)]
  }

  /** The lines before the port block: the kept and rewritten lines without the blank ones at their end. */
  function Body(lines: seq<string>, applyDb: bool, tb: EnvTables, order: seq<Setting>): seq<string> {
    var added := if applyDb then Missing(order, Seen(lines, applyDb, tb)) else [];
    DropTrailingBlank(FirstPass(lines, applyDb, tb) + added)
  }

  /** The new lines of the .env. */
  function Rewritten(lines: seq<string>, applyDb: bool, suffix: int, tb: EnvTables, order: seq<Setting>): seq<string> {
    Body(lines, applyDb, tb, order) + PortBlock(tb, suffix)
  }

  /** The text setupEnv starts from: the .env, else a copy of .env.example, else nothing. */
  function EnvSource(env: Option<string>, example: Option<string>): string {
    if env.Some? then env.value else if example.Some? then example.value else ""
  }

  /**
    The .env setupEnv writes. The database settings apply when there was no
    .env or a reset is asked for; `order` is the order the settings map is
    iterated in.
  */
  function SetupEnvContent(env: Option<string>, example: Option<string>, suffix: int, resetDb: bool, order: seq<Setting>): string {
    Join(Rewritten(Lines(EnvSource(env, example)), env.None? || resetDb, suffix, Sail, order), "\n") + "\n"
  }

  /** The first pass line by line: the lines of a concatenation are the concatenated lines. */
  lemma FirstPassAppend(a: seq<string>, b: seq<string>, applyDb: bool, tb: EnvTables)
    ensures FirstPass(a + b, applyDb, tb) == FirstPass(a, applyDb, tb) + FirstPass(b, applyDb, tb)
  {
    FlatMapAppend(a, b, RewriteBy(applyDb, tb));
  }

  /** A line setting a port key or the Xdebug mode is dropped wherever it stands. */
  lemma FirstPassDropsSkipLine(before: seq<string>, line: string, after: seq<string>, applyDb: bool, tb: EnvTables)
    requires IsSkipLine(line, tb)
    ensures FirstPass(before + [line] + after, applyDb, tb) == FirstPass(before + after, applyDb, tb)
  {
    FirstPassAppend(before + [line], after, applyDb, tb);
    FirstPassAppend(before, [line], applyDb, tb);
    assert [line][..0] == [];
    FirstPassAppend(before, after, applyDb, tb);
  }

  /**
    Without the database settings, lines that set no port key and no Xdebug
    mode are kept verbatim and in order.
  */
  lemma {:induction false} FirstPassVerbatim(lines: seq<string>, tb: EnvTables)
    requires forall i :: 0 <= i < |lines| ==> !IsSkipLine(lines[i], tb)
    ensures FirstPass(lines, false, tb) == lines
    decreases |lines|
  {
    if |lines| > 0 {
      var init := lines[..|lines| - 1];
      var last := lines[|lines| - 1];
      forall i | 0 <= i < |init|
        ensures !IsSkipLine(init[i], tb)
      {
        assert init[i] == lines[i];
      }
      FirstPassVerbatim(init, tb);
      assert RewriteBy(false, tb)(last) == [last];
      assert init + [last] == lines;
    }
  }

  /**
    Without the database settings, an input whose lines set no port key and
    no Xdebug mode comes out verbatim and in order, without its trailing
    blank lines, in front of the port block.
  */
  lemma RewrittenKeepsLines(lines: seq<string>, suffix: int, tb: EnvTables, order: seq<Setting>)
    requires forall i :: 0 <= i < |lines| ==> !IsSkipLine(lines[i], tb)
    ensures Rewritten(lines, false, suffix, tb, order) == DropTrailingBlank(lines) + PortBlock(tb, suffix)
  {
    FirstPassVerbatim(lines, tb);
    assert FirstPass(lines, false, tb) + [] == lines;
  }

  /** The setting lines setupEnv writes: plain, trimmed, not blank. */
  lemma SettingLineTrimmed(s: Setting)
    requires IsPlainSetting(s)
    ensures TrimSpace(SettingLine(s)) == SettingLine(s) && !IsBlank(SettingLine(s))
    ensures StartsWithKey(SettingLine(s), s.key)
  {
    var line := SettingLine(s);
    assert line[0] == s.key[0] && line[|line| - 1] == s.value[|s.value| - 1];
    TrimSpaceOfTrimmed(line);
    assert line[..|s.key + "="|] == s.key + "=";
  }

  /** The only key a setting line sets is its own. */
  lemma SettingLineMentions(s: Setting, key: string)
    requires IsPlainSetting(s) && IsKeyName(key)
    ensures Mentions(SettingLine(s), key) <==> key == s.key
  {
    SettingLineTrimmed(s);
    KeyNameFacts(s.key);
    KeyNameFacts(key);
    if Mentions(SettingLine(s), key) {
      KeyPrefixesExclusive(SettingLine(s), key, s.key);
    }
  }

  /** A trimmed line that sets a database key sets no port key and not the Xdebug mode. */
  lemma UpdateKeyNotSkipped(t: string, j: nat, tb: EnvTables)
    requires WellFormed(tb) && j < |tb.updates| && StartsWithKey(t, tb.updates[j].key)
    ensures !IsSkipText(t, tb)
  {
    var key := tb.updates[j].key;
    KeyNameFacts(key);
    KeyNameFacts(tb.debug.key);
    forall k | 0 <= k < |tb.ports|
      ensures !StartsWithKey(t, tb.ports[k].name)
    {
      KeyNameFacts(tb.ports[k].name);
      if StartsWithKey(t, tb.ports[k].name) {
        KeyPrefixesExclusive(t, key, tb.ports[k].name);
      }
    }
    if StartsWithKey(t, tb.debug.key) {
      KeyPrefixesExclusive(t, key, tb.debug.key);
    }
  }

  /**
    A line that sets a database key is not a port or Xdebug line, and with
    the database settings applied it becomes that key's default.
  */
  lemma RewriteUpdateLine(line: string, j: nat, tb: EnvTables)
    requires WellFormed(tb) && j < |tb.updates| && Mentions(line, tb.updates[j].key)
    ensures !IsSkipLine(line, tb)
    ensures Rewrite(line, true, tb) == [SettingLine(tb.updates[j])]
    ensures SeenBy(line, true, tb) == {tb.updates[j].key}
  {
    UpdateKeyNotSkipped(TrimSpace(line), j, tb);
    MatchUnique(TrimSpace(line), j, tb);
  }

  /**
    What may appear in the rewritten lines: no line sets a port key or the
    Xdebug mode, and, with the database settings applied, a line that sets
    a database key is exactly that key's default.
  */
  predicate Settled(line: string, applyDb: bool, tb: EnvTables) {
    !IsSkipLine(line, tb) &&
    (applyDb ==> forall j :: 0 <= j < |tb.updates| && Mentions(line, tb.updates[j].key) ==> line == SettingLine(tb.updates[j]))
  }

  function SettledFn(applyDb: bool, tb: EnvTables): string -> bool {
    line => Settled(line, applyDb, tb)
  }

  predicate AllSettled(lines: seq<string>, applyDb: bool, tb: EnvTables) {
    All(lines, SettledFn(applyDb, tb))
  }

  /** A database setting line is settled. */
  lemma UpdateLineSettled(j: nat, applyDb: bool, tb: EnvTables)
    requires WellFormed(tb) && j < |tb.updates|
    ensures Settled(SettingLine(tb.updates[j]), applyDb, tb)
  {
    var line := SettingLine(tb.updates[j]);
    SettingLineTrimmed(tb.updates[j]);
    UpdateKeyNotSkipped(line, j, tb);
    forall m | 0 <= m < |tb.updates| && Mentions(line, tb.updates[m].key)
      ensures line == SettingLine(tb.updates[m])
    {
      SettingLineMentions(tb.updates[j], tb.updates[m].key);
    }
  }

  /** Every line the first pass writes for one input line is settled. */
  lemma RewriteSettled(line: string, applyDb: bool, tb: EnvTables)
    requires WellFormed(tb)
    ensures AllSettled(Rewrite(line, applyDb, tb), applyDb, tb)
  {
    var t := TrimSpace(line);
    if !IsSkipText(t, tb) && applyDb && MatchIn(tb.updates, t).Some? {
      var j :| 0 <= j < |tb.updates| && tb.updates[j] == MatchIn(tb.updates, t).value;
      UpdateLineSettled(j, applyDb, tb);
    }
  }

  lemma FirstPassSettled(lines: seq<string>, applyDb: bool, tb: EnvTables)
    requires WellFormed(tb)
    ensures AllSettled(FirstPass(lines, applyDb, tb), applyDb, tb)
  {
    forall i | 0 <= i < |lines|
      ensures All(RewriteBy(applyDb, tb)(lines[i]), SettledFn(applyDb, tb))
    {
      RewriteSettled(lines[i], applyDb, tb);
    }
    AllFlatMap(lines, RewriteBy(applyDb, tb), SettledFn(applyDb, tb));
  }

  lemma MissingSettled(order: seq<Setting>, seen: set<string>, applyDb: bool, tb: EnvTables)
    requires WellFormed(tb)
    requires forall s :: s in order ==> s in tb.updates
    ensures AllSettled(Missing(order, seen), applyDb, tb)
  {
    forall i | 0 <= i < |order|
      ensures SettledFn(applyDb, tb)(SettingLine(order[i]))
    {
      assert order[i] in order;
      var j :| 0 <= j < |tb.updates| && tb.updates[j] == order[i];
      UpdateLineSettled(j, applyDb, tb);
    }
    AllMissing(order, seen, SettledFn(applyDb, tb));
  }

  /** Every line of the body is settled. */
  lemma BodySettled(lines: seq<string>, applyDb: bool, tb: EnvTables, order: seq<Setting>)
    requires WellFormed(tb) && IsMapOrder(order, tb.updates)
    ensures AllSettled(Body(lines, applyDb, tb, order), applyDb, tb)
  {
    var seen := Seen(lines, applyDb, tb);
    var first := FirstPass(lines, applyDb, tb);
    var added := if applyDb then Missing(order, seen) else [];
    var p := SettledFn(applyDb, tb);
    FirstPassSettled(lines, applyDb, tb);
    MissingSettled(order, seen, applyDb, tb);
    AllAppend(first, added, p);
    DropTrailingBlankAll(first + added, p);
  }

  /** Dropping blank lines at the end keeps what holds of every line. */
  lemma DropTrailingBlankAll(lines: seq<string>, p: string -> bool)
    requires All(lines, p)
    ensures All(DropTrailingBlank(lines), p)
  {
    DropTrailingBlankSpec(lines);
    AllPrefix(lines, |DropTrailingBlank(lines)|, p);
  }

  /** The body is empty or ends with a line that is not blank. */
  lemma BodyEnds(lines: seq<string>, applyDb: bool, tb: EnvTables, order: seq<Setting>)
    ensures var body := Body(lines, applyDb, tb, order);
      body == [] || !IsBlank(body[|body| - 1])
  {
    var added := if applyDb then Missing(order, Seen(lines, applyDb, tb)) else [];
    DropTrailingBlankEnds(FirstPass(lines, applyDb, tb) + added);
  }

  lemma {:induction false} DropTrailingBlankEnds(lines: seq<string>)
    ensures DropTrailingBlank(lines) == [] || !IsBlank(DropTrailingBlank(lines)[|DropTrailingBlank(lines)| - 1])
    decreases |lines|
  {
    if |lines| > 0 && IsBlank(lines[|lines| - 1]) {
      var init := lines[..|lines| - 1];
      DropTrailingBlankEnds(init);
      assert DropTrailingBlank(lines) == DropTrailingBlank(init);
    } else {
      assert DropTrailingBlank(lines) == lines;
    }
  }

  /** A port line is its own trimmed text and sets exactly its own key. */
  lemma PortLineMentions(role: PortRole, suffix: int, key: string)
    requires IsKeyName(role.name) && IsKeyName(key)
    ensures Mentions(PortLine(role, suffix), key) <==> key == role.name
  {
    var line := PortLine(role, suffix);
    var digits := IntToString(PortOf(role, suffix));
    KeyNameFacts(role.name);
    KeyNameFacts(key);
    assert line[0] == role.name[0] && line[|line| - 1] == digits[|digits| - 1];
    TrimSpaceOfTrimmed(line);
    assert line[..|role.name + "="|] == role.name + "=";
    if Mentions(line, key) {
      KeyPrefixesExclusive(line, key, role.name);
    }
  }

  /** The empty line sets no key. */
  lemma EmptyLineMentionsNothing(key: string)
    ensures !Mentions("", key)
  {
    assert TrimSpace("") == "";
  }

  /**
    The rewritten lines are the body, which ends with a line that is not
    blank, followed by the
    fixed block: one empty line, the port settings in table order, one empty
    line and the Xdebug setting. So exactly one blank line precedes the ports.
  */
  lemma RewrittenLayout(lines: seq<string>, applyDb: bool, suffix: int, tb: EnvTables, order: seq<Setting>)
    ensures var out := Rewritten(lines, applyDb, suffix, tb, order);
      var n := |tb.ports|;
      |out| >= n + 3 && out[|out| - n - 3..] == PortBlock(tb, suffix) &&
      out[|out| - n - 3] == "" && out[|out| - 2] == "" && out[|out| - 1] == SettingLine(tb.debug) &&
      (forall k :: 0 <= k < n ==> out[|out| - n - 2 + k] == PortLine(tb.ports[k], suffix)) &&
      (|out| == n + 3 || !IsBlank(out[|out| - n - 4]))
  {
    var body := Body(lines, applyDb, tb, order);
    assert Rewritten(lines, applyDb, suffix, tb, order) == body + PortBlock(tb, suffix);
    BodyEnds(lines, applyDb, tb, order);
    BlockLayout(body, suffix, tb);
  }

  /** The layout of a body followed by the port block. */
  lemma BlockLayout(body: seq<string>, suffix: int, tb: EnvTables)
    requires body == [] || !IsBlank(body[|body| - 1])
    ensures var out := body + PortBlock(tb, suffix);
      var n := |tb.ports|;
      |out| >= n + 3 && out[|out| - n - 3..] == PortBlock(tb, suffix) &&
      out[|out| - n - 3] == "" && out[|out| - 2] == "" && out[|out| - 1] == SettingLine(tb.debug) &&
      (forall k :: 0 <= k < n ==> out[|out| - n - 2 + k] == PortLine(tb.ports[k], suffix)) &&
      (|out| == n + 3 || !IsBlank(out[|out| - n - 4]))
  {
    var block := PortBlock(tb, suffix);
    var portLines := PortLines(tb.ports, suffix);
    var n := |tb.ports|;
    var out := body + block;
    assert block == [""] + portLines + ["", SettingLine(tb.debug)];
    assert |block| == n + 3;
    assert |out| - n - 3 == |body|;
    assert out[|body|..] == block;
    forall k | 0 <= k < n
      ensures out[|body| + 1 + k] == PortLine(tb.ports[k], suffix)
    {
      assert out[|body| + 1 + k] == block[1 + k] == portLines[k];
    }
    if |body| > 0 {
      assert out[|body| - 1] == body[|body| - 1];
    }
  }

  /**
    Within the port block, the k-th port line sets exactly the k-th port key,
    the last line sets exactly the Xdebug mode, and the empty lines set nothing.
  */
  lemma BlockMentions(tb: EnvTables, suffix: int, i: nat, key: string)
    requires WellFormed(tb) && IsKeyName(key) && i < |tb.ports| + 3
    ensures Mentions(PortBlock(tb, suffix)[i], key) <==>
      (1 <= i <= |tb.ports| && key == tb.ports[i - 1].name) || (i == |tb.ports| + 2 && key == tb.debug.key)
  {
    var block := PortBlock(tb, suffix);
    if i == 0 || i == |tb.ports| + 1 {
      assert block[i] == "";
      EmptyLineMentionsNothing(key);
    } else if i == |tb.ports| + 2 {
      assert block[i] == SettingLine(tb.debug);
      SettingLineMentions(tb.debug, key);
    } else {
      assert block[i] == PortLine(tb.ports[i - 1], suffix);
      PortLineMentions(tb.ports[i - 1], suffix, key);
    }
  }

  /** A settled line sets no port key and not the Xdebug mode. */
  lemma SettledMentionsNoBlockKey(line: string, applyDb: bool, tb: EnvTables, key: string, k: nat)
    requires Settled(line, applyDb, tb)
    requires (k < |tb.ports| && key == tb.ports[k].name) || key == tb.debug.key
    ensures !Mentions(line, key)
  {
  }

  /**
    Which line of a settled body followed by the port block sets a port key
    or the Xdebug mode (the k-th port key, or the Xdebug key): none of the
    body, and in the block exactly as BlockMentions says.
  */
  lemma MentionsAt(body: seq<string>, applyDb: bool, suffix: int, tb: EnvTables, j: nat, key: string, k: nat)
    requires WellFormed(tb) && AllSettled(body, applyDb, tb)
    requires j < |body| + |tb.ports| + 3
    requires (k < |tb.ports| && key == tb.ports[k].name) || key == tb.debug.key
    ensures var n := |body|;
      Mentions((body + PortBlock(tb, suffix))[j], key) <==>
        j >= n && ((1 <= j - n <= |tb.ports| && key == tb.ports[j - n - 1].name) || (j - n == |tb.ports| + 2 && key == tb.debug.key))
  {
    var out := body + PortBlock(tb, suffix);
    if j >= |body| {
      var i := j - |body|;
      var line := PortBlock(tb, suffix)[i];
      assert out[j] == line;
      assert IsKeyName(key);
      BlockMentions(tb, suffix, i, key);
      assert Mentions(line, key) <==> (1 <= i <= |tb.ports| && key == tb.ports[i - 1].name) || (i == |tb.ports| + 2 && key == tb.debug.key);
    } else {
      var line := body[j];
      assert out[j] == line;
      assert SettledFn(applyDb, tb)(line);
      SettledMentionsNoBlockKey(line, applyDb, tb, key, k);
    }
  }

  /** After a settled body, the k-th port key is set by the k-th line of the port block only. */
  lemma PortMentionAt(body: seq<string>, applyDb: bool, suffix: int, tb: EnvTables, j: nat, k: nat)
    requires WellFormed(tb) && AllSettled(body, applyDb, tb)
    requires j < |body| + |tb.ports| + 3 && k < |tb.ports|
    ensures Mentions((body + PortBlock(tb, suffix))[j], tb.ports[k].name) <==> j == |body| + 1 + k
  {
    var name := tb.ports[k].name;
    var n := |body|;
    MentionsAt(body, applyDb, suffix, tb, j, name, k);
    assert name != tb.debug.key;
    if j == n + 1 + k {
      assert tb.ports[j - n - 1] == tb.ports[k];
    }
  }

  /**
    Exactly one rewritten line sets each port key: the k-th line of the port
    block, whatever the input held.
  */
  lemma ExactlyOnePortLine(lines: seq<string>, applyDb: bool, suffix: int, tb: EnvTables, order: seq<Setting>, k: nat)
    requires WellFormed(tb) && IsMapOrder(order, tb.updates) && k < |tb.ports|
    ensures var out := Rewritten(lines, applyDb, suffix, tb, order);
      forall j :: 0 <= j < |out| ==> (Mentions(out[j], tb.ports[k].name) <==> j == |out| - |tb.ports| - 2 + k)
  {
    var body := Body(lines, applyDb, tb, order);
    var out := body + PortBlock(tb, suffix);
    var name := tb.ports[k].name;
    BodySettled(lines, applyDb, tb, order);
    forall j | 0 <= j < |out|
      ensures Mentions(out[j], name) <==> j == |out| - |tb.ports| - 2 + k
    {
      PortMentionAt(body, applyDb, suffix, tb, j, k);
    }
  }

  /** Exactly one rewritten line sets the Xdebug mode: the last one. */
  lemma ExactlyOneDebugLine(lines: seq<string>, applyDb: bool, suffix: int, tb: EnvTables, order: seq<Setting>)
    requires WellFormed(tb) && IsMapOrder(order, tb.updates)
    ensures var out := Rewritten(lines, applyDb, suffix, tb, order);
      forall j :: 0 <= j < |out| ==> (Mentions(out[j], tb.debug.key) <==> j == |out| - 1)
  {
    var body := Body(lines, applyDb, tb, order);
    var out := body + PortBlock(tb, suffix);
    BodySettled(lines, applyDb, tb, order);
    forall j | 0 <= j < |out|
      ensures Mentions(out[j], tb.debug.key) <==> j == |out| - 1
    {
      MentionsAt(body, applyDb, suffix, tb, j, tb.debug.key, 0);
    }
  }

  /** Two database settings with the same line are the same setting. */
  lemma UpdateLineInjective(a: nat, b: nat, tb: EnvTables)
    requires WellFormed(tb) && a < |tb.updates| && b < |tb.updates|
    requires SettingLine(tb.updates[a]) == SettingLine(tb.updates[b])
    ensures a == b
  {
    SettingLineTrimmed(tb.updates[b]);
    SettingLineMentions(tb.updates[a], tb.updates[b].key);
  }

  /** A database key the first pass saw was written as its default. */
  lemma {:induction false} SeenWritten(lines: seq<string>, j: nat, tb: EnvTables)
    requires WellFormed(tb) && j < |tb.updates| && tb.updates[j].key in Seen(lines, true, tb)
    ensures SettingLine(tb.updates[j]) in FirstPass(lines, true, tb)
    decreases |lines|
  {
    var init, last := lines[..|lines| - 1], lines[|lines| - 1];
    if tb.updates[j].key in Seen(init, true, tb) {
      SeenWritten(init, j, tb);
    } else {
      var t := TrimSpace(last);
      var found := MatchIn(tb.updates, t);
      assert found.Some? && found.value.key == tb.updates[j].key;
      var m :| 0 <= m < |tb.updates| && tb.updates[m] == found.value;
      assert m == j;
      assert Rewrite(last, true, tb) == [SettingLine(tb.updates[j])];
    }
  }

  /** A database setting the loop meets unseen is appended. */
  lemma {:induction false} MissingWritten(order: seq<Setting>, seen: set<string>, s: Setting)
    requires s in order && s.key !in seen
    ensures SettingLine(s) in Missing(order, seen)
    decreases |order|
  {
    if order[|order| - 1] != s {
      assert s in order[..|order| - 1] by {
        var i :| 0 <= i < |order| && order[i] == s;
        assert order[..|order| - 1][i] == s;
      }
      MissingWritten(order[..|order| - 1], seen, s);
    }
  }

  /**
    The appending loop writes each database setting once when its key was not
    seen and not at all when it was, whatever the map's order.
  */
  lemma {:induction false} MissingCount(order: seq<Setting>, seen: set<string>, j: nat, tb: EnvTables)
    requires WellFormed(tb) && j < |tb.updates|
    requires forall s :: s in order ==> s in tb.updates
    requires forall a, b :: 0 <= a < b < |order| ==> order[a] != order[b]
    ensures multiset(Missing(order, seen))[SettingLine(tb.updates[j])] ==
      if tb.updates[j] in order && tb.updates[j].key !in seen then 1 else 0
    decreases |order|
  {
    if |order| > 0 {
      var init, last := order[..|order| - 1], order[|order| - 1];
      var s := tb.updates[j];
      assert forall x :: x in init ==> x in order;
      MissingCount(init, seen, j, tb);
      assert last in order;
      var m :| 0 <= m < |tb.updates| && tb.updates[m] == last;
      if SettingLine(last) == SettingLine(s) {
        UpdateLineInjective(m, j, tb);
      }
      assert s in order <==> s in init || s == last;
      if s == last {
        forall i | 0 <= i < |init|
          ensures init[i] != last
        {
          assert order[i] != order[|order| - 1];
        }
      }
    }
  }

  /** In any order the map yields, each unseen database setting is appended exactly once. */
  lemma MissingOnce(order: seq<Setting>, seen: set<string>, j: nat, tb: EnvTables)
    requires WellFormed(tb) && IsMapOrder(order, tb.updates) && j < |tb.updates|
    ensures multiset(Missing(order, seen))[SettingLine(tb.updates[j])] == if tb.updates[j].key !in seen then 1 else 0
  {
    assert tb.updates[j] in tb.updates;
    MissingCount(order, seen, j, tb);
  }

  /**
    When the database settings apply, each of them is in the body with its
    default value, and every body line that sets a database key is that
    key's default.
  */
  lemma DbSettingsApplied(lines: seq<string>, tb: EnvTables, order: seq<Setting>, j: nat)
    requires WellFormed(tb) && IsMapOrder(order, tb.updates) && j < |tb.updates|
    ensures SettingLine(tb.updates[j]) in Body(lines, true, tb, order)
    ensures forall i :: 0 <= i < |Body(lines, true, tb, order)| && Mentions(Body(lines, true, tb, order)[i], tb.updates[j].key) ==>
      Body(lines, true, tb, order)[i] == SettingLine(tb.updates[j])
  {
    DbSettingInBody(lines, tb, order, j);
    var body := Body(lines, true, tb, order);
    BodySettled(lines, true, tb, order);
    forall i | 0 <= i < |body| && Mentions(body[i], tb.updates[j].key)
      ensures body[i] == SettingLine(tb.updates[j])
    {
      assert SettledFn(true, tb)(body[i]);
    }
  }

  /** Each database setting reaches the body: rewritten in place, or appended. */
  lemma DbSettingInBody(lines: seq<string>, tb: EnvTables, order: seq<Setting>, j: nat)
    requires WellFormed(tb) && IsMapOrder(order, tb.updates) && j < |tb.updates|
    ensures SettingLine(tb.updates[j]) in Body(lines, true, tb, order)
  {
    var seen := Seen(lines, true, tb);
    var all := FirstPass(lines, true, tb) + Missing(order, seen);
    var line := SettingLine(tb.updates[j]);
    if tb.updates[j].key in seen {
      SeenWritten(lines, j, tb);
    } else {
      assert tb.updates[j] in tb.updates;
      MissingWritten(order, seen, tb.updates[j]);
    }
    assert line in all;
    var i :| 0 <= i < |all| && all[i] == line;
    SettingLineTrimmed(tb.updates[j]);
    DropTrailingBlankKeeps(all, i);
  }

  /** The first pass: whether a trimmed line sets a port key or the Xdebug mode. */
  method IsSkipKey(trimmed: string, tb: EnvTables) returns (skip: bool)
    ensures skip == IsSkipText(trimmed, tb)
  {
    skip := false;
    for k := 0 to |tb.ports|
      invariant forall m :: 0 <= m < k ==> !StartsWithKey(trimmed, tb.ports[m].name)
    {
      if HasPrefix(trimmed, tb.ports[k].name + "=") {
        skip := true;
        break;
      }
    }
    if HasPrefix(trimmed, tb.debug.key + "=") {
      skip := true;
    }
  }

  /** The search of the settings map for a key the trimmed line sets, in the map's own order. */
  method MatchUpdate(trimmed: string, tb: EnvTables) returns (m: Option<Setting>)
    requires WellFormed(tb)
    ensures m == MatchIn(tb.updates, trimmed)
  {
    var pending := set s | s in tb.updates;
    while pending != {}
      invariant forall s :: s in pending ==> s in tb.updates
      invariant forall s :: s in tb.updates && s !in pending ==> !StartsWithKey(trimmed, s.key)
      decreases |pending|
    {
      var s :| s in pending;
      if HasPrefix(trimmed, s.key + "=") {
        var j :| 0 <= j < |tb.updates| && tb.updates[j] == s;
        MatchUnique(trimmed, j, tb);
        return Some(s);
      }
      pending := pending - {s};
    }
    assert forall j :: 0 <= j < |tb.updates| ==> tb.updates[j] in tb.updates;
    return None;
  }

  /**
    The first pass on one line: drop a port or Xdebug line; with the
    database settings applied, replace a database line by its default and
    mark its key as seen; keep any other line.
  */
  method RewriteLine(line: string, applyDb: bool, tb: EnvTables) returns (written: seq<string>, seenKey: set<string>)
    requires WellFormed(tb)
    ensures written == Rewrite(line, applyDb, tb) && seenKey == SeenBy(line, applyDb, tb)
  {
    var trimmed := TrimSpace(line);
    var skip := IsSkipKey(trimmed, tb);
    if skip {
      return [], {};
    }
    if applyDb {
      var m := MatchUpdate(trimmed, tb);
      if m.Some? {
        return [SettingLine(m.value)], {m.value.key};
      }
    }
    return [line], {};
  }

  /** One more line for the first pass. */
  lemma FirstPassStep(lines: seq<string>, i: nat, applyDb: bool, tb: EnvTables)
    requires i < |lines|
    ensures FirstPass(lines[..i + 1], applyDb, tb) == FirstPass(lines[..i], applyDb, tb) + Rewrite(lines[i], applyDb, tb)
    ensures Seen(lines[..i + 1], applyDb, tb) == Seen(lines[..i], applyDb, tb) + SeenBy(lines[i], applyDb, tb)
  {
    assert lines[..i + 1][..i] == lines[..i] && lines[..i + 1][i] == lines[i];
  }

  /**
    setupEnv's rewrite of the lines: the first pass, the appending of the
    unseen database settings in the map's order, the removal of trailing
    blank lines, and the port block.
  */
  method RewriteLines(lines: seq<string>, applyDb: bool, suffix: int, tb: EnvTables, order: seq<Setting>) returns (newLines: seq<string>)
    requires WellFormed(tb) && IsMapOrder(order, tb.updates)
    ensures newLines == Rewritten(lines, applyDb, suffix, tb, order)
  {
    var seen;
    newLines, seen := RewriteEach(lines, applyDb, tb);
    ghost var added: seq<string> := if applyDb then Missing(order, seen) else [];
    if applyDb {
      newLines := AppendMissing(newLines, order, seen);
    }
    assert newLines == FirstPass(lines, applyDb, tb) + added;
    newLines := DropTrailingBlankLines(newLines);
    assert newLines == Body(lines, applyDb, tb, order);
    newLines := AppendPortBlock(newLines, suffix, tb);
  }

  /** The first loop: each line dropped, rewritten or kept, and the database keys it set. */
  method RewriteEach(lines: seq<string>, applyDb: bool, tb: EnvTables) returns (newLines: seq<string>, seen: set<string>)
    requires WellFormed(tb)
    ensures newLines == FirstPass(lines, applyDb, tb) && seen == Seen(lines, applyDb, tb)
  {
    newLines := [];
    seen := {};
    for i := 0 to |lines|
      invariant newLines == FirstPass(lines[..i], applyDb, tb)
      invariant seen == Seen(lines[..i], applyDb, tb)
    {
      var written, seenKey := RewriteLine(lines[i], applyDb, tb);
      FirstPassStep(lines, i, applyDb, tb);
      newLines := newLines + written;
      seen := seen + seenKey;
    }
    assert lines[..|lines|] == lines;
  }

  /** The second loop: append each database setting whose key was not seen, in the map's order. */
  method AppendMissing(lines: seq<string>, order: seq<Setting>, seen: set<string>) returns (newLines: seq<string>)
    ensures newLines == lines + Missing(order, seen)
  {
    newLines := lines;
    for i := 0 to |order|
      invariant newLines == lines + Missing(order[..i], seen)
    {
      assert order[..i + 1][..i] == order[..i] && order[..i + 1][i] == order[i];
      if order[i].key !in seen {
        newLines := newLines + [SettingLine(order[i])];
      }
    }
    assert order[..|order|] == order;
  }

  /** The loop that pops blank lines off the end. */
  method DropTrailingBlankLines(lines: seq<string>) returns (newLines: seq<string>)
    ensures newLines == DropTrailingBlank(lines)
  {
    newLines := lines;
    while |newLines| > 0 && TrimSpace(newLines[|newLines| - 1]) == ""
      invariant DropTrailingBlank(newLines) == DropTrailingBlank(lines)
      decreases |newLines|
    {
      newLines := newLines[..|newLines| - 1];
    }
  }

  lemma BlockConcat(lines: seq<string>, portLines: seq<string>, debugLine: string)
    ensures lines + [""] + portLines + [""] + [debugLine] == lines + ([""] + portLines + ["", debugLine])
  {
  }

  /** The final layout: an empty line, the port settings in order, an empty line, the Xdebug setting. */
  method AppendPortBlock(lines: seq<string>, suffix: int, tb: EnvTables) returns (newLines: seq<string>)
    ensures newLines == lines + PortBlock(tb, suffix)
  {
    ghost var portLines := PortLines(tb.ports, suffix);
    newLines := lines + [""];
    for k := 0 to |tb.ports|
      invariant newLines == lines + [""] + portLines[..k]
    {
      var line := PortLine(tb.ports[k], suffix);
      assert portLines[..k + 1] == portLines[..k] + [line];
      newLines := newLines + [line];
    }
    assert portLines[..|tb.ports|] == portLines;
    var debugLine := SettingLine(tb.debug);
    newLines := newLines + [""];
    newLines := newLines + [debugLine];
    BlockConcat(lines, portLines, debugLine);
  }

  /**
    setupEnv: start from the .env (or, when there is none, a copy of
    .env.example, or nothing), split it into lines, rewrite them with the
    Sail tables, and join them with "\n" and a final "\n". `order` is the
    order the settings map is iterated in.
  */
  method SetupEnv(env: Option<string>, example: Option<string>, suffix: int, resetDb: bool, order: seq<Setting>) returns (content: string)
    requires IsMapOrder(order, CoreUpdates)
    ensures content == SetupEnvContent(env, example, suffix, resetDb, order)
  {
    var envCreated := false;
    var data := "";
    if env.None? {
      envCreated := true;
      if example.Some? {
        data := example.value;
      }
    } else {
      data := env.value;
    }
    var lines := SplitLines(data);
    var applyDbSettings := envCreated || resetDb;
    SailWellFormed();
    var newLines := RewriteLines(lines, applyDbSettings, suffix, Sail, order);
    content := Join(newLines, "\n") + "\n";
  }

  /** Lines ending with an empty line and `last`, joined with newlines and a final newline, end with them. */
  lemma JoinedEnds(out: seq<string>, last: string)
    requires |out| >= 3 && out[|out| - 2] == "" && out[|out| - 1] == last
    ensures var c := Join(out, "\n") + "\n";
      var tail := "\n\n" + last + "\n";
      |c| >= |tail| && c[|c| - |tail|..] == tail
  {
    var front := out[..|out| - 2];
    assert out == front + [""] + [last];
    JoinSnoc(front + [""], last, "\n");
    JoinSnoc(front, "", "\n");
  }

  /** The .env written always ends with an empty line, the Xdebug line and a newline. */
  lemma SetupEnvContentEnds(env: Option<string>, example: Option<string>, suffix: int, resetDb: bool, order: seq<Setting>)
    requires IsMapOrder(order, CoreUpdates)
    ensures var c := SetupEnvContent(env, example, suffix, resetDb, order);
      var tail := "\n\n" + SettingLine(DebugSetting) + "\n";
      |c| >= |tail| && c[|c| - |tail|..] == tail
  {
    var lines := Lines(EnvSource(env, example));
    var applyDb := env.None? || resetDb;
    SailWellFormed();
    RewrittenLayout(lines, applyDb, suffix, Sail, order);
    JoinedEnds(Rewritten(lines, applyDb, suffix, Sail, order), SettingLine(Sail.debug));
  }

  /** The Xdebug line as written. */
  lemma DebugLineText()
    ensures SettingLine(DebugSetting) == "SAIL_XDEBUG_MODE=develop,debug,coverage"
  {
  }
}
