/**
  The port-suffix registry (portmanager.go): a state file holding a
  high-water mark and a map from absolute project path to suffix, and the
  operations that load it, change it and save it again.
*/
module Registry {
  import opened Wrappers
  import opened EnvFile

  /** The content of the state file: the highest suffix handed out and every project's suffix. */
  datatype PortState = PortState(maxSuffix: int, projects: map<string, int>)

  /** What loading reads when there is no state file yet. */
  function EmptyState(): PortState {
    PortState(0, map[])
  }

  /** The ways an operation on the store fails. */
  datatype StoreError = ReadError | WriteError | NotRegistered(path: string)

  /** getSuggestedSuffix's three results: the suffix, whether it was found, whether the state file existed. */
  datatype Suggestion = Suggestion(suffix: int, existing: bool, existed: bool)

  /** One row of ListProjects. */
  datatype ProjectInfo = ProjectInfo(path: string, suffix: int, present: bool)

  /**
    The suggestion for `dir`: its registry entry; else the suffix its .env
    gives (`env` is the .env text when the file can be read); else one past
    the high-water mark.
  */
  function Suggest(st: PortState, existed: bool, dir: string, env: Option<string>): Suggestion {
    if dir in st.projects then Suggestion(st.projects[dir], true, existed)
    else if env.Some? && EnvSuffix(Lines(env.value)).Some? then
      Suggestion(EnvSuffix(Lines(env.value)).value, true, existed)
    else Suggestion(st.maxSuffix + 1, false, existed)
  }

  /** The state after recording suffix `s` for `dir`. */
  function Saved(st: PortState, dir: string, s: int): PortState {
    PortState(if s > st.maxSuffix then s else st.maxSuffix, st.projects[dir := s])
  }

  /** The state after forgetting `dir`. */
  function Removed(st: PortState, dir: string): PortState {
    PortState(st.maxSuffix, st.projects - {dir})
  }

  /** The registered paths that no longer exist on disk. */
  function Orphans(st: PortState, missing: set<string>): set<string> {
    set p | p in st.projects && p in missing
  }

  /** The state after dropping every orphan. */
  function Pruned(st: PortState, missing: set<string>): PortState {
    PortState(st.maxSuffix, st.projects - Orphans(st, missing))
  }

  /** Project `q` is not `dir` and holds suffix `s`. */
  predicate HeldByOther(st: PortState, dir: string, s: int, q: string) {
    q in st.projects && q != dir && st.projects[q] == s
  }

  /** The suffixes that projects other than `dir` hold. */
  function TakenByOthers(st: PortState, dir: string): set<int> {
    set q | q in st.projects && q != dir :: st.projects[q]
  }

  /** No registered suffix is above the high-water mark. */
  predicate HighWater(st: PortState) {
    forall p :: p in st.projects ==> st.projects[p] <= st.maxSuffix
  }

  /** No two projects share a suffix. */
  predicate Distinct(st: PortState) {
    forall p, q :: p in st.projects && q in st.projects && p != q ==> st.projects[p] != st.projects[q]
  }

  /**
    The state file and its surroundings. `present` says whether the file is
    there, `unreadable` whether reading or decoding it fails, `writable`
    whether writing it succeeds; `maxSuffix` and `projects` are its content.
    `saves` counts the writes that succeeded.
  */
  class PortStore {
    var present: bool
    var unreadable: bool
    var writable: bool
    var maxSuffix: int
    var projects: map<string, int>
    ghost var saves: nat

    constructor (present: bool, unreadable: bool, writable: bool, maxSuffix: int, projects: map<string, int>)
      ensures this.present == present && this.unreadable == unreadable && this.writable == writable
      ensures this.maxSuffix == maxSuffix && this.projects == projects && saves == 0
    {
      this.present := present;
      this.unreadable := unreadable;
      this.writable := writable;
      this.maxSuffix := maxSuffix;
      this.projects := projects;
      saves := 0;
    }

    /**
      loadPortState: a read or decode failure is an error; a missing file
      reads as no projects with mark 0; otherwise the file's content.
    */
    function Load(): (r: Result<PortState, StoreError>)
      reads this
      ensures r.Failure? <==> unreadable
      ensures r.Failure? ==> r.error == ReadError
      ensures r.Success? && !present ==> r.value.maxSuffix == 0 && r.value.projects == map[]
      ensures r.Success? && present ==> r.value.maxSuffix == maxSuffix && r.value.projects == projects
    {
      if unreadable then Failure(ReadError)
      else if !present then Success(EmptyState())
      else Success(PortState(maxSuffix, projects))
    }

    /** The suffixes a collision check for `dir` reports as in use: none when loading fails. */
    function Taken(dir: string): set<int>
      reads this
    {
      if Load().Failure? then {} else TakenByOthers(Load().value, dir)
    }

    /** The save method: write `st` when the file can be written. */
    method Save(st: PortState) returns (r: Result<(), StoreError>)
      modifies this
      ensures r == if old(writable) then Success(()) else Failure(WriteError)
      ensures writable == old(writable)
      ensures r.Success? ==> present && Load() == Success(st) && saves == old(saves) + 1
      ensures r.Failure? ==> Load() == old(Load()) && present == old(present) && saves == old(saves)
    {
      if !writable {
        return Failure(WriteError);
      }
      present, unreadable := true, false;
      maxSuffix, projects := st.maxSuffix, st.projects;
      saves := saves + 1;
      return Success(());
    }

    /** getSuggestedSuffix: read-only; a load failure is passed on. */
    method GetSuggestedSuffix(dir: string, env: Option<string>) returns (r: Result<Suggestion, StoreError>)
      ensures Load().Failure? ==> r == Failure(ReadError)
      ensures Load().Success? ==> r == Success(Suggest(Load().value, present, dir, env))
    {
      var loaded := Load();
      if loaded.Failure? {
        return Failure(ReadError);
      }
      var st, existed := loaded.value, present;
      if dir in st.projects {
        return Success(Suggestion(st.projects[dir], true, existed));
      }
      var suggestion := Suggestion(st.maxSuffix + 1, false, existed);
      if env.Some? {
        var suffix, found := ExtractSuffixFromEnv(env.value);
        if found {
          suggestion := Suggestion(suffix, true, existed);
        }
      }
      assert suggestion == Suggest(st, existed, dir, env);
      return Success(suggestion);
    }

    /** saveProjectSuffix: record `s` for `dir`, raise the high-water mark, and save. */
    method SaveProjectSuffix(dir: string, s: int) returns (r: Result<(), StoreError>)
      modifies this
      ensures writable == old(writable)
      ensures old(Load()).Failure? ==> r == Failure(ReadError) && Load() == old(Load()) && present == old(present) && saves == old(saves)
      ensures old(Load()).Success? ==>
        if old(writable) then r.Success? && present && Load() == Success(Saved(old(Load()).value, dir, s)) && saves == old(saves) + 1
        else r == Failure(WriteError) && Load() == old(Load()) && present == old(present) && saves == old(saves)
    {
      var loaded := Load();
      if loaded.Failure? {
        return Failure(ReadError);
      }
      var st := loaded.value;
      var projects' := st.projects[dir := s];
      var max := st.maxSuffix;
      if s > max {
        max := s;
      }
      r := Save(PortState(max, projects'));
    }

    /**
      isSuffixInUseByOther: look through the projects, in no particular order,
      for one other than `dir` holding `s`. A load failure reports no conflict.
    */
    method IsSuffixInUseByOther(dir: string, s: int) returns (owner: string, inUse: bool)
      ensures inUse <==> Load().Success? && exists q :: HeldByOther(Load().value, dir, s, q)
      ensures inUse ==> HeldByOther(Load().value, dir, s, owner)
      ensures !inUse ==> owner == ""
      ensures inUse <==> s in Taken(dir)
    {
      var loaded := Load();
      if loaded.Failure? {
        return "", false;
      }
      var st := loaded.value;
      TakenByOthersIff(st, dir, s);
      var pending := st.projects.Keys;
      while pending != {}
        invariant pending <= st.projects.Keys
        invariant forall q :: q in st.projects && q !in pending ==> !HeldByOther(st, dir, s, q)
        decreases pending
      {
        var path :| path in pending;
        if st.projects[path] == s && path != dir {
          assert HeldByOther(st, dir, s, path);
          return path, true;
        }
        pending := pending - {path};
      }
      return "", false;
    }

    /** RemoveProject: an unregistered path is an error and nothing is saved. */
    method RemoveProject(dir: string) returns (r: Result<(), StoreError>)
      modifies this
      ensures writable == old(writable)
      ensures old(Load()).Failure? ==> r == Failure(ReadError) && Load() == old(Load()) && present == old(present) && saves == old(saves)
      ensures old(Load()).Success? && dir !in old(Load()).value.projects ==>
        r == Failure(NotRegistered(dir)) && Load() == old(Load()) && present == old(present) && saves == old(saves)
      ensures old(Load()).Success? && dir in old(Load()).value.projects ==>
        if old(writable) then r.Success? && present && Load() == Success(Removed(old(Load()).value, dir)) && saves == old(saves) + 1
        else r == Failure(WriteError) && Load() == old(Load()) && present == old(present) && saves == old(saves)
    {
      var loaded := Load();
      if loaded.Failure? {
        return Failure(ReadError);
      }
      var st := loaded.value;
      if dir !in st.projects {
        return Failure(NotRegistered(dir));
      }
      r := Save(PortState(st.maxSuffix, st.projects - {dir}));
    }

    /**
      ListProjects: one row per registered project, in no particular order,
      telling whether its directory exists (`missing` holds the paths that
      os.Stat reports as not existing).
    */
    method ListProjects(missing: set<string>) returns (r: Result<seq<ProjectInfo>, StoreError>)
      ensures Load().Failure? ==> r == Failure(ReadError)
      ensures Load().Success? ==> r.Success? && Listing(Load().value, missing, r.value)
    {
      var loaded := Load();
      if loaded.Failure? {
        return Failure(ReadError);
      }
      var st := loaded.value;
      var rows: seq<ProjectInfo> := [];
      var pending := st.projects.Keys;
      while pending != {}
        invariant pending <= st.projects.Keys
        invariant forall i :: 0 <= i < |rows| ==> Describes(st, missing, rows[i]) && rows[i].path !in pending
        invariant forall i, j :: 0 <= i < j < |rows| ==> rows[i].path != rows[j].path
        invariant forall p :: p in st.projects && p !in pending ==> exists i :: 0 <= i < |rows| && rows[i].path == p
        decreases pending
      {
        var path :| path in pending;
        var row := ProjectInfo(path, st.projects[path], path !in missing);
        ghost var before := rows;
        rows := rows + [row];
        assert forall i :: 0 <= i < |before| ==> rows[i] == before[i];
        assert rows[|before|].path == path;
        pending := pending - {path};
      }
      return Success(rows);
    }

    /**
      CleanOrphanedProjects: collect the registered paths that no longer
      exist, delete them, and save only when there was at least one; the
      result is how many were removed.
    */
    method CleanOrphanedProjects(missing: set<string>) returns (r: Result<nat, StoreError>)
      modifies this
      ensures writable == old(writable)
      ensures old(Load()).Failure? ==> r == Failure(ReadError) && Load() == old(Load()) && present == old(present) && saves == old(saves)
      ensures old(Load()).Success? && Orphans(old(Load()).value, missing) == {} ==>
        r == Success(0) && Load() == old(Load()) && present == old(present) && saves == old(saves)
      ensures old(Load()).Success? && Orphans(old(Load()).value, missing) != {} ==>
        if old(writable) then
          r == Success(|Orphans(old(Load()).value, missing)|) && saves == old(saves) + 1
          && present && Load() == Success(Pruned(old(Load()).value, missing))
        else r == Failure(WriteError) && Load() == old(Load()) && present == old(present) && saves == old(saves)
    {
      var loaded := Load();
      if loaded.Failure? {
        return Failure(ReadError);
      }
      var st := loaded.value;
      var removed := CollectOrphans(st, missing);
      var projects' := DeleteAll(st.projects, removed);
      assert projects' == Pruned(st, missing).projects;
      if |removed| > 0 {
        var saved := Save(PortState(st.maxSuffix, projects'));
        if saved.Failure? {
          return Failure(WriteError);
        }
      }
      return Success(|removed|);
    }
  }

  /** A row shows a registered project with its suffix and whether its directory exists. */
  predicate Describes(st: PortState, missing: set<string>, row: ProjectInfo) {
    row.path in st.projects && row.suffix == st.projects[row.path] && row.present == (row.path !in missing)
  }

  /** A listing has exactly one correct row per registered project. */
  predicate Listing(st: PortState, missing: set<string>, rows: seq<ProjectInfo>) {
    (forall i :: 0 <= i < |rows| ==> Describes(st, missing, rows[i]))
    && (forall i, j :: 0 <= i < j < |rows| ==> rows[i].path != rows[j].path)
    && (forall p :: p in st.projects ==> exists i :: 0 <= i < |rows| && rows[i].path == p)
  }

  /** CleanOrphanedProjects' first loop: the orphans, each once, in no particular order. */
  method CollectOrphans(st: PortState, missing: set<string>) returns (removed: seq<string>)
    ensures forall x :: x in removed <==> x in Orphans(st, missing)
    ensures |removed| == |Orphans(st, missing)|
  {
    removed := [];
    ghost var found: set<string> := {};
    var pending := st.projects.Keys;
    while pending != {}
      invariant pending <= st.projects.Keys
      invariant forall x :: x in removed <==> x in found
      invariant |found| == |removed|
      invariant found == Orphans(st, missing) - pending
      decreases pending
    {
      var path :| path in pending;
      if path in missing {
        assert path !in found;
        removed := removed + [path];
        found := found + {path};
      }
      pending := pending - {path};
    }
  }

  /** CleanOrphanedProjects' second loop: delete every listed path from the map. */
  method DeleteAll(projects: map<string, int>, removed: seq<string>) returns (kept: map<string, int>)
    ensures forall p :: p in kept <==> p in projects && p !in removed
    ensures forall p :: p in kept ==> kept[p] == projects[p]
  {
    kept := projects;
    for i := 0 to |removed|
      invariant forall p :: p in kept <==> p in projects && p !in removed[..i]
      invariant forall p :: p in kept ==> kept[p] == projects[p]
    {
      assert removed[..i + 1] == removed[..i] + [removed[i]];
      kept := kept - {removed[i]};
    }
    assert removed[..|removed|] == removed;
  }

  /** After saving s for dir, the next suggestion for dir is s, found, with the state file present. */
  lemma SuggestAfterSave(st: PortState, dir: string, s: int, env: Option<string>)
    ensures Suggest(Saved(st, dir, s), true, dir, env) == Suggestion(s, true, true)
  {
  }

  /** With no state file and no .env, the first suggestion is 1, not found, no state file. */
  lemma SuggestOnEmptyStore(dir: string)
    ensures Suggest(EmptyState(), false, dir, None) == Suggestion(1, false, false)
  {
  }

  /** A suggestion not found anywhere is one past the high-water mark. */
  lemma SuggestFallback(st: PortState, existed: bool, dir: string, env: Option<string>)
    ensures !Suggest(st, existed, dir, env).existing <==>
      dir !in st.projects && (env.None? || EnvSuffix(Lines(env.value)).None?)
    ensures !Suggest(st, existed, dir, env).existing ==> Suggest(st, existed, dir, env).suffix == st.maxSuffix + 1
    ensures Suggest(st, existed, dir, env).existed == existed
  {
  }

  /**
    Saving sets dir's entry, leaves every other entry alone, and never
    lowers the high-water mark, which ends up the larger of the old mark and s.
  */
  lemma SavedEffect(st: PortState, dir: string, s: int)
    ensures Saved(st, dir, s).projects.Keys == st.projects.Keys + {dir}
    ensures Saved(st, dir, s).projects[dir] == s
    ensures forall p :: p in st.projects && p != dir ==> Saved(st, dir, s).projects[p] == st.projects[p]
    ensures Saved(st, dir, s).maxSuffix >= st.maxSuffix && Saved(st, dir, s).maxSuffix >= s
    ensures Saved(st, dir, s).maxSuffix == st.maxSuffix || Saved(st, dir, s).maxSuffix == s
  {
  }

  /** Saving, removing and pruning keep every suffix at or below the high-water mark. */
  lemma HighWaterKept(st: PortState, dir: string, s: int, missing: set<string>)
    requires HighWater(st)
    ensures HighWater(Saved(st, dir, s))
    ensures HighWater(Removed(st, dir))
    ensures HighWater(Pruned(st, missing))
  {
  }

  /** A suffix is taken by others exactly when some other project holds it. */
  lemma TakenByOthersIff(st: PortState, dir: string, s: int)
    ensures s in TakenByOthers(st, dir) <==> exists q :: HeldByOther(st, dir, s, q)
  {
    if s in TakenByOthers(st, dir) {
      var q :| q in st.projects && q != dir && st.projects[q] == s;
      assert HeldByOther(st, dir, s, q);
    }
  }

  /**
    A project's own entry is never a conflict for it: when suffixes are
    distinct its own suffix is not taken by others.
  */
  lemma OwnEntryNoConflict(st: PortState, dir: string)
    requires Distinct(st) && dir in st.projects
    ensures st.projects[dir] !in TakenByOthers(st, dir)
  {
  }

  /** Under the high-water mark, a fresh suggestion (one past it) is held by nobody. */
  lemma FreshSuggestionIsFree(st: PortState, dir: string)
    requires HighWater(st)
    ensures st.maxSuffix + 1 !in TakenByOthers(st, dir)
  {
  }

  /** Saving a suffix nobody else holds keeps suffixes distinct. */
  lemma SaveKeepsDistinct(st: PortState, dir: string, s: int)
    requires Distinct(st) && s !in TakenByOthers(st, dir)
    ensures Distinct(Saved(st, dir, s))
  {
    var m := Saved(st, dir, s).projects;
    forall p, q | p in m && q in m && p != q
      ensures m[p] != m[q]
    {
      if p == dir {
        assert q != dir && m[q] == st.projects[q];
        assert st.projects[q] in TakenByOthers(st, dir);
      } else if q == dir {
        assert m[p] == st.projects[p];
        assert st.projects[p] in TakenByOthers(st, dir);
      }
    }
  }

  /** Removal forgets dir and keeps every other entry and the high-water mark. */
  lemma RemovedEffect(st: PortState, dir: string)
    ensures dir !in Removed(st, dir).projects
    ensures forall p :: p != dir ==> (p in Removed(st, dir).projects <==> p in st.projects)
    ensures forall p :: p in Removed(st, dir).projects ==> Removed(st, dir).projects[p] == st.projects[p]
    ensures Removed(st, dir).maxSuffix == st.maxSuffix
  {
  }

  /**
    Pruning keeps exactly the entries whose path exists, with their suffixes
    and the high-water mark, and leaves no orphan behind, so a second clean
    removes nothing.
  */
  lemma PrunedEffect(st: PortState, missing: set<string>)
    ensures forall p :: p in Pruned(st, missing).projects <==> p in st.projects && p !in missing
    ensures forall p :: p in Pruned(st, missing).projects ==> Pruned(st, missing).projects[p] == st.projects[p]
    ensures Pruned(st, missing).maxSuffix == st.maxSuffix
    ensures Orphans(Pruned(st, missing), missing) == {}
    ensures |Orphans(st, missing)| + |Pruned(st, missing).projects| == |st.projects|
  {
    var o := Orphans(st, missing);
    var kept := Pruned(st, missing).projects.Keys;
    assert st.projects.Keys == o + kept;
    assert o * kept == {};
  }

  /** A first project saved at 48 makes the next project's suggestion 49. */
  lemma SecondProjectScenario()
    ensures Suggest(Saved(EmptyState(), "/a", 48), true, "/b", None) == Suggestion(49, false, true)
  {
  }

  /** With /a at 51 and /b at 52, 52 is taken for /a, while /a's own 51 is not. */
  lemma ConflictScenario()
    ensures 52 in TakenByOthers(PortState(52, map["/a" := 51, "/b" := 52]), "/a")
    ensures 51 !in TakenByOthers(PortState(52, map["/a" := 51, "/b" := 52]), "/a")
  {
    var st := PortState(52, map["/a" := 51, "/b" := 52]);
    assert HeldByOther(st, "/a", 52, "/b");
    TakenByOthersIff(st, "/a", 52);
    TakenByOthersIff(st, "/a", 51);
    assert "/a" != "/b";
  }
}
