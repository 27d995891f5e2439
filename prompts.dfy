/**
  The two interactive loops of the setup command (main.go): the first-time
  prompt for a starting suffix and the loop that confirms a suffix and
  checks it against the other projects. The console is a sequence of lines;
  once they run out, every further read gives the empty line (end of input).
*/
module Prompts {
  import opened Wrappers
  import opened Text
  import opened Ports
  import opened Registry

  /** The suffix offered when the first-time prompt gets an empty answer. */
  const DefaultStartSuffix: int := 48

  /** A prompt's outcome: the suffix it settled on and how many lines it read. */
  datatype Answer = Answer(suffix: int, used: nat)

  /** How a prompt reads one answer line. */
  datatype Reply = Empty | Unusable | Typed(suffix: int)

  /**
    An answer line, trimmed: empty; a number that passes ValidateSuffix;
    or anything else (not a number, or out of range).
  */
  function Classify(line: string): (r: Reply)
    ensures r.Typed? ==> IsValidSuffix(r.suffix)
  {
    var t := TrimSpace(line);
    if t == "" then Empty
    else
      var v := ScanInt(t);
      if v.Some? && IsValidSuffix(v.value) then Typed(v.value) else Unusable
  }

  /** Typing a valid suffix in decimal is read back as that suffix. */
  lemma ClassifyOfSuffix(n: int)
    requires IsValidSuffix(n)
    ensures Classify(IntToString(n)) == Typed(n)
  {
    ValidateSuffixIffPortsInRange(n);
    var t := IntToString(n);
    TrimSpaceOfTrimmed(t);
    ScanIntOfIntToString(n);
  }

  /** Every suffix a reply carries has passed ValidateSuffix. */
  predicate ValidReplies(replies: seq<Reply>) {
    forall i :: 0 <= i < |replies| && replies[i].Typed? ==> IsValidSuffix(replies[i].suffix)
  }

  /** Every answer line, classified. */
  function Replies(inputs: seq<string>): (rs: seq<Reply>)
    ensures |rs| == |inputs| && forall i :: 0 <= i < |inputs| ==> rs[i] == Classify(inputs[i])
    ensures ValidReplies(rs)
  {
    seq(|inputs|, i requires 0 <= i < |inputs| => Classify(inputs[i]))
  }

  /**
    The first-time prompt over its replies: an empty answer (or the end of
    the input) gives 48, a valid suffix gives that suffix, and anything else
    asks again.
  */
  function FirstTime(replies: seq<Reply>): Answer
    decreases |replies|
  {
    if |replies| == 0 then Answer(DefaultStartSuffix, 0)
    else match replies[0]
      case Empty => Answer(DefaultStartSuffix, 1)
      case Typed(n) => Answer(n, 1)
      case Unusable =>
        var later := FirstTime(replies[1..]);
        Answer(later.suffix, later.used + 1)
  }

  /** The first-time prompt loop. */
  method FirstTimePrompt(inputs: seq<string>) returns (suffix: int, used: nat)
    ensures Answer(suffix, used) == FirstTime(Replies(inputs))
  {
    ghost var replies := Replies(inputs);
    var i := 0;
    while i < |inputs|
      invariant 0 <= i <= |inputs|
      invariant FirstTime(replies) == (var later := FirstTime(replies[i..]); Answer(later.suffix, later.used + i))
      decreases |inputs| - i
    {
      var reply := Classify(inputs[i]);
      assert replies[i..][0] == reply && replies[i..][1..] == replies[i + 1..];
      match reply
        case Empty => return DefaultStartSuffix, i + 1;
        case Typed(n) => return n, i + 1;
        case Unusable =>
      i := i + 1;
    }
    return DefaultStartSuffix, i;
  }

  /** The first-time prompt always settles on a valid suffix: 48 or one the user typed. */
  lemma {:induction false} FirstTimeIsValid(replies: seq<Reply>)
    requires ValidReplies(replies)
    ensures IsValidSuffix(FirstTime(replies).suffix)
    ensures FirstTime(replies).used <= |replies|
    ensures FirstTime(replies).suffix == DefaultStartSuffix ||
      exists i :: 0 <= i < |replies| && replies[i] == Typed(FirstTime(replies).suffix)
    decreases |replies|
  {
    ValidateSuffixIffPortsInRange(DefaultStartSuffix);
    if |replies| > 0 && replies[0].Unusable? {
      assert ValidReplies(replies[1..]) by {
        forall i | 0 <= i < |replies[1..]| && replies[1..][i].Typed?
          ensures IsValidSuffix(replies[1..][i].suffix)
        {
          assert replies[1..][i] == replies[i + 1];
        }
      }
      FirstTimeIsValid(replies[1..]);
      if FirstTime(replies).suffix != DefaultStartSuffix {
        var i :| 0 <= i < |replies[1..]| && replies[1..][i] == Typed(FirstTime(replies).suffix);
        assert replies[i + 1] == replies[1..][i];
      }
    }
  }

  /**
    Where a confirmation loop ends once the input has run out: the current
    suffix when it is free; otherwise, after the reset, the suggestion when
    that is free; otherwise nowhere (None), as it asks forever.
  */
  function AtEnd(suffix: int, suggested: int, taken: set<int>): Option<int> {
    if suffix !in taken then Some(suffix)
    else if suggested !in taken then Some(suggested)
    else None
  }

  /**
    The confirmation loop over its replies: a valid suffix replaces the
    current one and an unusable answer is ignored. The current suffix is then
    checked against `taken`: when free the loop ends with it; when taken
    after an empty answer it is reset to the suggestion.
  */
  function Confirm(replies: seq<Reply>, suffix: int, suggested: int, taken: set<int>): Option<int>
    decreases |replies|
  {
    if |replies| == 0 then AtEnd(suffix, suggested, taken)
    else
      var rest := replies[1..];
      match replies[0]
        case Unusable => Confirm(rest, suffix, suggested, taken)
        case Typed(n) => if n in taken then Confirm(rest, n, suggested, taken) else Some(n)
        case Empty => if suffix in taken then Confirm(rest, suggested, suggested, taken) else Some(suffix)
  }

  /** The confirmation loop ends only with a suffix no other project holds. */
  lemma {:induction false} ConfirmEndsFree(replies: seq<Reply>, suffix: int, suggested: int, taken: set<int>)
    ensures Confirm(replies, suffix, suggested, taken).Some? ==> Confirm(replies, suffix, suggested, taken).value !in taken
    decreases |replies|
  {
    if |replies| > 0 {
      match replies[0]
        case Unusable => ConfirmEndsFree(replies[1..], suffix, suggested, taken);
        case Typed(n) => ConfirmEndsFree(replies[1..], n, suggested, taken);
        case Empty => ConfirmEndsFree(replies[1..], suggested, suggested, taken);
    }
  }

  /**
    The suffix the loop ends with is the one it started from, the suggestion,
    or a valid suffix the user typed.
  */
  lemma {:induction false} ConfirmEndsWithKnownSuffix(replies: seq<Reply>, suffix: int, suggested: int, taken: set<int>)
    ensures Confirm(replies, suffix, suggested, taken).Some? ==>
      var s := Confirm(replies, suffix, suggested, taken).value;
      s == suffix || s == suggested || exists i :: 0 <= i < |replies| && replies[i] == Typed(s)
    decreases |replies|
  {
    if |replies| > 0 && Confirm(replies, suffix, suggested, taken).Some? {
      var s := Confirm(replies, suffix, suggested, taken).value;
      var rest := replies[1..];
      var start := match replies[0] case Unusable => suffix case Typed(n) => n case Empty => suggested;
      ConfirmEndsWithKnownSuffix(rest, start, suggested, taken);
      if s != suffix && s != suggested && s != start {
        var i :| 0 <= i < |rest| && rest[i] == Typed(s);
        assert replies[i + 1] == rest[i];
      }
    }
  }

  /** The loop can only go on forever when the suggestion itself is taken. */
  lemma {:induction false} ConfirmStuckOnlyIfSuggestionTaken(replies: seq<Reply>, suffix: int, suggested: int, taken: set<int>)
    ensures Confirm(replies, suffix, suggested, taken).None? ==> suggested in taken
    decreases |replies|
  {
    if |replies| > 0 {
      match replies[0]
        case Unusable => ConfirmStuckOnlyIfSuggestionTaken(replies[1..], suffix, suggested, taken);
        case Typed(n) => ConfirmStuckOnlyIfSuggestionTaken(replies[1..], n, suggested, taken);
        case Empty => ConfirmStuckOnlyIfSuggestionTaken(replies[1..], suggested, suggested, taken);
    }
  }

  /** A free suggestion is taken as it is by an empty answer or the end of the input. */
  lemma ConfirmAcceptsFreeSuggestion(rest: seq<Reply>, suggested: int, taken: set<int>)
    requires suggested !in taken
    ensures Confirm([], suggested, suggested, taken) == Some(suggested)
    ensures Confirm([Empty] + rest, suggested, suggested, taken) == Some(suggested)
  {
  }

  /**
    The suggestion is never passed through ValidateSuffix: a high-water mark
    of 47435 makes the fresh suggestion 47436, which the loop accepts at once
    although its ports would reach 65536.
  */
  lemma SuggestionNotValidated(dir: string)
    ensures Suggest(PortState(MaxPortSuffix, map[]), true, dir, None) == Suggestion(MaxPortSuffix + 1, false, true)
    ensures Choose(PortState(MaxPortSuffix, map[]), true, dir, None, [], {}) == Some(MaxPortSuffix + 1)
    ensures Confirm([Empty], MaxPortSuffix + 1, MaxPortSuffix + 1, {}) == Some(MaxPortSuffix + 1)
    ensures !IsValidSuffix(MaxPortSuffix + 1)
  {
    ValidateSuffixIffPortsInRange(MaxPortSuffix + 1);
  }

  /**
    Where the corrected loop ends once the input has run out: as AtEnd, but
    an invalid current suffix or suggestion is never accepted, so the loop
    asks forever instead.
  */
  function AtEndChecked(suffix: int, suggested: int, taken: set<int>): Option<int> {
    if !IsValidSuffix(suffix) then None
    else if suffix !in taken then Some(suffix)
    else if IsValidSuffix(suggested) && suggested !in taken then Some(suggested)
    else None
  }

  /**
    The confirmation loop as evidently intended: an empty answer confirms the
    current suffix only when it passes ValidateSuffix, as a typed suffix must;
    otherwise the loop reports the error and asks again.
  */
  function ConfirmChecked(replies: seq<Reply>, suffix: int, suggested: int, taken: set<int>): Option<int>
    decreases |replies|
  {
    if |replies| == 0 then AtEndChecked(suffix, suggested, taken)
    else
      var rest := replies[1..];
      match replies[0]
        case Unusable => ConfirmChecked(rest, suffix, suggested, taken)
        case Typed(n) => if n in taken then ConfirmChecked(rest, n, suggested, taken) else Some(n)
        case Empty =>
          if !IsValidSuffix(suffix) then ConfirmChecked(rest, suffix, suggested, taken)
          else if suffix in taken then ConfirmChecked(rest, suggested, suggested, taken)
          else Some(suffix)
  }

  /** The corrected loop ends only with a valid suffix that no other project holds. */
  lemma {:induction false} ConfirmCheckedEndsValid(replies: seq<Reply>, suffix: int, suggested: int, taken: set<int>)
    requires ValidReplies(replies)
    ensures ConfirmChecked(replies, suffix, suggested, taken).Some? ==>
      var s := ConfirmChecked(replies, suffix, suggested, taken).value;
      IsValidSuffix(s) && s !in taken
    decreases |replies|
  {
    if |replies| > 0 {
      var rest := replies[1..];
      assert ValidReplies(rest) by {
        forall i | 0 <= i < |rest| && rest[i].Typed?
          ensures IsValidSuffix(rest[i].suffix)
        {
          assert rest[i] == replies[i + 1];
        }
      }
      match replies[0]
        case Unusable => ConfirmCheckedEndsValid(rest, suffix, suggested, taken);
        case Typed(n) => ConfirmCheckedEndsValid(rest, n, suggested, taken);
        case Empty =>
          if !IsValidSuffix(suffix) {
            ConfirmCheckedEndsValid(rest, suffix, suggested, taken);
          } else {
            ConfirmCheckedEndsValid(rest, suggested, suggested, taken);
          }
    }
  }

  /**
    The correction changes nothing when the suggestion is valid: from a valid
    suffix, with valid replies, both loops end alike.
  */
  lemma {:induction false} ConfirmCheckedAgrees(replies: seq<Reply>, suffix: int, suggested: int, taken: set<int>)
    requires ValidReplies(replies) && IsValidSuffix(suffix) && IsValidSuffix(suggested)
    ensures ConfirmChecked(replies, suffix, suggested, taken) == Confirm(replies, suffix, suggested, taken)
    decreases |replies|
  {
    if |replies| > 0 {
      var rest := replies[1..];
      assert ValidReplies(rest) by {
        forall i | 0 <= i < |rest| && rest[i].Typed?
          ensures IsValidSuffix(rest[i].suffix)
        {
          assert rest[i] == replies[i + 1];
        }
      }
      match replies[0]
        case Unusable => ConfirmCheckedAgrees(rest, suffix, suggested, taken);
        case Typed(n) => ConfirmCheckedAgrees(rest, n, suggested, taken);
        case Empty => ConfirmCheckedAgrees(rest, suggested, suggested, taken);
    }
  }

  /**
    The confirmation loop, checking each candidate with isSuffixInUseByOther.
    It returns None when, with the input used up, the suggestion is taken, so
    that it would ask forever.
  */
  method ConfirmSuffix(store: PortStore, dir: string, inputs: seq<string>, suggested: int) returns (r: Option<int>)
    ensures r == Confirm(Replies(inputs), suggested, suggested, store.Taken(dir))
  {
    r := ConfirmLines(store, dir, inputs, suggested, Replies(inputs));
  }

  /** The loop itself, proved against `replies`, the lines it reads classified one by one. */
  method ConfirmLines(store: PortStore, dir: string, inputs: seq<string>, suggested: int, ghost replies: seq<Reply>)
    returns (r: Option<int>)
    requires |replies| == |inputs| && forall k :: 0 <= k < |inputs| ==> replies[k] == Classify(inputs[k])
    ensures r == Confirm(replies, suggested, suggested, store.Taken(dir))
  {
    ghost var taken := store.Taken(dir);
    ghost var goal := Confirm(replies, suggested, suggested, taken);
    var suffix := suggested;
    var i := 0;
    while true
      invariant 0 <= i <= |inputs| + 1
      invariant i <= |inputs| ==> Confirm(replies[i..], suffix, suggested, taken) == goal
      invariant i > |inputs| ==> suffix == suggested && AtEnd(suffix, suggested, taken) == goal
      decreases |inputs| + 1 - i
    {
      var reply := if i < |inputs| then Classify(inputs[i]) else Empty;
      if i < |inputs| {
        ConfirmAt(replies, i, suffix, suggested, taken);
      } else if i == |inputs| {
        assert replies[i..] == [];
      }
      if reply.Unusable? {
        i := i + 1;
        continue;
      }
      if reply.Typed? {
        suffix := reply.suffix;
      }
      var owner, inUse := store.IsSuffixInUseByOther(dir, suffix);
      assert inUse == (suffix in taken);
      if !inUse {
        return Some(suffix);
      }
      if reply.Empty? {
        if i >= |inputs| && suffix == suggested {
          return None;
        }
        suffix := suggested;
      }
      i := i + 1;
    }
  }

  /** One step of Confirm, read at position i of the replies. */
  lemma ConfirmAt(replies: seq<Reply>, i: nat, suffix: int, suggested: int, taken: set<int>)
    requires i < |replies|
    ensures replies[i].Unusable? ==>
      Confirm(replies[i..], suffix, suggested, taken) == Confirm(replies[i + 1..], suffix, suggested, taken)
    ensures replies[i].Typed? ==>
      Confirm(replies[i..], suffix, suggested, taken) ==
        if replies[i].suffix in taken then Confirm(replies[i + 1..], replies[i].suffix, suggested, taken)
        else Some(replies[i].suffix)
    ensures replies[i].Empty? ==>
      Confirm(replies[i..], suffix, suggested, taken) ==
        if suffix in taken then Confirm(replies[i + 1..], suggested, suggested, taken) else Some(suffix)
  {
    assert replies[i..][0] == replies[i] && replies[i..][1..] == replies[i + 1..];
  }

  function Min(a: int, b: int): int {
    if a < b then a else b
  }

  /**
    The suffix chosen before setup (main.go, from getSuggestedSuffix to the
    end of the confirmation loop): a first-time setup (no state file and
    nothing found) asks for a starting suffix first, and the confirmation
    loop reads the lines that prompt left.
  */
  function Choose(st: PortState, existed: bool, dir: string, env: Option<string>, inputs: seq<string>, taken: set<int>): Option<int> {
    var sg := Suggest(st, existed, dir, env);
    var replies := Replies(inputs);
    if !sg.existed && !sg.existing then
      var first := FirstTime(replies);
      Confirm(replies[Min(first.used, |replies|)..], first.suffix, first.suffix, taken)
    else Confirm(replies, sg.suffix, sg.suffix, taken)
  }

  /** The whole choice: the suggestion, the first-time prompt when it applies, then confirmation. */
  method ChooseSuffix(store: PortStore, dir: string, env: Option<string>, inputs: seq<string>) returns (r: Result<Option<int>, StoreError>)
    ensures store.Load().Failure? ==> r == Failure(ReadError)
    ensures store.Load().Success? ==>
      r == Success(Choose(store.Load().value, store.present, dir, env, inputs, store.Taken(dir)))
  {
    var sg := store.GetSuggestedSuffix(dir, env);
    if sg.Failure? {
      return Failure(sg.error);
    }
    ghost var taken := store.Taken(dir);
    ghost var replies := Replies(inputs);
    assert sg.value == Suggest(store.Load().value, store.present, dir, env);
    var suggested := sg.value.suffix;
    var rest := inputs;
    if !sg.value.existed && !sg.value.existing {
      var used;
      suggested, used := FirstTimePrompt(inputs);
      FirstTimeIsValid(replies);
      rest := inputs[used..];
      RepliesFrom(inputs, used);
      assert Choose(store.Load().value, store.present, dir, env, inputs, taken) == Confirm(Replies(rest), suggested, suggested, taken);
    } else {
      assert Choose(store.Load().value, store.present, dir, env, inputs, taken) == Confirm(Replies(rest), suggested, suggested, taken);
    }
    var chosen := ConfirmSuffix(store, dir, rest, suggested);
    return Success(chosen);
  }

  /** The replies to the lines left after the first `k`. */
  lemma RepliesFrom(inputs: seq<string>, k: nat)
    requires k <= |inputs|
    ensures Replies(inputs[k..]) == Replies(inputs)[k..]
  {
  }

  /**
    After the first-time prompt, the confirmation loop ends with a free,
    valid suffix: the answer to the prompt or a suffix typed later.
  */
  lemma FirstTimeThenConfirm(replies: seq<Reply>, taken: set<int>)
    requires ValidReplies(replies)
    ensures var first := FirstTime(replies);
      var c := Confirm(replies[Min(first.used, |replies|)..], first.suffix, first.suffix, taken);
      c.Some? ==> c.value !in taken && IsValidSuffix(c.value)
  {
    var first := FirstTime(replies);
    var k := Min(first.used, |replies|);
    var rest := replies[k..];
    ConfirmEndsFree(rest, first.suffix, first.suffix, taken);
    ConfirmEndsWithKnownSuffix(rest, first.suffix, first.suffix, taken);
    FirstTimeIsValid(replies);
    var c := Confirm(rest, first.suffix, first.suffix, taken);
    if c.Some? && c.value != first.suffix {
      var i :| 0 <= i < |rest| && rest[i] == Typed(c.value);
      assert rest[i] == replies[k + i];
    }
  }

  /**
    A suffix chosen this way is free; on a first-time setup it is also
    valid, since every candidate there (48, a typed suffix) is validated.
  */
  lemma ChosenIsFree(st: PortState, existed: bool, dir: string, env: Option<string>, inputs: seq<string>, taken: set<int>)
    ensures Choose(st, existed, dir, env, inputs, taken).Some? ==> Choose(st, existed, dir, env, inputs, taken).value !in taken
    ensures var sg := Suggest(st, existed, dir, env);
      !sg.existed && !sg.existing && Choose(st, existed, dir, env, inputs, taken).Some? ==>
        IsValidSuffix(Choose(st, existed, dir, env, inputs, taken).value)
  {
    var sg := Suggest(st, existed, dir, env);
    var replies := Replies(inputs);
    if !sg.existed && !sg.existing {
      FirstTimeThenConfirm(replies, taken);
    } else {
      ConfirmEndsFree(replies, sg.suffix, sg.suffix, taken);
    }
  }
}
