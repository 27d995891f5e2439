# Sailinit port-suffix core in Dafny

Sailinit sets up Laravel Sail projects so that several of them can run side by
side. Each project gets a *port suffix*. The suffix is added to seven base ports
(APP 8000, DB 3300, Redis 6300, Meilisearch 7700, Mailpit dashboard 18100,
Mailpit 1000, Vite 5100). A registry file in the user's home directory records
every project's suffix and a high-water mark.

This project models that core:

- `Ports` (ports.dfy): the suffix range check (`ValidateSuffix`, highest suffix
  47435) and the seven ports of a suffix. It also models the probe for busy
  ports; whether a port can be bound is a predicate parameter.
- `Registry` (registry.dfy): the registry. `PortStore` is a class whose fields
  are the state file's content (`maxSuffix`, `projects`) and its surroundings:
  whether the file is present, whether it is unreadable, whether it is writable.
  Every operation loads, changes a copy and saves, as the Go code does. The
  pure functions `Suggest`, `Saved`, `Removed` and `Pruned` say what each
  operation computes. The lemmas beside them prove the invariants: suffixes
  stay at or below the high-water mark, and no two projects share a suffix.
- `EnvFile` (envfile.dfy): `splitLines`, and the recovery of a suffix from a
  `.env` file's first usable `APP_PORT=` line.
- `Text` (text.dfy): the parts of Go's `strings` and `fmt` the core relies on:
  `TrimSpace` with Unicode white space, `HasPrefix`, `Join`, the `%d` printer,
  and `Sscanf("%d")` with its int64 range.
- `Setup` (setup.dfy): `setupEnv`'s rewrite of `.env`:
  - old port and Xdebug lines are dropped;
  - database settings are forced to Sail's defaults when the file is new or
    `--reset-db` is given;
  - missing database settings are appended in the Go map's iteration order,
    which is a parameter;
  - trailing blank lines are removed;
  - a fixed block of port settings and the Xdebug mode is appended.
- `Prompts` (prompts.dfy): the interactive choice of a suffix. The console is a
  sequence of lines, and every read after the end gives the empty line. The
  first-time prompt offers 48. The confirmation loop checks each candidate
  against the other projects' suffixes.

## Model

| member | source | states |
|---|---|---|
| Ports.ValidateSuffix | portmanager.go:16-24 | A suffix is accepted exactly when its lowest port (FORWARD_MAILPIT_PORT) is at least 1000 and its highest (FORWARD_MAILPIT_DASHBOARD_PORT) at most 65535. A refusal names the suffix and is Negative exactly for a negative suffix. A too-large refusal reports a highest port above 65535. |
| Ports.ValidateSuffixIffPortsInRange | portmanager.go:12-24 | A suffix is accepted exactly when 0 <= suffix <= 47435, and exactly when each of its seven ports lies in [1000, 65535]. |
| Ports.ValidateSuffixExamples | portmanager.go:16-24 | 0, 48 and 47435 are accepted. 47436 is rejected as too large, reporting highest port 65536. -1 is rejected as negative. 100000 is rejected. |
| Ports.PortsDistinct | portmanager.go:44-55 | The seven ports of one suffix are pairwise different. |
| Ports.DistinctSuffixesCanSharePorts | portmanager.go:44-55 | Two valid suffixes can share a port: APP_PORT of suffix 0 is FORWARD_REDIS_PORT of suffix 1700. |
| Ports.Busy | portmanager.go:57-63 | The busy list has at most one entry per role, and no port in it can be bound. |
| Ports.BusyMembership | portmanager.go:57-63 | An entry is reported exactly when some role maps the suffix to that port, under that role's name, and the port cannot be bound. |
| Ports.CheckSuffixPortsAvailable | portmanager.go:43-64 | The probing loop returns exactly the busy ports of the seven roles, in table order. |
| Text.TrimSpaceEmpty | main.go:491 | A line trims to "" exactly when every character is white space. |
| Text.KeyPrefixesExclusive | main.go:467-474 | A line can start with "A=" and "B=" for two '='-free keys only when A == B. |
| Text.ScanIntOfIntToString | portmanager.go:231 | Sscanf "%d" reads back every int64 that "%d" prints. |
| EnvFile.SplitLines | portmanager.go:241-262 | The loop yields the pieces between '\n' in order, each without one trailing '\r', and no empty piece after a final '\n'. |
| EnvFile.LinesOfThree | portmanager.go:241-262 | Three newline-free pieces joined by '\n', the last one non-empty, read back as three lines, each without one trailing '\r'. |
| EnvFile.SplitLinesScenario | portmanager.go:241-262 | "line1\nline2\r\nline3" splits into "line1", "line2" and "line3". |
| EnvFile.LinesHaveNoNewline | portmanager.go:241-262 | No line contains '\n'. |
| EnvFile.LinesRoundTrip | portmanager.go:241-262 | For text without '\r', joining the lines with '\n' (plus the final '\n' when the text had one) gives the text back. |
| EnvFile.LinesOfJoinNewline | portmanager.go:241-262 | Splitting lines joined with '\n' plus a final '\n' gives the lines back, less a trailing '\r' on each. |
| EnvFile.FirstRecoveredFirstMatch | portmanager.go:227-238 | Nothing is found exactly when no line holds an APP_PORT of at least 8000. Otherwise the suffix k >= 0 comes from the first such line, which holds 8000 + k. |
| EnvFile.AppPortValueOfLine | portmanager.go:228-233 | A line "APP_PORT=" + "%d" of n reads back as n for every int64 n. |
| EnvFile.EnvSuffixBehind | portmanager.go:227-235 | Lines before the first usable APP_PORT line do not affect the result. |
| EnvFile.ExtractSuffixFromEnv | portmanager.go:219-239 | found holds exactly when some line gives a suffix. The suffix is then that line's value minus 8000, and it is non-negative. Otherwise the suffix is 0. |
| Registry.PortStore.Load | portmanager.go:111-135 | A read or decode failure is a read error, and only then is there an error. A missing file reads as no projects with mark 0. Otherwise the result is the file's content. |
| Registry.PortStore.Save | portmanager.go:137-149 | An unwritable file is an error. The next load, the file's presence and the save count then stay as they were. Otherwise the file is present afterwards, the next load returns exactly the state saved, and one save is counted. |
| Registry.PortStore.GetSuggestedSuffix | portmanager.go:151-178 | A load failure is passed on. Otherwise the result is the registry entry for dir, else the suffix its .env gives, else high-water mark + 1. It carries found / state-file-existed flags. |
| Registry.PortStore.SaveProjectSuffix | portmanager.go:180-197 | On a successful load and write, the file is present and the stored state is the old one with dir set to s and the mark raised to s when s is larger. A load or write failure leaves the stored state and the file's presence unchanged, with nothing saved. |
| Registry.PortStore.IsSuffixInUseByOther | portmanager.go:199-217 | inUse holds exactly when another project holds s; owner is then such a project, else "". A load failure reports no conflict. |
| Registry.PortStore.RemoveProject | portmanager.go:66-84 | A load failure or an unregistered path is an error, and nothing is saved. Otherwise only dir's entry is dropped and the file is saved, and is present afterwards. A write failure leaves the stored state and the file's presence unchanged. |
| Registry.PortStore.ListProjects | portmanager.go:264-284 | One row per registered project, with no path twice. Each row has the project's suffix and whether its directory exists. |
| Registry.PortStore.CleanOrphanedProjects | portmanager.go:286-311 | Returns the number of registered paths that no longer exist. It saves the pruned state only when that number is non-zero, and the file is then present. Write and load failures are errors. Every path that does not save leaves the stored state and the file's presence unchanged. |
| Registry.CollectOrphans | portmanager.go:292-297 | The collected paths are exactly the orphans, each once. |
| Registry.DeleteAll | portmanager.go:299-302 | The map keeps exactly the entries not listed, with their suffixes. |
| Registry.SuggestAfterSave | portmanager.go:151-197 | After s is saved for dir, dir's suggestion is s, found, with the state file existing. |
| Registry.SuggestOnEmptyStore | portmanager.go:117-125 | With no state file and no .env, the suggestion is 1, not found, with no state file. |
| Registry.SuggestFallback | portmanager.go:162-177 | Nothing is found exactly when dir is unregistered and no .env gives a suffix. The suggestion is then high-water mark + 1. |
| Registry.SavedEffect | portmanager.go:191-194 | Saving sets dir's entry and leaves the others alone. The mark becomes the larger of the old mark and s. |
| Registry.HighWaterKept | portmanager.go:180-197 | Saving, removing and pruning keep every suffix at or below the high-water mark. |
| Registry.TakenByOthersIff | portmanager.go:210-214 | A suffix is taken by others exactly when some other project holds it. |
| Registry.OwnEntryNoConflict | portmanager.go:211 | When suffixes are distinct, a project's own suffix is never a conflict for it. |
| Registry.FreshSuggestionIsFree | portmanager.go:176-177 | Under the high-water invariant, high-water mark + 1 is held by nobody. |
| Registry.SaveKeepsDistinct | portmanager.go:180-197 | Saving a suffix no other project holds keeps all suffixes distinct. |
| Registry.RemovedEffect | portmanager.go:78-83 | Removal forgets exactly dir and keeps the mark and all other entries. |
| Registry.PrunedEffect | portmanager.go:292-310 | Pruning keeps exactly the existing paths with their suffixes and the mark, leaves no orphan, and removes \|orphans\| entries. |
| Registry.SecondProjectScenario | portmanager.go:151-197 | After a first project saved 48, a second project is offered 49. |
| Registry.ConflictScenario | portmanager.go:199-217 | With /a at 51 and /b at 52, 52 is in use for /a and /a's own 51 is not. |
| Prompts.Classify | main.go:213-224 | A typed reply carries only a suffix that passes ValidateSuffix. |
| Prompts.ClassifyOfSuffix | main.go:213-224 | Typing a valid suffix in decimal is read as that suffix. |
| Prompts.FirstTimePrompt | main.go:178-201 | The loop returns the suffix and the number of lines read that FirstTime gives for the classified input. |
| Prompts.FirstTimeIsValid | main.go:180-200 | The first-time prompt settles on 48 or on a valid suffix the user typed. It reads no more lines than there are. |
| Prompts.ConfirmSuffix | main.go:208-237 | The result is Confirm of the classified input against the suffixes other projects hold. None stands for asking forever. |
| Prompts.ConfirmLines | main.go:208-237 | The loop reads and classifies one line per step and checks each candidate with isSuffixInUseByOther. It returns Confirm of the lines' replies against the suffixes other projects hold. |
| Prompts.ConfirmEndsFree | main.go:227-236 | The confirmation loop only ends with a suffix no other project holds. |
| Prompts.ConfirmEndsWithKnownSuffix | main.go:208-237 | The suffix accepted is the starting one, the suggestion, or one the user typed. |
| Prompts.ConfirmStuckOnlyIfSuggestionTaken | main.go:228-235 | The loop can ask forever only when the suggestion itself is taken. |
| Prompts.ConfirmAcceptsFreeSuggestion | main.go:208-237 | A free suggestion is accepted by an empty answer or by the end of the input. |
| Prompts.SuggestionNotValidated | main.go:203-237 | With a high-water mark of 47435 the suggestion is 47436. The whole choice accepts it with no input, although ValidateSuffix rejects it. |
| Prompts.ConfirmCheckedEndsValid | main.go:208-237 | The corrected loop only ends with a suffix that is valid and free. |
| Prompts.ConfirmCheckedAgrees | main.go:208-237 | From a valid suffix and a valid suggestion, the corrected loop ends as the loop as written does. |
| Prompts.ChooseSuffix | main.go:171-237 | A load failure is an error. Otherwise the result is Choose: the suggestion, the first-time prompt when neither a state file nor a found suffix exists, then confirmation. |
| Prompts.FirstTimeThenConfirm | main.go:178-237 | After the first-time prompt, confirmation only ends with a valid, free suffix. |
| Prompts.ChosenIsFree | main.go:171-237 | A chosen suffix is always free. On a first-time setup it is also valid. |
| Setup.SailWellFormed | main.go:413-430 | The port keys, the Xdebug key and the database keys are plain names with no key twice. No database key is a port or Xdebug key. |
| Setup.MatchIn | main.go:467-474 | A match is a database setting whose "KEY=" starts the line. No match means no database key starts it. |
| Setup.MatchUnique | main.go:467-474 | At most one database key can start a line, so the map's order does not change which setting matches. |
| Setup.IsSkipKey | main.go:450-459 | skip holds exactly when the trimmed line starts with a port key or SAIL_XDEBUG_MODE followed by '='. |
| Setup.MatchUpdate | main.go:467-474 | The search over the settings map, in any order, finds the setting whose key starts the line, if any. |
| Setup.RewriteLine | main.go:446-478 | One line is dropped, replaced by its database default, or kept. The key it counts as seen is the database key it set, if any. |
| Setup.RewriteEach | main.go:446-479 | The first loop writes the per-line results in order and collects the database keys seen. |
| Setup.AppendMissing | main.go:481-488 | Exactly the unseen database settings are appended, in the map's order. |
| Setup.DropTrailingBlankLines | main.go:490-493 | The loop removes exactly the trailing lines that trim to "". |
| Setup.DropTrailingBlankSpec | main.go:490-493 | What remains is a prefix that is empty or ends with a non-blank line. Only blank lines are removed. |
| Setup.AppendPortBlock | main.go:495-510 | The appended lines are: one empty line, the seven port settings in table order, one empty line, and the Xdebug setting. |
| Setup.RewriteLines | main.go:442-510 | The new lines are the body (first pass, missing settings, trailing blanks removed) followed by the port block. |
| Setup.SetupEnv | main.go:379-512 | The written .env comes from the existing .env, else a copy of .env.example, else "". Its lines are rewritten, joined with '\n', and given a final '\n'. The database settings apply when the .env was new or a reset was asked for. |
| Setup.FirstPassDropsSkipLine | main.go:449-462 | A port or Xdebug line is dropped wherever it stands. |
| Setup.FirstPassVerbatim | main.go:476-478 | Without database settings, lines that set no port key and no Xdebug mode are kept verbatim and in order. |
| Setup.RewrittenKeepsLines | main.go:446-510 | Without database settings, such input comes out as itself, without its trailing blank lines, followed by the port block. |
| Setup.RewriteUpdateLine | main.go:464-474 | A line setting a database key is rewritten to exactly that key's default, and the key counts as seen. |
| Setup.RewrittenLayout | main.go:490-510 | The output ends with the fixed block, the k-th port line at its fixed place. Exactly one blank line precedes the ports. |
| Setup.PortLineMentions | main.go:499-505 | A port line sets exactly its own key. |
| Setup.ExactlyOnePortLine | main.go:446-505 | Whatever the input held, exactly one output line sets each port key: its line in the block. |
| Setup.ExactlyOneDebugLine | main.go:457-510 | Exactly one output line sets SAIL_XDEBUG_MODE: the last one. |
| Setup.MissingOnce | main.go:481-488 | In every map order, each unseen database setting is appended exactly once and each seen one not at all. |
| Setup.DbSettingsApplied | main.go:464-488 | With the settings applied, each database default is in the body, and every body line setting that key is that default. |
| Setup.SetupEnvContentEnds | main.go:507-512 | The written file always ends with an empty line, the Xdebug line and a newline. |
| Setup.DebugLineText | main.go:510 | The Xdebug line is exactly "SAIL_XDEBUG_MODE=develop,debug,coverage". |

## Findings

| source | as written | input that shows it | evidently intended | confidence | as-written member | corrected member |
|---|---|---|---|---|---|---|
| main.go:203-237 | The suggestion from getSuggestedSuffix (registry entry, .env value, or high-water mark + 1) is never passed through ValidateSuffix. An empty answer accepts it as it is. | A state file with max_suffix 47435 and an empty answer: suffix 47436 is chosen and its Mailpit dashboard port would be 65536. An .env with APP_PORT=60000 gives 52000 the same way. | An empty answer confirms only a suffix that passes ValidateSuffix, like a typed one. | medium; not executed | Prompts.SuggestionNotValidated | Prompts.ConfirmCheckedEndsValid |

The as-written loop is `Prompts.Confirm`; it is what `Prompts.ConfirmSuffix` and `Prompts.ChooseSuffix` model. The corrected loop is `Prompts.ConfirmChecked`. `Prompts.ConfirmCheckedAgrees` proves that the two differ only when the current suffix or the suggestion is invalid.

## Left out

- File I/O and JSON encoding are left out. The state file's location (the home directory and the test override), reading, decoding and writing become the fields of `PortStore`: `present`, `unreadable`, `writable` and its content. A failure to find the home directory counts as a read error. The model's state always holds a map. A file with `"projects": null` decodes in Go to a nil map, and saveProjectSuffix then panics on the assignment (portmanager.go:130, 191). That case is not modelled.
- Registry.PortStore.Save: a write failure is modelled as failing before the file is touched. os.WriteFile truncates the file first, so a failure after opening can leave an empty or partial file, and later loads would fail to decode it. The model keeps the old content instead.
- `filepath.Abs` is left out: a project directory is taken to be absolute already, and its error path is not modelled.
- `os.Stat` existence checks become the set parameter `missing` (ListProjects, CleanOrphanedProjects). The .env for getSuggestedSuffix becomes an `Option<string>`: None when it is absent or cannot be read.
- CheckPortAvailable opens a TCP listener. It becomes the predicate parameter `available`.
- Go map iteration order is a free choice. The registry loops choose each key with `:|`; setupEnv's settings map is iterated in an `order` parameter, which is any order of the six settings.
- setupEnv's I/O errors are not modelled: creating the .env, reading .env.example or .env, and writing the result. Its result is the text it writes.
- Strings are sequences of characters. splitLines indexes bytes, but it only compares against '\n' and '\r', which are single bytes in UTF-8, so the lines are the same.
- Console output and colours are left out: printInfo/printError, the "Removing orphaned project" lines and the dry-run messages.
- Other parts of the setup command are not part of this model: PHP version detection, the busy-port "Continue anyway?" question, the dry-run branch, Docker and Sail commands, and the command-line flag dispatch for --list, --remove and --clean.
- Prompts.ConfirmSuffix: the Go loop re-prompts forever once the input is used up and every candidate is taken. The model reports that outcome as None instead of not terminating.
- Prompts.ChosenIsFree: validity of the chosen suffix is stated only for a first-time setup. On the other paths the suggestion is not validated; see Findings.
- Setup.SetupEnv: integers are unbounded. Go's int is 64 bits, and the port lines compute 8000 + suffix and the like (main.go:432-440). These wrap for a suffix above 2^63 - 1 - 18100, and such a suffix can arrive unvalidated from an .env APP_PORT (APP_PORT=9223372036854775807 gives suffix 9223372036854767807; see Findings).
- Ports.ValidateSuffix: the too-large report 18100 + suffix (portmanager.go:21) is computed without 64-bit wrap-around, so for a suffix near 2^63 the model reports a port above 65535 where Go would print a wrapped, negative one.
- Registry.PortStore.GetSuggestedSuffix: high-water mark + 1 (portmanager.go:177) is computed without 64-bit wrap-around. A state file with max_suffix 9223372036854775807 gives MinInt64 in Go and 2^63 in the model.
