# RegexStringGenerator, modelled in Dafny

RegexStringGenerator produces random strings that match a regular
expression. It compiles the pattern into a finite-state automaton
(dk.brics), then takes a random walk: it picks a random transition, appends
a random character from that transition's range, and moves to the target
state. It stops as soon as the text is long enough, ends in an accepting
state and passes a match check. Before a walk for a requested length window
`[minLength, maxLength]`, the generator asks its `AutomatonHandler` for the
automaton's feasible length range. That range is computed by widening a
`Length` interval per state along a breadth-first traversal. The window is
then validated against the global bounds and the feasible range. Under one
guard (expected maximum 1) the generator instead rewrites the pattern as
`(regex){minLength,maxLength}`.

This project models that core:

* `Automata` (Automata.dfy): the automaton as an arena of states with
  `[lo, hi] -> dest` transitions. It defines paths and accepted words. A
  finite automaton is taken to be acyclic (the library's finiteness test
  is not modelled), and from that the model proves that every path has at
  most as many states as the arena holds.
* `Lengths` (Length.dfy): the mutable `Length` class, with its `update`,
  `setMin` and `setMax`. `update` is proved against the value function
  `Widen`. `setMin` and `setMax` are proved to leave exactly the new bound
  beside the old other bound, or to fail with the object unchanged.
* `Analysis` (Analysis.dfy): `exploreLengths` as a worklist method over a
  map from states to ranges. It is proved to stop, and to leave, for every
  reachable state, the exact shortest and longest path lengths reaching it.
* `Handler` (Handler.dfy): `AutomatonHandler` with the bound validation, the
  fold of `getExpectedLength`, and `getAutomatonProperties`.
  `getExpectedLength` is proved to return exactly the feasible range of
  accepted word lengths. It fails exactly when no word is accepted.
* `Properties` (AutomatonProperties.dfy): the immutable property snapshot.
* `RandomSource` (RandomSource.dfy): `java.util.Random.nextInt` as a class
  that consumes answers of an oracle.
* `Walk` (Walk.dfy): `generate` as a loop proved equal to the recursive
  function `RunWalk`, with lemmas about every run. The text is a word the
  automaton spells along the visited states, and it is built from the
  oracle's answers, two per character. It never exceeds `maxLength`. The
  early return fires exactly at the first prefix that meets its test. Each
  way of stopping is characterised.
* `Patterns` (Patterns.dfy): the rewritten pattern and its tautological
  guard. A round-trip lemma shows the decimal bounds read back as the
  requested window.
* `Generator` (Generator.dfy): `RegexStringGenerator`, with `setRegExp`,
  `assertLengthCompatible` and the `generateString` / `generateText`
  overloads. The io and com packages have the same logic for all of these,
  so one class models both. A feasible maximum is always below the number
  of states in the arena, and so below `Integer.MAX_VALUE`. With the default
  global maximum `Integer.MAX_VALUE`, `generateString(regex)` therefore
  produces text only through the rewrite branch, when the feasible maximum
  is 1. `generateString(regex, minLength, maxLength)` with a window inside
  the feasible range can still succeed without the rewrite.

Where the code and its documentation disagree, the model follows the code:

* `ensureLengthConstraints` never checks `minLength <= maxLength`, so an
  inverted window within the bounds is accepted.
* The rewrite guard `max == 1 && min == min` compares the minimum with
  itself, so only the maximum decides.
* `assertLengthCompatible` skips bound validation entirely on the rewrite
  branch.
* The walk's match check tests the text against the automaton's textual
  rendering, not against the pattern. It is kept uninterpreted.
* `generate` without an automaton dereferences null; the model reports
  `NullAutomaton`.
* `setRegExp` of the generator stores the pattern before compiling it, so a
  rejected pattern is still stored.
* After the rewrite, the walk runs on the newly compiled automaton with the
  requested bounds.

## Model

The rows cite the io package. The com package's
`src/main/java/com/github/yayakm/core/RegexStringGenerator.java` is modelled
by the same members:

* `generate` (lines 103-125) is `Generator.RegexStringGenerator.Generate` and
  `Walk.RandomWalk`.
* `assertLengthCompatible` (133-141) is `AssertLengthCompatible`.
* `setRegExp` (85-88) is `SetRegExp`.
* The constructors (46-49, 56-58) are `constructor` and `WithNewHandler`.
* `generateText(minLength, maxLength)` (98-101) is `GenerateString`.
* `generateText()` (147-149) is `GenerateStringGlobal`.
* `generateText(regex)` (166-169) is `GenerateStringFor`.
* `generateText(regex, minLength, maxLength)` (179-182) is
  `GenerateStringForWithin`.

| member | source | states |
|---|---|---|
| Automata.PathBound | src/main/java/io/github/yayakm/config/AutomatonHandler.java:120-139 | In a finite (acyclic) automaton every path has at most as many states as the arena holds, which bounds every length the analysis records |
| Automata.NoEdgeBack | src/main/java/io/github/yayakm/config/AutomatonHandler.java:127-137 | In a finite automaton no transition leaving a path leads back to a state on it, so re-queuing a state always moves strictly forward |
| Automata.AcceptedLengths | src/main/java/io/github/yayakm/config/AutomatonHandler.java:103-118 | An accepting path of length n exists exactly when some accepted word has length n, in both directions |
| Automata.PathSpellsWord | src/main/java/io/github/yayakm/core/RegexStringGenerator.java:138-147 | Every path from the initial state spells a word, because transition ranges are never empty |
| Lengths.Widen | src/main/java/io/github/yayakm/util/Length.java:50-61 | The widened interval never narrows and covers the candidate. Each bound comes from the old interval or the candidate. `changed` holds exactly when newMin < min or newMax > max; without a change the interval is unchanged; min <= max is kept |
| Lengths.WidenIdempotent | src/main/java/io/github/yayakm/util/Length.java:50-61 | Updating twice with the same candidate reports no change the second time |
| Lengths.Length.constructor | src/main/java/io/github/yayakm/util/Length.java:35-41 | A constructed Length holds exactly the given min and max |
| Lengths.Length.Update | src/main/java/io/github/yayakm/util/Length.java:50-61 | `update` leaves exactly Widen's interval in the object, returns Widen's changed flag, and keeps min <= max |
| Lengths.Length.SetMin | src/main/java/io/github/yayakm/util/Length.java:72-77 | Fails (IllegalArgument) exactly when the new min exceeds max, leaving the object unchanged; otherwise only min becomes the new value |
| Lengths.Length.SetMax | src/main/java/io/github/yayakm/util/Length.java:88-93 | Fails (IllegalArgument) exactly when the new max is below min, leaving the object unchanged; otherwise only max becomes the new value |
| Lengths.NewLength | src/main/java/io/github/yayakm/util/Length.java:35-41 | `new Length(min, max)` throws IllegalArgument exactly when min < 0 or max < min; otherwise it yields a fresh object holding (min, max) |
| Lengths.CheckRange | src/main/java/io/github/yayakm/util/Length.java:35-41 | The constructor's validation as a value: an error exactly when min < 0 or max < min, otherwise the range (min, max) with 0 <= min <= max |
| Properties.WithLength | src/main/java/io/github/yayakm/config/AutomatonProperties.java:46-51 | The snapshot copies the state count and finiteness, and takes min and max from the given length |
| Properties.WithoutLength | src/main/java/io/github/yayakm/config/AutomatonProperties.java:62-64 | The two-argument form keeps count and finiteness and reports the expected sizes 0 and 0 |
| Analysis.ExploreLengths | src/main/java/io/github/yayakm/config/AutomatonHandler.java:120-139 | On a finite automaton the traversal terminates. Its map contains exactly the reachable states, with the initial state at (0, 0). Each state's min and max are the lengths of its shortest and longest paths from the initial state, all below the number of states in the arena, and the map is closed under every transition |
| Analysis.FeasibleBelowArenaSize | src/main/java/io/github/yayakm/config/AutomatonHandler.java:103-118 | In a finite automaton the feasible range satisfies 0 <= min <= max < the number of states in the arena <= Integer.MAX_VALUE, so no window reaching maxLength Integer.MAX_VALUE fits it (this bound is the arena size, not the library-reported state count) |
| Analysis.FeasibleRangeUnique | src/main/java/io/github/yayakm/config/AutomatonHandler.java:103-118 | The feasible length range of an automaton is unique, so the analysis has one correct answer |
| Analysis.FeasibleWords | src/main/java/io/github/yayakm/config/AutomatonHandler.java:103-118 | Both ends of the feasible range are lengths of accepted words, and every accepted word lies between them |
| Analysis.FoldFeasible | src/main/java/io/github/yayakm/config/AutomatonHandler.java:108-117 | The least analysed minimum and the greatest analysed maximum over the accepting states form the feasible range of accepted word lengths |
| Analysis.NoAcceptingPath | src/main/java/io/github/yayakm/config/AutomatonHandler.java:108-117 | If no analysed state accepts, the automaton accepts no word at all |
| Handler.Violations | src/main/java/io/github/yayakm/config/AutomatonHandler.java:62-75 | No violation exactly when the window is within the bounds. A too-small minimum is reported first and a too-large maximum last, each with the requested and allowed value; at most two are reported |
| Handler.EnsureLengthConstraints | src/main/java/io/github/yayakm/config/AutomatonHandler.java:62-75 | Fails exactly when minLength < allowedMin or maxLength > allowedMax, with one error listing every violation in message order |
| Handler.FoldAccepting | src/main/java/io/github/yayakm/config/AutomatonHandler.java:107-116 | The fold yields a lower bound on every accepting state's minimum and an upper bound on every accepting state's maximum, each attained by an accepting state. With no accepting state it leaves Integer.MAX_VALUE and 0 |
| Handler.AutomatonHandler.constructor | src/main/java/io/github/yayakm/config/AutomatonHandler.java:39-43 | A new handler has no automaton, global minimum 1 and global maximum Integer.MAX_VALUE |
| Handler.AutomatonHandler.SetRegExp | src/main/java/io/github/yayakm/config/AutomatonHandler.java:141-143 | The automaton becomes the compiled pattern; a pattern the library rejects fails and leaves the automaton unchanged |
| Handler.AutomatonHandler.SetGlobalMaxLength | src/main/java/io/github/yayakm/config/AutomatonHandler.java:153-155 | The global maximum becomes the given value and nothing else changes |
| Handler.AutomatonHandler.SetGlobalMinLength | src/main/java/io/github/yayakm/config/AutomatonHandler.java:161-163 | The global minimum becomes the given value and nothing else changes |
| Handler.AutomatonHandler.EnsureAutomatonInitialized | src/main/java/io/github/yayakm/config/AutomatonHandler.java:91-95 | Fails with NotInitialized exactly when there is no automaton |
| Handler.AutomatonHandler.EnsureAutomatonIsFinite | src/main/java/io/github/yayakm/config/AutomatonHandler.java:97-101 | Passes exactly when an automaton is present and finite; a missing automaton is the null dereference, an infinite one is rejected |
| Handler.AutomatonHandler.ValidateTextGenerationCapacity | src/main/java/io/github/yayakm/config/AutomatonHandler.java:49-60 | Passes exactly when the window lies within both the global bounds and the expected range. A global violation is reported with the global bounds; only a window inside them is reported against the expected range |
| Handler.AutomatonHandler.GetExpectedLength | src/main/java/io/github/yayakm/config/AutomatonHandler.java:103-118 | Without an automaton, NotInitialized. On a finite automaton it succeeds exactly when some word is accepted, and then returns exactly the feasible range of accepted word lengths; otherwise IllegalArgument from the Length constructor |
| Handler.AutomatonHandler.GetAutomatonProperties | src/main/java/io/github/yayakm/config/AutomatonHandler.java:77-89 | Without an automaton, NotInitialized. An infinite automaton reports its state count with sizes 0 and 0. A finite one reports its state count and the feasible range, and fails exactly when it accepts nothing |
| RandomSource.Random.NextInt | src/main/java/io/github/yayakm/core/RegexStringGenerator.java:138-141 | The answer is below the bound and is the oracle's next answer; one more call has been consumed |
| Walk.WalkFrom | src/main/java/io/github/yayakm/core/RegexStringGenerator.java:128-157 | The loop of generate resumed at a state with some text built: stop at maxLength; break at a state with no transitions; otherwise draw a transition index and a character offset, append, move, and return early when the stop test holds. It carries no contract of its own; its properties are the lemmas in the rows below |
| Walk.RunWalk | src/main/java/io/github/yayakm/core/RegexStringGenerator.java:117-158 | A run of generate from the initial state: its text never exceeds a non-negative maxLength, it uses two draws per character, and its states start at the initial state with one more state than characters |
| Walk.WalkStep | src/main/java/io/github/yayakm/core/RegexStringGenerator.java:138-153 | One turn of the loop: with the drawn transition index and offset, the character is a valid code unit and the destination a state. Either the early return gives the walk's text and draw count, or the walk continues from the destination |
| Walk.WalkFromLength | src/main/java/io/github/yayakm/core/RegexStringGenerator.java:128-154 | A walk resumed mid-way only appends, one character, one state and two random draws per step, and never grows the text beyond maxLength |
| Walk.WalkFromEnding | src/main/java/io/github/yayakm/core/RegexStringGenerator.java:128-157 | An early return means the last step met the stop test. Reaching the limit means the text is exactly maxLength long. A break means the final state has no transitions and the text is shorter than maxLength |
| Walk.WalkFromRun | src/main/java/io/github/yayakm/core/RegexStringGenerator.java:138-147 | Every character and every state of a resumed walk is the one the random draws select |
| Walk.WalkFromQuiet | src/main/java/io/github/yayakm/core/RegexStringGenerator.java:151-153 | No earlier prefix of a resumed walk met the stop test, and a walk that ended without the early return has no prefix that met it |
| Walk.DrawnSpells | src/main/java/io/github/yayakm/core/RegexStringGenerator.java:138-147 | A walk made of drawn steps spells its text along its states in the automaton |
| Walk.WalkFacts | src/main/java/io/github/yayakm/core/RegexStringGenerator.java:117-158 | Every run of generate returns text of length at most maxLength, using two draws per character, spelled along the drawn states. It returns early exactly at the first prefix that is at least minLength long, ends in an accepting state and passes the match check, and such a text is accepted. Otherwise it stops at maxLength or at a state without transitions |
| Walk.EmptyWhenNoRoom | src/main/java/io/github/yayakm/core/RegexStringGenerator.java:128 | With maxLength <= 0 the walk returns the empty text without drawing, whatever the match check says |
| Walk.RandomWalk | src/main/java/io/github/yayakm/core/RegexStringGenerator.java:117-158 | The loop returns exactly the text of RunWalk on the oracle's answers from the current call count, and consumes exactly its draws |
| Patterns.IntToString | src/main/java/io/github/yayakm/core/RegexStringGenerator.java:170 | Java's rendering of an int inside the concatenation: non-empty, a leading minus sign exactly for negative values, and decimal digits after it |
| Patterns.Rewrite | src/main/java/io/github/yayakm/core/RegexStringGenerator.java:170 | The rewritten pattern opens with "(", closes with "}", and is five characters longer than the stored pattern and the two rendered bounds together; its full structure is RewriteBounds |
| Patterns.IntToStringRoundTrip | src/main/java/io/github/yayakm/core/RegexStringGenerator.java:170 | The decimal rendering of any int, negative ones included, reads back as that int |
| Patterns.RewriteBounds | src/main/java/io/github/yayakm/core/RegexStringGenerator.java:170 | The rewritten pattern starts with the stored pattern in a group, then "{", the minimum, ",", the maximum and "}", and both bounds read back as the requested window |
| Patterns.RewriteGuard | src/main/java/io/github/yayakm/core/RegexStringGenerator.java:169 | The guard holds exactly when the expected maximum is 1; the minimum plays no part |
| Generator.RegexStringGenerator.constructor | src/main/java/io/github/yayakm/core/RegexStringGenerator.java:43-46 | Keeps the given handler and random source, and the pattern starts as null |
| Generator.RegexStringGenerator.WithNewHandler | src/main/java/io/github/yayakm/core/RegexStringGenerator.java:53-55 | A generator over a fresh handler with no automaton and the default global bounds 1 and Integer.MAX_VALUE |
| Generator.RegexStringGenerator.SetRegExp | src/main/java/io/github/yayakm/core/RegexStringGenerator.java:182-185 | The pattern is stored even when compilation fails; the automaton becomes the compiled pattern, or stays unchanged on a rejected one |
| Generator.RegexStringGenerator.Generate | src/main/java/io/github/yayakm/core/RegexStringGenerator.java:117-158 | Without an automaton, the null dereference and no draw; otherwise exactly RunWalk's text and draws |
| Generator.RegexStringGenerator.AssertLengthCompatible | src/main/java/io/github/yayakm/core/RegexStringGenerator.java:166-174 | Missing or infinite automata are rejected first, and one accepting no word fails in getExpectedLength, each with nothing changed. When the feasible maximum is 1, the pattern becomes (regex){minLength,maxLength} and is recompiled, with no bound checked. Otherwise nothing changes. It then passes exactly when the window lies within both the global bounds and the feasible range, reporting the global violations first and the expected-range violations only for a window inside the global bounds |
| Generator.RegexStringGenerator.GenerateString | src/main/java/io/github/yayakm/core/RegexStringGenerator.java:72-76 | A missing automaton, an infinite one and an empty language each fail with their own error, leaving the pattern and the automaton as they were and drawing nothing. When the feasible maximum is not 1, nothing but the draws changes. Text is produced exactly when the window lies within the global bounds and the feasible range, and otherwise the violations validation reports are returned. When the maximum is 1, the rewritten pattern is stored, and text is produced exactly when it compiles, on its automaton. Any text is RunWalk's on the automaton left by validation |
| Generator.RegexStringGenerator.GenerateStringGlobal | src/main/java/io/github/yayakm/core/RegexStringGenerator.java:79-82 | Walks with the global bounds, with neither the finiteness check nor validation; without an automaton it fails with the null dereference before any draw |
| Generator.RegexStringGenerator.GenerateStringFor | src/main/java/io/github/yayakm/core/RegexStringGenerator.java:84-88 | A rejected pattern fails, is still stored, and leaves the automaton unchanged. An infinite or empty-language pattern fails with its error, stored and compiled. Otherwise, when the feasible maximum is not 1, text is produced exactly when the feasible range covers the global window, else the expected-range violations are reported; this never succeeds when the global maximum is Integer.MAX_VALUE. When it is 1, the pattern is rewritten over the global bounds and text is produced exactly when the rewrite compiles; if not, MalformedPattern with the original pattern's automaton kept. Any text is RunWalk's with the global bounds |
| Generator.RegexStringGenerator.GenerateStringForWithin | src/main/java/io/github/yayakm/core/RegexStringGenerator.java:90-94 | A rejected pattern fails, is still stored, and leaves the automaton unchanged. An infinite or empty-language pattern fails with its error, stored and compiled. Otherwise, when the feasible maximum is not 1, the pattern and its automaton stay set, and text is produced exactly when the window lies within the global bounds and the feasible range. A failure reports the global violations first, and the expected-range violations only for a window inside the global bounds; it never succeeds when maxLength is Integer.MAX_VALUE. When the maximum is 1, the pattern is rewritten over the requested window and text is produced exactly when the rewrite compiles; if not, MalformedPattern with the original pattern's automaton kept. Any text is RunWalk's with the requested bounds |

## Left out

- Regular-expression compilation (dk.brics `RegExp.toAutomaton`), `isFinite` and `getNumberOfStates` are library code. The compiler is a function parameter that yields a well-formed automaton or rejects the pattern. Finiteness and the state count are fields of the automaton. A finite automaton is assumed acyclic; the converse is not assumed.
- The match check `result.matches(automaton.toString())` is an uninterpreted parameter, because its pattern is the library's textual rendering of the automaton.
- `java.util.Random`: the model makes no claim about the distribution. Answers come from an oracle that only guarantees `0 <= nextInt(bound) < bound`.
- `getSortedTransitions` is library code: the model takes the transitions in the stored order, and does not model their sorting.
- Java `int` overflow: lengths, bounds and state counts are unbounded integers. The `+ 1` of the analysis (AutomatonHandler.java:130-131) never wraps in the model.
- Handler.AutomatonHandler.GetExpectedLength: requires a finite automaton. In Java, on a cyclic automaton the traversal would only stop through integer overflow or exhausted memory, and callers always check finiteness first.
- Analysis.ExploreLengths: keeps the ranges in a value map rather than a `HashMap` of shared mutable `Length` objects; `update` on a stored object is modelled as replacing the map entry by Widen's interval. Transitions are visited in their stored order.
- Exception messages: the model records which bounds were violated and with which values, not the message wording.
- The constructors taking a pattern (`AutomatonHandler(String)`, `RegexStringGenerator(String)`, `RegexStringGenerator(String, Random)`) are each the plain constructor followed by `setRegExp`, and are not modelled separately.
- `RegexStringGenerator.getAutomatonProperties` only delegates to `AutomatonHandler.getAutomatonProperties`, which is modelled. The getters are field reads.
- `setRegExp(null)` is not modelled: patterns are non-null strings. The null pattern is modelled only where it is spliced into the rewrite, as "null".
- The com package's own `AutomatonHandler`, `Length` and exceptions are not part of this model. Its generator is assumed to use the same handler behaviour as the io package.
- The walk's result also lists the visited states, which the Java loop does not keep; the list exists only to state the run.
- The builder, the random-string utilities, `Application`, the exception classes and logging are outside the modelled core.
