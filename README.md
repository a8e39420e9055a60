# fla-emulator in Dafny

A verified model of `fla`, a command-line emulator for pushdown automata (PDA) and
multi-tape Turing machines (TM). The model covers the same parts the C++ program has:

- **TM tape** (`tm_tape.dfy`, module `TMTape`): the two-way tape held in a deque.
  It tracks `left_idx`, the absolute position of the first stored cell, and `head`.
  Each operation is a function on a `TapeState` value. The class `Tape` implements it
  with methods and loops, and those methods are proved equal to the functions.
- **TM transition table** (`tm_tran_kv.dfy`, module `TMTranKV`): lookup in which `*` in a
  stored pattern matches any symbol. Insertion uses `emplace`, so the first rule stored
  for a key wins. A lookup answers with *some* matching entry, because hash-map order is
  not specified.
- **Machine descriptions** (`tm_context.dfy`, `pda_context.dfy`): `validate`,
  `addTransition` and `getTransition`.
- **Emulators** (`tm_emulator.dfy`, `pda_emulator.dfy`, `emulation.dfy`): the input
  check and the `run` step loops.
  - The TM run is specified by a one-step relation `Step`. `Run` is proved to follow it
    until ACCEPT or HALT.
  - The PDA run is deterministic, so it is specified by the function `RunFrom`, and the
    imperative `Run` loop is proved equal to it.
  - Both runs take a step budget (`fuel`).
- **Configuration-text front end** (`text.dfy`, `parse_token.dfy`, `line_syntax.dfy`,
  `pda_parser.dfy`, `tm_parser.dfy`): the C++ string operations the parsers rely on,
  the set-literal parsers, the line preprocessor, the tokenizer, and `parseLine` for
  both file formats.
- **Command line** (`cli.dfy`): `endsWith`, `parseArguments`, the dispatch on the file
  extension, and the mapping of exceptions to exit codes.
- **Worked examples** (modules `PushdownScenario`, `TuringScenario`): an a^n b^n PDA and a
  unary-increment TM, run to their verdicts.

Exceptions are values of `Errors.Error`. The three emulator errors are
`AutomataSyntax`, `AutomataStructure` and `InputSyntax`. `main` also catches
`std::invalid_argument` and `std::runtime_error`.

Behaviours of the source worth knowing:

- **TM rule choice.** Among several matching TM rules, `query` returns the first one in
  `unordered_map` iteration order, not the first one inserted. `IsQueryAnswer` therefore
  allows any matching entry.
- **PDA order of checks.** Each PDA step checks acceptance before it rejects on an empty
  stack (`pda/emulator.cpp:48-58`). A run that reaches a final state with the input used
  up accepts, whatever is left on the stack. So the a^n b^n machine accepts `aab`
  (`PushdownScenario.AabAccepted`).
- **Epsilon rules.** `validate` demands that every key's input symbol is in the input
  alphabet, and the parser never admits `'_'` to that alphabet. So a description with an
  epsilon rule never runs (`PushdownScenario.AnBnValidity`,
  `PushdownParser.ParsedHasNoEpsilonRules`).
- **TM blank.** TM tapes are built with the default blank `'_'`, whatever `#B` declares.

## Model

| member | source | states |
|---|---|---|
| TMTape.Blank | fla-project/src/tm/tape.cpp:9-15 | A new tape is one blank cell under the head at position 0; every absolute position reads blank |
| TMTape.Tape.constructor | fla-project/src/tm/tape.cpp:9-11 | `TMTape()` uses blank `'_'` and holds the one-blank tape |
| TMTape.Tape.WithBlank | fla-project/src/tm/tape.cpp:13-15 | `TMTape(b)` uses blank `b` and holds the one-blank tape |
| TMTape.LoadedAsWritten | fla-project/src/tm/tape.cpp:17-24 | `init(s)` resets head and left_idx to 0 and makes the cells exactly `s` |
| TMTape.EmptyInitHasNoHeadCell | fla-project/src/tm/tape.cpp:17-35 | After `init("")` the head is on no cell, so `read` is out of range; the corrected `Loaded` always has a head cell |
| TMTape.Loaded | fla-project/src/tm/tape.cpp:17-24 | Corrected `init(s)`: the tape reads `s` from position 0 and blank elsewhere, with the head on a cell |
| TMTape.LoadedMatchesAsWritten | fla-project/src/tm/tape.cpp:17-24 | On non-empty input the corrected `init` is exactly the written one |
| TMTape.Tape.Init | fla-project/src/tm/tape.cpp:17-24 | The push_back loop leaves the cells equal to `s`, with head and left_idx 0 |
| TMTape.Tape.InitPadded | fla-project/src/tm/tape.cpp:17-24 | The tape after the corrected `init` |
| TMTape.Tape.Clear | fla-project/src/tm/tape.cpp:26-31 | `clear()` returns to the one-blank tape at position 0 |
| TMTape.Tape.Read | fla-project/src/tm/tape.cpp:33-35 | `read()` is the symbol at the head's absolute position |
| TMTape.Written | fla-project/src/tm/tape.cpp:37-39 | After `write(c)` the head reads `c`, every other position is unchanged, and the head and left_idx stay put |
| TMTape.WriteBackUnchanged | fla-project/src/tm/tape.cpp:33-39 | Writing back the symbol just read leaves the tape identical |
| TMTape.Tape.Write | fla-project/src/tm/tape.cpp:37-39 | `write` changes the tape exactly as `Written` says |
| TMTape.MovedLeft | fla-project/src/tm/tape.cpp:41-49 | At the left end one blank is prepended and both left_idx and head drop by 1; otherwise only head drops; the infinite tape is unchanged and the head stays on a cell |
| TMTape.Tape.MoveLeft | fla-project/src/tm/tape.cpp:41-49 | `moveLeft` changes the tape exactly as `MovedLeft` says |
| TMTape.MovedRight | fla-project/src/tm/tape.cpp:51-58 | At the right end one blank is appended; head rises by 1; left_idx never changes; the infinite tape is unchanged |
| TMTape.Tape.MoveRight | fla-project/src/tm/tape.cpp:51-58 | `moveRight` changes the tape exactly as `MovedRight` says |
| TMTape.ExtensionReadsBlank | fla-project/src/tm/tape.cpp:41-58 | A cell exposed by extension reads blank; both moves keep left_idx ≤ head < left_idx + size |
| TMTape.TrimFront | fla-project/src/tm/tape.cpp:61-64 | The front loop keeps the head and the right end, and moves left_idx only rightwards within the old cells |
| TMTape.TrimFrontMinimal | fla-project/src/tm/tape.cpp:61-64 | After the front loop the head is on a cell and the first cell is the head cell or non-blank |
| TMTape.TrimFrontStep | fla-project/src/tm/tape.cpp:61-64 | One `pop_front` with `left_idx++` does not change where the loop ends |
| TMTape.TrimFrontSameTape | fla-project/src/tm/tape.cpp:61-64 | The front loop pops only cells that read as blank |
| TMTape.TrimBack | fla-project/src/tm/tape.cpp:65-67 | The back loop keeps head and left_idx, leaves a prefix of the cells, and ends with the last cell being the head cell or non-blank |
| TMTape.TrimBackStep | fla-project/src/tm/tape.cpp:65-67 | One `pop_back` does not change where the loop ends |
| TMTape.TrimBackSameTape | fla-project/src/tm/tape.cpp:65-67 | The back loop pops only cells that read as blank |
| TMTape.Minimized | fla-project/src/tm/tape.cpp:60-68 | `minimize` keeps the head and only shrinks the stored range |
| TMTape.MinimizeSound | fla-project/src/tm/tape.cpp:60-68 | `minimize` removes only blank end cells, never the head cell, keeps at least one cell, and leaves `read()` and the infinite tape unchanged |
| TMTape.MinimizeIdempotent | fla-project/src/tm/tape.cpp:60-68 | Minimizing twice equals minimizing once |
| TMTape.Tape.Minimize | fla-project/src/tm/tape.cpp:60-68 | `minimize` changes the tape exactly as `Minimized` says |
| TMTape.Tape.PopBlankFront | fla-project/src/tm/tape.cpp:61-64 | The front while-loop computes `TrimFront` |
| TMTape.Tape.PopFront | fla-project/src/tm/tape.cpp:62-63 | `pop_front` with `left_idx++` |
| TMTape.Tape.PopBlankBack | fla-project/src/tm/tape.cpp:65-67 | The back while-loop computes `TrimBack` |
| TMTape.CellsWindow | fla-project/src/tm/tape.cpp:75-105 | The cells from `left` to `right`, at position `left + left_idx`, are the non-blank window when only blanks lie outside them |
| TMTape.WindowUnique | fla-project/src/tm/tape.cpp:75-105 | The window is determined by the tape, so two `getNonBlank` calls in a row agree |
| TMTape.WindowOfSameTape | fla-project/src/tm/tape.cpp:75-105 | Tapes that read the same everywhere, with the same head, have the same window |
| TMTape.MinimizeKeepsWindow | fla-project/src/tm/tape.cpp:60-105 | `minimize` does not change what `getNonBlank` returns |
| TMTape.Tape.GetNonBlank | fla-project/src/tm/tape.cpp:75-105 | Returns the slice from the first to the last cell that is non-blank or the head, with idx = slice start + left_idx; on an empty deque, one blank with idx = head |
| TMTape.Tape.ScanLeft | fla-project/src/tm/tape.cpp:79-83 | The first for-loop stops at the first cell that is non-blank or the head cell |
| TMTape.Tape.ScanRight | fla-project/src/tm/tape.cpp:85-89 | The second for-loop stops at the last such cell, never left of the head |
| TMTape.Tape.CopyCells | fla-project/src/tm/tape.cpp:98-100 | The copy loop returns exactly the cells `left..right` |
| TMTape.Tape.GetNonBlankText | fla-project/src/tm/tape.cpp:70-73 | `getNonBlank()` returns the window's text |
| TMTranKV.SameKey | fla-project/src/tm/tran_kv.cpp:13-15 | Keys are equal iff both state and input_chars are equal |
| TMTranKV.MatchesWithWildcard | fla-project/src/tm/tran_kv.cpp:44-53 | True iff the lengths agree and every stored symbol is `*` or equals the input's |
| TMTranKV.MatchesItself | fla-project/src/tm/tran_kv.cpp:44-53 | A pattern matches itself |
| TMTranKV.AllWildcardsMatch | fla-project/src/tm/tran_kv.cpp:44-53 | An all-`*` pattern matches every input of its length |
| TMTranKV.QueryTable | fla-project/src/tm/tran_kv.cpp:56-74 | Succeeds iff some stored key has the same state and a matching pattern, and then returns that entry's value; otherwise returns the empty failed result |
| TMTranKV.Emplaced | fla-project/src/tm/tran_kv.cpp:39-41 | `emplace` keeps an existing entry (first write wins) and otherwise adds the new one; no other entry changes |
| TMTranKV.QueryUnique | fla-project/src/tm/tran_kv.cpp:56-74 | With exactly one matching entry, every answer is that entry |
| TMTranKV.QueryStoredKey | fla-project/src/tm/tran_kv.cpp:56-74 | Looking up a stored key always succeeds |
| TMTranKV.InsertOtherState | fla-project/src/tm/tran_kv.cpp:39-74 | Inserting a rule for another state changes no answer, since entries of other states are never returned |
| TMTranKV.TMDeltaMap.constructor | fla-project/src/tm/tran_kv.cpp:39-41 | A new table is empty |
| TMTranKV.TMDeltaMap.Insert | fla-project/src/tm/tran_kv.cpp:39-41 | `insert` updates the table as `Emplaced` says |
| TMTranKV.TMDeltaMap.Query | fla-project/src/tm/tran_kv.cpp:56-74 | `query` leaves the map unchanged and returns an allowed answer |
| TuringContext.CheckSymbols | fla-project/src/tm/context.cpp:56-79 | A pattern or replacement passes iff its length is tape_num and each symbol is `*` or a tape symbol |
| TuringContext.UnknownSourceStateInvalid | fla-project/src/tm/context.cpp:51-53 | A rule from an undeclared state makes the description invalid |
| TuringContext.WrongPatternLengthInvalid | fla-project/src/tm/context.cpp:56-58 | A pattern whose length is not tape_num makes the description invalid |
| TuringContext.TMContext.constructor | fla-project/src/tm/parser.cpp:24 | `TMContext context;` with the fields of fla-project/include/tm/context.h:23-32: empty sets, empty start state and an empty table; `tape_num` and `blank_char`, which C++ leaves indeterminate, are constructor parameters here |
| TuringContext.TMContext.Validate | fla-project/src/tm/context.cpp:11-94 | True iff the start state and all final states are declared, tape_num > 0, blank ∈ tape alphabet, blank ∉ input alphabet, input alphabet ⊆ tape alphabet, and every rule has declared states, patterns and replacements of length tape_num over `*` and tape symbols, and tape_num directions |
| TuringContext.TMContext.AddTransition | fla-project/src/tm/context.cpp:97-105 | Always returns true; inserts with `emplace` and no validation; no other field changes |
| TuringContext.TMContext.GetTransition | fla-project/src/tm/context.cpp:107-114 | Exactly the table's `query` of that key |
| Emulation.CheckSyntaxError | fla-project/src/tm/emulator.cpp:206-213 | The least index whose symbol is outside the input alphabet, or -1 iff there is none |
| TuringEmulator.ReplaceCharsIndexOutOfRange | fla-project/src/tm/emulator.cpp:47-73 | Every index the replacement loop writes is out of range of the empty `replace_chars` |
| TuringEmulator.ReplacementMeaning | fla-project/src/tm/emulator.cpp:67-73 | Intended `replace_chars`: the symbol read where the rule says `*`, and the rule's symbol elsewhere |
| TuringEmulator.ApplyTapes | fla-project/src/tm/emulator.cpp:67-90 | Writing and moving keeps one tape per tape and every head on a cell |
| TuringEmulator.Apply | fla-project/src/tm/emulator.cpp:67-93 | After a step the state is the rule's next state, the tape count is unchanged, and every head is on a cell |
| TuringEmulator.ReachesStep | fla-project/src/tm/emulator.cpp:42-94 | A run extended by one step reaches the new configuration in one more step |
| TuringEmulator.ForcedTrace | fla-project/src/tm/emulator.cpp:42-94 | When each configuration of a trace can only step to the next one, every run from a trace configuration stays on the trace |
| TuringEmulator.Initial | fla-project/src/tm/emulator.cpp:23-25 | A run starts in the start state with tape_num tapes using blank `'_'`; tape 0 holds the input and the others are blank |
| TuringEmulator.FinalTakesNoStep | fla-project/src/tm/emulator.cpp:50-54 | In a final state no step is taken: acceptance is checked before any read |
| TuringEmulator.HaltedTakesNoStep | fla-project/src/tm/emulator.cpp:62-65 | When no rule matches, the run halts |
| TuringEmulator.StepDeterministic | fla-project/src/tm/emulator.cpp:56-93 | When at most one stored rule matches, the step is determined |
| TuringEmulator.WildcardKeepsTape | fla-project/src/tm/emulator.cpp:67-90 | A `*` replacement leaves the tape as it was, apart from the move |
| TuringEmulator.ValidRulesFit | fla-project/src/tm/context.cpp:69-84 | Under a valid description every rule has one replacement symbol and one direction per tape |
| TuringEmulator.NewTapes | fla-project/src/tm/emulator.cpp:24 | `n` distinct fresh tapes, each one blank `'_'` |
| TuringEmulator.ReadHeads | fla-project/src/tm/emulator.cpp:56-58 | The lookup string is the head symbol of each tape, in tape order |
| TuringEmulator.ComputeReplacement | fla-project/src/tm/emulator.cpp:67-73 | The replacement loop computes the intended `replace_chars` |
| TuringEmulator.WriteAll | fla-project/src/tm/emulator.cpp:75-77 | Tape `i` gets `rep[i]` written under its head |
| TuringEmulator.MoveAll | fla-project/src/tm/emulator.cpp:79-90 | Tape `i` moves by direction `i` (LEFT, RIGHT, or STAY as a no-op) |
| TuringEmulator.ApplyRule | fla-project/src/tm/emulator.cpp:67-90 | The tapes after one step are `ApplyTapes` of those before |
| TuringEmulator.FoundRule | fla-project/src/tm/emulator.cpp:60-65 | A successful lookup in a non-final state names a stored rule that makes a step |
| TuringEmulator.NotFoundHalts | fla-project/src/tm/emulator.cpp:60-65 | A failed lookup in a non-final state is HALT |
| TuringEmulator.StepTaken | fla-project/src/tm/emulator.cpp:60-93 | Applying the found rule extends the run by one step |
| TuringEmulator.Execute | fla-project/src/tm/emulator.cpp:42-94 | The loop follows `Step` and stops with ACCEPT exactly in a final state, HALT exactly when no rule matches, or when the budget runs out |
| TuringEmulator.TMEmulator.constructor | fla-project/src/tm/emulator.cpp:13-18 | The emulator keeps a copy of a valid description |
| TuringEmulator.TMEmulator.Create | fla-project/src/tm/emulator.cpp:13-18 | Raises `AutomataStructure` iff `validate()` is false; otherwise keeps a copy of the context |
| TuringEmulator.TMEmulator.Run | fla-project/src/tm/emulator.cpp:20-109 | `InputSyntax` iff some input symbol is undeclared; otherwise a run from `Initial` ending in ACCEPT, HALT or out of budget; the output is tape 0's non-blank window in every case |
| TuringScenario.IncrementValid | fla-project/src/tm/context.cpp:11-94 | The unary-increment machine passes `validate()` |
| TuringScenario.StepAt | fla-project/src/tm/emulator.cpp:56-93 | On input `111` exactly one rule applies at each of the first four steps, and it gives the next configuration |
| TuringScenario.StepOnly | fla-project/src/tm/emulator.cpp:50-93 | Each configuration of that run has exactly one successor, and the last has none |
| TuringScenario.OnlyTrace | fla-project/src/tm/emulator.cpp:42-94 | Every run from `Initial` follows that trace |
| TuringScenario.RunsOn | fla-project/src/tm/emulator.cpp:50-65 | Before the fourth step the run neither accepts nor halts |
| TuringScenario.LastWindow | fla-project/src/tm/tape.cpp:75-105 | The last tape's non-blank window is `1111` at position 0 |
| TuringScenario.IncrementOutput | fla-project/src/tm/emulator.cpp:20-109 | With a budget of at least four steps, the run on `111` accepts and reports `1111` |
| PushdownContext.LookupAfterStore | fla-project/src/pda/context.cpp:79-108 | After a rule with a non-empty next state is stored for a key, looking that key up finds it, so a later store overrides an earlier one |
| PushdownContext.LookupOtherKey | fla-project/src/pda/context.cpp:79-108 | Storing a rule changes no other key's lookup |
| PushdownContext.LookupFindsStored | fla-project/src/pda/context.cpp:102-108 | A lookup succeeds iff the exact key is stored with a non-empty next_state, and then returns that entry's value; otherwise the empty failed result |
| PushdownContext.ValidLookup | fla-project/src/pda/context.cpp:15-63 | Under a valid description a successful lookup has a declared key, a declared next state, and an action over the stack alphabet |
| PushdownContext.EpsilonKeyRejected | fla-project/src/pda/context.cpp:35-47 | With `'_'` outside the input alphabet, no epsilon key passes `addTransition` or `validate` |
| PushdownContext.PDAContext.constructor | fla-project/src/pda/parser.cpp:43 | `PDAContext context;`: empty sets, empty start state and an empty table; the stack start symbol, which C++ leaves indeterminate, is a constructor parameter here |
| PushdownContext.PDAContext.Validate | fla-project/src/pda/context.cpp:15-63 | True iff the start state and final states are declared, and every rule has a declared state, input symbol, stack top and next state, with its action over the stack alphabet; the stack start symbol is never checked |
| PushdownContext.PDAContext.AddTransition | fla-project/src/pda/context.cpp:70-85 | Returns false and changes nothing iff the state, input or stack top is undeclared; otherwise stores the rule, overwriting any earlier one; next_state and action are not checked |
| PushdownContext.PDAContext.GetTransition | fla-project/src/pda/context.cpp:92-108 | The exact-key lookup |
| PushdownEmulator.Reversed | fla-project/src/pda/emulator.cpp:88-90 | The reverse has the same length, with element `i` being element `n-1-i` |
| PushdownEmulator.AcceptCheckedFirst | fla-project/src/pda/emulator.cpp:48-52 | Used-up input in a final state accepts, even with an empty stack |
| PushdownEmulator.EmptyStackRejects | fla-project/src/pda/emulator.cpp:54-58 | Otherwise an empty stack rejects |
| PushdownEmulator.EpsilonFirst | fla-project/src/pda/emulator.cpp:61-65 | An existing epsilon rule is applied before any input rule and does not move the cursor |
| PushdownEmulator.StepCursor | fla-project/src/pda/emulator.cpp:61-83 | A move keeps the cursor or advances it by one, never past the input's end |
| PushdownEmulator.ConsumingStep | fla-project/src/pda/emulator.cpp:67-83 | A move consumes input only when no epsilon rule exists, input remains, and the rule for the next symbol exists |
| PushdownEmulator.EmptyActionPops | fla-project/src/pda/emulator.cpp:86-90 | An empty action is a pure pop |
| PushdownEmulator.ActionHeadOnTop | fla-project/src/pda/emulator.cpp:86-90 | The action's first symbol becomes the new top, and its last sits on the old rest |
| PushdownEmulator.StepKeepsStackSymbols | fla-project/src/pda/emulator.cpp:86-90 | Under a valid description every symbol pushed is in the stack alphabet |
| PushdownEmulator.RunFromSound | fla-project/src/pda/emulator.cpp:42-105 | Accepted iff the last step accepts, and then the input is used up in a final state; Rejected iff the last step rejects |
| PushdownEmulator.RunFromCursor | fla-project/src/pda/emulator.cpp:42-93 | The cursor never decreases and never exceeds the input length |
| PushdownEmulator.MoreFuelSameOutcome | fla-project/src/pda/emulator.cpp:42-93 | A run that stopped within its budget ends the same under any larger budget |
| PushdownEmulator.PushReversed | fla-project/src/pda/emulator.cpp:88-90 | The push loop appends the action reversed, so its first symbol ends on top |
| PushdownEmulator.PDAEmulator.constructor | fla-project/src/pda/emulator.cpp:13-17 | The emulator keeps a copy of a valid description |
| PushdownEmulator.PDAEmulator.Create | fla-project/src/pda/emulator.cpp:13-17 | Raises `AutomataStructure` iff `validate()` is false; otherwise keeps a copy of the context |
| PushdownEmulator.PDAEmulator.Run | fla-project/src/pda/emulator.cpp:19-106 | `InputSyntax` iff some input symbol is undeclared; otherwise the verdict of `RunFrom` from the start state with the stack `[z0]` |
| PushdownScenario.AnBnValidity | fla-project/src/pda/context.cpp:15-63 | The a^n b^n machine is valid without its epsilon rule and invalid with it |
| PushdownScenario.AabbAccepted | fla-project/src/pda/emulator.cpp:42-98 | `aabb` is accepted after four steps, with `Z` left on the stack |
| PushdownScenario.AabAccepted | fla-project/src/pda/emulator.cpp:48-52 | `aab` is accepted too, with or without the epsilon rule, because acceptance is checked first |
| PushdownScenario.AbbRejected | fla-project/src/pda/emulator.cpp:73-82 | `abb` finds no rule in `q1` with `Z` on top and is rejected |
| Text.IndexOf | fla-project/src/utils/parse_token.cpp:9-10 | `find`: -1 or an index holding the character |
| Text.IndexOfSpec | fla-project/src/utils/parse_token.cpp:9-10 | `find` fails iff the character is absent, and otherwise returns its first occurrence |
| Text.Split | fla-project/src/utils/parse_token.cpp:17-21 | The `getline` pieces: none exactly for the empty text |
| Text.SplitNoSeparator | fla-project/src/utils/parse_token.cpp:17-21 | No piece contains the separator |
| Text.JoinSplit | fla-project/src/utils/parse_token.cpp:17-21 | Rejoining the pieces gives the text back, minus one trailing separator: only a final comma is lost |
| Text.JoinSplitLast | fla-project/src/utils/parse_token.cpp:17-21 | A separator that is the last character ends the last piece and adds no empty piece |
| Text.JoinSplitInner | fla-project/src/utils/parse_token.cpp:17-21 | An inner separator splits off the first piece |
| Text.JoinSplitNone | fla-project/src/utils/parse_token.cpp:17-21 | Text without a separator is a single piece |
| Text.DropLastSep | fla-project/src/utils/parse_token.cpp:17-21 | Dropping a final separator commutes with cutting at an earlier one |
| Text.WordLength | fla-project/src/pda/parser.cpp:93-97 | The leading run of non-space characters |
| Text.Tokens | fla-project/src/pda/parser.cpp:93-97 | `>>` extracts non-empty tokens |
| Text.TokensShape | fla-project/src/pda/parser.cpp:93-97 | Tokens hold no whitespace, and there are none iff the line is all whitespace |
| Text.CommentCut | fla-project/src/pda/parser.cpp:71-76 | The text before the first `;` (all of it when there is none) |
| Text.TrimTrailing | fla-project/src/pda/parser.cpp:79 | The longest prefix not ending in space or tab, with only spaces and tabs removed |
| ParseToken.Content | fla-project/src/utils/parse_token.cpp:14 | The text between the braces, which holds no `}` |
| ParseToken.SplitWhole | fla-project/src/utils/parse_token.cpp:19 | `getline` on text without a separator yields that text |
| ParseToken.SplitAtFirst | fla-project/src/utils/parse_token.cpp:19 | `getline` yields the text before the first separator, then continues after it |
| ParseToken.Getline | fla-project/src/utils/parse_token.cpp:19 | One `getline` call takes the next piece |
| ParseToken.PieceCharsSnoc | fla-project/src/utils/parse_token.cpp:45-49 | Inserting a one-character piece adds its character |
| ParseToken.PieceStep | fla-project/src/utils/parse_token.cpp:19-21 | Inserting a piece adds it to the set |
| ParseToken.SingleStep | fla-project/src/utils/parse_token.cpp:45-49 | Inserting a one-character piece keeps the loop's facts |
| ParseToken.NotAllSingle | fla-project/src/utils/parse_token.cpp:46-48 | A piece of another length makes the literal fail |
| ParseToken.ParseStrSet | fla-project/src/utils/parse_token.cpp:5-27 | Throws unless `{` is first and the first `}` is last; otherwise the set of the comma-separated pieces between them, verbatim |
| ParseToken.InsertPieces | fla-project/src/utils/parse_token.cpp:17-21 | The loop inserts every piece |
| ParseToken.ParseCharSet | fla-project/src/utils/parse_token.cpp:31-56 | Same brace rule, then throws if any piece is not one character; otherwise the set of the pieces' characters |
| ParseToken.InsertChars | fla-project/src/utils/parse_token.cpp:43-50 | The loop succeeds iff every piece has length 1, and then gives their characters |
| ParseToken.StrSetErrorIffUnbraced | fla-project/src/utils/parse_token.cpp:13-24 | A set literal throws iff the braces are not at both ends |
| ParseToken.EmptyLiteral | fla-project/src/utils/parse_token.cpp:14-21 | The result is empty iff the literal is `{}` |
| ParseToken.StrSetMembers | fla-project/src/utils/parse_token.cpp:14-21 | No member contains `,` or `}` |
| ParseToken.SplitPiecesWithin | fla-project/src/utils/parse_token.cpp:17-21 | Pieces avoid whatever the text avoids |
| ParseToken.CharSetFromStrSet | fla-project/src/utils/parse_token.cpp:31-56 | An accepted character set is the string set, one character per member |
| ParseToken.InteriorEmptyPieceKept | fla-project/src/utils/parse_token.cpp:19-21 | `{a,,b}` keeps the empty piece as a member |
| ParseToken.BracedExample | fla-project/src/utils/parse_token.cpp:9-14 | `{a,,b}` is braced around `a,,b` |
| ParseToken.SplitExample | fla-project/src/utils/parse_token.cpp:19 | `a,,b` splits into `a`, `` and `b` |
| ParseToken.PieceSetThree | fla-project/src/utils/parse_token.cpp:20 | Three pieces make the set of the three |
| ParseToken.PieceSetOne | fla-project/src/utils/parse_token.cpp:45-49 | One one-character piece makes the singleton set |
| ParseToken.TrailingCommaIgnored | fla-project/src/utils/parse_token.cpp:19-21 | `{a,}` is `{a}`: a single trailing comma adds no empty piece |
| LineSyntax.UnderscoreNotASymbol | fla-project/src/pda/parser.cpp:266-275 | `_` is never a valid symbol, while it is a state-name character |
| LineSyntax.StateNameCharsPlain | fla-project/src/pda/parser.cpp:27 | State names contain no `,`, brace, `;` or whitespace |
| LineSyntax.PrefixNoSemicolon | fla-project/src/pda/parser.cpp:68-80 | A prefix of comment-free text is comment-free |
| LineSyntax.PreprocessedShape | fla-project/src/pda/parser.cpp:68-80 | The result is a prefix of the line with no `;` that does not end in space or tab |
| LineSyntax.TrimTrailingTrimmed | fla-project/src/pda/parser.cpp:79 | Trimming trimmed text changes nothing |
| LineSyntax.PreprocessIdempotent | fla-project/src/pda/parser.cpp:68-80 | `linePreprocess` is idempotent |
| LineSyntax.BlankLineEmpty | fla-project/src/pda/parser.cpp:68-80 | A line that is blank up to its comment becomes empty |
| LineSyntax.BlankTrimsAway | fla-project/src/pda/parser.cpp:79 | Spaces and tabs alone trim to nothing |
| LineSyntax.SkipSpaces | fla-project/src/pda/parser.cpp:95 | Skipping leading whitespace keeps the tokens |
| LineSyntax.Tokenize | fla-project/src/pda/parser.cpp:91-97 | The loop collects exactly the whitespace-separated tokens, in order |
| LineSyntax.TokensOfNonEmpty | fla-project/src/pda/parser.cpp:99-100 | A line with a token has a first character to test |
| LineSyntax.CheckStateNames | fla-project/src/pda/parser.cpp:188-192 | True iff every member matches `[a-zA-Z0-9_]+` |
| LineSyntax.CheckSymbols | fla-project/src/pda/parser.cpp:213-217 | True iff every member is a valid symbol |
| LineSyntax.ReadStateSet | fla-project/src/pda/parser.cpp:185-193 | A `#Q` or `#F` argument: the string set, or a syntax error if a member is not a state name |
| LineSyntax.ReadSymbolSet | fla-project/src/pda/parser.cpp:197-206 | A `#S` or `#G` argument: the character set, or a syntax error if a member is not a valid symbol |
| PushdownParser.BlankLineKeepsContext | fla-project/src/pda/parser.cpp:99-105 | A line without tokens leaves the context unchanged |
| PushdownParser.LeadingSpaceRejected | fla-project/src/pda/parser.cpp:99-102 | A line with tokens that starts with a space throws |
| PushdownParser.UnknownControlRejected | fla-project/src/pda/parser.cpp:108-112 | A first token starting with `#` that is not a control token throws |
| PushdownParser.TransitionArity | fla-project/src/pda/parser.cpp:114-118 | An accepted transition line has exactly 5 tokens |
| PushdownParser.TransitionStoredIfDeclared | fla-project/src/pda/parser.cpp:168-169 | An accepted transition is stored iff its key is declared, and is otherwise silently dropped |
| PushdownParser.EmptyIsParsed | fla-project/src/pda/parser.cpp:43 | A fresh context satisfies the parser's invariant |
| PushdownParser.TransitionKeepsParsed | fla-project/src/pda/parser.cpp:124-169 | Every stored rule has state names and valid symbols |
| PushdownParser.LineKeepsParsed | fla-project/src/pda/parser.cpp:88-264 | Every accepted line keeps that invariant |
| PushdownParser.ParseKeepsParsed | fla-project/src/pda/parser.cpp:48-61 | A whole parse keeps it |
| PushdownParser.ParsedHasNoEpsilonRules | fla-project/src/pda/parser.cpp:208-219 | A parsed description never holds an epsilon rule, and `_` is never an input symbol |
| PushdownParser.CheckAction | fla-project/src/pda/parser.cpp:157-166 | The action is `_` or consists of valid symbols |
| PushdownParser.ParseTransition | fla-project/src/pda/parser.cpp:120-171 | Both states match the state pattern; the input is one valid symbol or `_`; the top is one valid symbol; the action is `_` (empty) or valid symbols; then `addTransition` runs, with its result ignored |
| PushdownParser.ParseControl | fla-project/src/pda/parser.cpp:183-260 | `#Q`/`#F` state sets, `#S`/`#G` symbol sets, `#q0` a state name, `#z0` one valid symbol or `_`; exactly one field is assigned |
| PushdownParser.ParseLine | fla-project/src/pda/parser.cpp:88-264 | The context changes exactly as `LineEffect` says, and is untouched on a syntax error |
| TuringParser.DigitCount | fla-project/src/tm/parser.cpp:170 | The leading run of decimal digits |
| TuringParser.Stoi | fla-project/src/tm/parser.cpp:170 | `stoi`: not a number iff there are no digits after the optional sign; a parsed value lies within `int` |
| TuringParser.Decimal | fla-project/src/tm/parser.cpp:170 | A numeral of `n` is non-empty and all digits |
| TuringParser.DecimalValue | fla-project/src/tm/parser.cpp:170 | Reading a numeral back gives the number |
| TuringParser.StoiDecimal | fla-project/src/tm/parser.cpp:168-178 | `stoi` reads back every numeral of an `int` and refuses a larger one as out of range |
| TuringParser.StoiIgnoresTail | fla-project/src/tm/parser.cpp:170 | Characters after the digits are ignored |
| TuringParser.DigitRunPrefix | fla-project/src/tm/parser.cpp:170 | The digit run stops where the digits stop |
| TuringParser.BlankLineKeepsContext | fla-project/src/tm/parser.cpp:71-77 | A line without tokens leaves the context unchanged |
| TuringParser.LeadingSpaceRejected | fla-project/src/tm/parser.cpp:71-74 | A line with tokens that starts with a space throws |
| TuringParser.NonControlLine | fla-project/src/tm/parser.cpp:82-88 | An unknown `#` token throws; every other non-control line is accepted and ignored |
| TuringParser.ControlArity | fla-project/src/tm/parser.cpp:90-96 | An accepted control line has exactly 3 tokens with `=` second |
| TuringParser.TapeCountDiscarded | fla-project/src/tm/parser.cpp:168-180 | `#N` is accepted iff `stoi` yields a value ≥ 1, and then nothing is stored |
| TuringParser.TapeCountExamples | fla-project/src/tm/parser.cpp:168-180 | `#N = 0` throws; `#N = 2` and `#N = 2x` are accepted and change nothing |
| TuringParser.BlankUnchecked | fla-project/src/tm/parser.cpp:147-153 | `#B` stores the argument's first character as the blank, unchecked |
| TuringParser.TapeAlphabetIgnoresBlank | fla-project/src/tm/parser.cpp:123-134 | `#G` accepts valid symbols or `_` whatever `#B` declared, since `blank_default` is reset on every call |
| TuringParser.LineKeepsTapeNumAndRules | fla-project/src/tm/parser.cpp:61-182 | No line changes tape_num or the rule table |
| TuringParser.ParseKeepsTapeNumAndRules | fla-project/src/tm/parser.cpp:29-41 | A whole parse keeps tape_num and the rules |
| TuringParser.ParsedHasNoRules | fla-project/src/tm/parser.cpp:24-45 | A parsed `.tm` description has no rules, and tape_num is whatever the fresh context held |
| TuringParser.CheckTapeSymbols | fla-project/src/tm/parser.cpp:128-132 | True iff every member is a valid symbol or `_` |
| TuringParser.ReadTapeSymbolSet | fla-project/src/tm/parser.cpp:123-134 | A `#G` argument: the character set, or a syntax error |
| TuringParser.ParseControl | fla-project/src/tm/parser.cpp:98-180 | Each control token checks its argument and assigns at most one field |
| TuringParser.ParseLine | fla-project/src/tm/parser.cpp:61-182 | The context changes exactly as `LineEffect` says, and is untouched on a syntax error |
| Cli.EndsWithIff | fla-project/src/main.cpp:38-43 | `endsWith(s, suf)` iff `s` is some prefix followed by `suf` |
| Cli.ExtensionsExclusive | fla-project/src/main.cpp:106-112 | No name ends in both `.pda` and `.tm` |
| Cli.Positionals | fla-project/src/main.cpp:64-74 | The positionals are no more than the arguments |
| Cli.PositionalsAppend | fla-project/src/main.cpp:64-74 | Positionals of concatenated arguments concatenate |
| Cli.PositionalsAreNonFlags | fla-project/src/main.cpp:64-74 | Every positional is an argument that is not a flag, and flag-free arguments are all positional, in order |
| Cli.NonFlagIsPositional | fla-project/src/main.cpp:64-74 | Every argument that is not a flag is a positional |
| Cli.SingletonPositionals | fla-project/src/main.cpp:64-74 | One argument is kept iff it is not a flag; with `PositionalsAppend` this fixes the positionals and their order for any argument list |
| Cli.ExtrasIgnored | fla-project/src/main.cpp:80-85 | Positionals beyond the second are ignored |
| Cli.HelpAlwaysAccepted | fla-project/src/main.cpp:76-78 | With a help flag the positionals are not checked |
| Cli.ParseArguments | fla-project/src/main.cpp:55-86 | `-h`/`--help` sets help and `-v`/`--verbose` sets verbose; fewer than 2 positionals without help is `invalid_argument`; otherwise file and input are the first two positionals |
| Cli.DispatchByExtension | fla-project/src/main.cpp:106-112 | `.pda` goes to the PDA handler, `.tm` to the TM handler, and anything else is `invalid_argument` |
| Cli.FailureExitsOne | fla-project/src/main.cpp:114-140 | Every caught exception exits with 1 |
| Cli.IllegalInputOnlyQuiet | fla-project/src/main.cpp:114-119 | `illegal input` is printed iff the input was refused and verbose is off |
| Cli.SyntaxAndStructureAlike | fla-project/src/main.cpp:120-140 | Syntax and structure errors both print `syntax error`; only other exceptions print the usage |
| Cli.MainExitCode | fla-project/src/main.cpp:88-143 | The exit code is 0 iff help was requested or a dispatched handler completed normally; otherwise it is 1 |
| Cli.HelpWins | fla-project/src/main.cpp:97-103 | A help flag anywhere exits 0 with the usage |
| Cli.MissingArgumentsReported | fla-project/src/main.cpp:80-82 | Too few positionals without help exits 1 with the usage |

## Left out

- File reading in `PDAParser::parse` and `TMParser::parse` (`ifstream`, line numbers in
  messages) is I/O. `PushdownParser.ParseLines` and `TuringParser.ParseLines` model the
  loop as a fold of `linePreprocess` and `parseLine` over a sequence of lines. A file
  that cannot be opened is the `RuntimeError` kind.
- The handlers `PDAHandler`/`TMHandler`, `printHelp`, all console output and the verbose
  trace are output formatting. In `Cli.Main` the handler's outcome is a parameter.
- Exception message texts and `setLine` are left out. Only the error kinds are modelled.
- The hash functors of both tables are left out. Dafny's map keys compare by value.
- Hash-map iteration order is not modelled. A TM lookup may return any matching entry,
  and `validate` checks the rules in an order the model leaves open.
- `std::regex` is modelled as the character predicate `IsStateName`.
- Non-termination is not modelled. Both runs take a `fuel` step budget and report
  `OutOfFuel` when it is spent while a rule still applies. The C++ loop would go on.
- `getAnswer` is declared in `tm/tape.h` but never defined, so there is nothing to model.
- Integer width is not modelled. C++ `int` is 32 bits, but the model uses unbounded `int`. Signed overflow after 2^31 moves or steps is not modelled for the tape's `head` and `left_idx` (fla-project/include/tm/tape.h:16-17), the TM `step_cnt` (fla-project/src/tm/emulator.cpp:40), or the PDA `step_cnt` and `idx` (fla-project/src/pda/emulator.cpp:39-40).
- The TM context's `tape_num` and `blank_char` and the PDA context's stack start symbol are never initialised by the default construction at fla-project/src/tm/parser.cpp:24 and fla-project/src/pda/parser.cpp:43, so C++ reads indeterminate values. `TuringContext.TMContext.constructor` and `PushdownContext.PDAContext.constructor` take them as parameters instead.
- The PDA context follows fla-project/src/pda/context.cpp, with keys of one input character and one stack character and with `validate`. The header fla-project/include/pda/context.h still declares `std::string` alphabets and a `string`-to-`string` table with no `validate`; that declaration is not modelled.
- Characters are Dafny `char`, not C++ `char`: signedness and bytes above 127 are not
  modelled. `isValidSymbol` compares code points with 32 and 126.
- TM transition lines are never parsed by the source (a TODO), so nothing models them.
- `TuringEmulator.TMEmulator.Run`: the C++ loop indexes `replace_chars` out of range and
  reads out of range for empty input. The model runs the corrected behaviour (see
  Findings), so its contract describes the intended run rather than undefined behaviour.
- `TuringEmulator.TMEmulator.Run`: a run that ends in ACCEPT or HALT returns tape 0's
  non-blank window. The empty string returned in the unreachable other branch is not
  modelled.

## Findings

| source | as written | input that shows it | evidently intended | confidence | as-written member | corrected member |
|---|---|---|---|---|---|---|
| fla-project/src/tm/tape.cpp:17-24 | `init("")` leaves the deque empty, and the first `read()` in `run` indexes it out of range | a TM whose start state is not final, on the empty input: the first `read()` (tape.cpp:33-35, reached at emulator.cpp:50-58) indexes the empty deque | the empty input is a tape holding one blank | not executed | TMTape.LoadedAsWritten (EmptyInitHasNoHeadCell) | TMTape.Loaded |
| fla-project/src/tm/emulator.cpp:47-73 | `replace_chars` is an empty `std::string` that is written with `operator[]` at index `i` for every tape | any step that applies a rule | one replacement symbol per tape: the symbol read where the rule says `*`, otherwise the rule's symbol | not executed | TuringEmulator.ReplaceCharsAsWritten (ReplaceCharsIndexOutOfRange) | TuringEmulator.Replacement (ReplacementMeaning) |
