/**
 * `TMEmulator`: runs a validated multi-tape Turing machine description on an input
 * string and returns the non-blank part of the first tape.
 */
module TuringEmulator {
  import opened Errors
  import opened Emulation
  import opened TMTape
  import opened TMTranKV
  import opened TuringContext

  /** A configuration: the current state and every tape. */
  datatype TMConfig = TMConfig(state: string, tapes: seq<TapeState>)

  /**
   * How a run ends: a final state was reached, no rule applied, or (only in this model)
   * the step budget was spent while a rule still applied.
   */
  datatype TMStop = Accept | Halt | OutOfFuel

  /** What `run` reports: how it ended and the text it returns. */
  datatype TMRun = TMRun(stop: TMStop, output: string)

  /** Every head is on a stored cell. */
  predicate AllInRange(tapes: seq<TapeState>) {
    forall i :: 0 <= i < |tapes| ==> HeadInRange(tapes[i])
  }

  /** The lookup string: the symbol under each head, in tape order. */
  function Heads(tapes: seq<TapeState>): string {
    seq(|tapes|, i requires 0 <= i < |tapes| => HeadSymbol(tapes[i], DefaultBlank))
  }

  /** The key looked up in configuration `c`. */
  function LookupKey(c: TMConfig): TMKey {
    TMKey(c.state, Heads(c.tapes))
  }

  /** What a tape gets written: the rule's symbol, or for `*` the symbol just read. */
  function Effective(read: char, rule: char): char {
    if rule == Wildcard then read else rule
  }

  /** The intended contents of `replace_chars`: one effective symbol per tape. */
  function Replacement(inputChars: string, ruleChars: string): string
    requires |ruleChars| >= |inputChars|
  {
    seq(|inputChars|, i requires 0 <= i < |inputChars| => Effective(inputChars[i], ruleChars[i]))
  }

  /**
   * `replace_chars` as the source declares it: an empty string. Assigning through
   * `operator[]` does not grow a string, so it stays empty.
   */
  const ReplaceCharsAsWritten: string := ""

  /** Every index the replacement loop writes is outside `replace_chars` as written. */
  lemma ReplaceCharsIndexOutOfRange(inputChars: string, i: int)
    requires 0 <= i < |inputChars|
    ensures !(i < |ReplaceCharsAsWritten|)
  {
  }

  /** The intended replacement has one symbol per tape, the read one where the rule says `*`. */
  lemma ReplacementMeaning(inputChars: string, ruleChars: string, i: int)
    requires |ruleChars| >= |inputChars| && 0 <= i < |inputChars|
    ensures |Replacement(inputChars, ruleChars)| == |inputChars|
    ensures ruleChars[i] == Wildcard ==> Replacement(inputChars, ruleChars)[i] == inputChars[i]
    ensures ruleChars[i] != Wildcard ==> Replacement(inputChars, ruleChars)[i] == ruleChars[i]
  {
  }

  /** One tape move; the emulator's tapes always use the default blank. */
  function Moved(t: TapeState, d: Direction): TapeState {
    match d
    case Left => MovedLeft(t, DefaultBlank)
    case Right => MovedRight(t, DefaultBlank)
    case Stay => t
  }

  /** The rule has one replacement symbol and one direction per tape. */
  predicate Fits(v: TMValue, n: nat) {
    |v.replaceChars| == n && |v.directions| == n
  }

  /** The tapes after rule value `v`: every tape written, then every tape moved. */
  function ApplyTapes(tapes: seq<TapeState>, v: TMValue): (r: seq<TapeState>)
    requires AllInRange(tapes) && Fits(v, |tapes|)
    ensures |r| == |tapes| && AllInRange(r)
  {
    var rep := Replacement(Heads(tapes), v.replaceChars);
    seq(|tapes|, i requires 0 <= i < |tapes| => Moved(Written(tapes[i], rep[i]), v.directions[i]))
  }

  /** One step with rule value `v`: the tapes change as `ApplyTapes` says and the state becomes the rule's. */
  function Apply(c: TMConfig, v: TMValue): (d: TMConfig)
    requires AllInRange(c.tapes) && Fits(v, |c.tapes|)
    ensures d.state == v.nextState && |d.tapes| == |c.tapes| && AllInRange(d.tapes)
  {
    TMConfig(v.nextState, ApplyTapes(c.tapes, v))
  }

  /** `c` is not final and the stored rule `k` applies to it. */
  ghost predicate StepsWith(spec: TMSpec, c: TMConfig, k: TMKey) {
    && c.state !in spec.finalStates
    && AllInRange(c.tapes)
    && Applicable(spec.delta, LookupKey(c), k)
    && Fits(spec.delta[k], |c.tapes|)
  }

  /** One iteration of the `run` loop that does not stop: `c` becomes `d`. */
  ghost predicate Step(spec: TMSpec, c: TMConfig, d: TMConfig) {
    exists k :: StepsWith(spec, c, k) && d == Apply(c, spec.delta[k])
  }

  /** The loop stops with HALT at `c`: not final, and no rule applies. */
  ghost predicate Halted(spec: TMSpec, c: TMConfig) {
    c.state !in spec.finalStates && forall k :: !Applicable(spec.delta, LookupKey(c), k)
  }

  /** `d` is reached from `c` in exactly `n` steps. */
  ghost predicate ReachesIn(spec: TMSpec, c: TMConfig, d: TMConfig, n: nat)
    decreases n
  {
    if n == 0 then c == d else exists m :: Step(spec, c, m) && ReachesIn(spec, m, d, n - 1)
  }

  /** A run extended by one more step. */
  lemma {:induction false} ReachesStep(spec: TMSpec, c: TMConfig, d: TMConfig, e: TMConfig, n: nat)
    requires ReachesIn(spec, c, d, n) && Step(spec, d, e)
    ensures ReachesIn(spec, c, e, n + 1)
    decreases n
  {
    if n > 0 {
      var m :| Step(spec, c, m) && ReachesIn(spec, m, d, n - 1);
      ReachesStep(spec, m, d, e, n - 1);
    }
  }

  /**
   * When every configuration of `trace` has only the next one as successor (and the last
   * has none), a run from `trace[i]` stays on the trace.
   */
  lemma {:induction false} ForcedTrace(spec: TMSpec, trace: seq<TMConfig>, i: nat, d: TMConfig, n: nat)
    requires i < |trace|
    requires forall j, m :: 0 <= j < |trace| && Step(spec, trace[j], m) ==> j + 1 < |trace| && m == trace[j + 1]
    requires ReachesIn(spec, trace[i], d, n)
    ensures i + n < |trace| && d == trace[i + n]
    decreases n
  {
    if n > 0 {
      var m :| Step(spec, trace[i], m) && ReachesIn(spec, m, d, n - 1);
      ForcedTrace(spec, trace, i + 1, d, n - 1);
    }
  }

  /**
   * The starting configuration: the start state, tape 0 holding the input, and the
   * other tapes blank, all with the default blank `'_'` whatever `#B` says.
   */
  function Initial(spec: TMSpec, input: string): (c: TMConfig)
    requires spec.tapeNum > 0
    ensures c.state == spec.startState && |c.tapes| == spec.tapeNum && AllInRange(c.tapes)
    ensures c.tapes[0] == Loaded(input, DefaultBlank)
    ensures forall i :: 1 <= i < spec.tapeNum ==> c.tapes[i] == Blank(DefaultBlank)
  {
    TMConfig(spec.startState, [Loaded(input, DefaultBlank)] + seq(spec.tapeNum - 1, _ => Blank(DefaultBlank)))
  }

  /** How the run ends at `c` after `steps` of at most `fuel` steps. */
  ghost predicate StopsAs(spec: TMSpec, c: TMConfig, stop: TMStop, steps: nat, fuel: nat) {
    match stop
    case Accept => c.state in spec.finalStates
    case Halt => Halted(spec, c)
    case OutOfFuel => steps == fuel && c.state !in spec.finalStates && !Halted(spec, c)
  }

  /** In a final state the loop takes no step: acceptance is checked before any read. */
  lemma FinalTakesNoStep(spec: TMSpec, c: TMConfig, d: TMConfig)
    requires c.state in spec.finalStates
    ensures !Step(spec, c, d)
  {
  }

  /** A halted configuration takes no step. */
  lemma HaltedTakesNoStep(spec: TMSpec, c: TMConfig, d: TMConfig)
    requires Halted(spec, c)
    ensures !Step(spec, c, d)
  {
  }

  /** When at most one stored rule applies, the step is determined. */
  lemma StepDeterministic(spec: TMSpec, c: TMConfig, d1: TMConfig, d2: TMConfig)
    requires forall k1, k2 :: Applicable(spec.delta, LookupKey(c), k1) && Applicable(spec.delta, LookupKey(c), k2) ==> k1 == k2
    requires Step(spec, c, d1) && Step(spec, c, d2)
    ensures d1 == d2
  {
    var k1 :| StepsWith(spec, c, k1) && d1 == Apply(c, spec.delta[k1]);
    var k2 :| StepsWith(spec, c, k2) && d2 == Apply(c, spec.delta[k2]);
    assert k1 == k2;
  }

  /** A `*` replacement leaves its tape as it was, apart from the move. */
  lemma WildcardKeepsTape(c: TMConfig, v: TMValue, i: int)
    requires AllInRange(c.tapes) && Fits(v, |c.tapes|) && 0 <= i < |c.tapes|
    requires v.replaceChars[i] == Wildcard
    ensures Apply(c, v).tapes[i] == Moved(c.tapes[i], v.directions[i])
  {
    WriteBackUnchanged(c.tapes[i], DefaultBlank);
  }

  /** Under a valid description every stored rule fits the machine's tapes. */
  lemma ValidRulesFit(spec: TMSpec, k: TMKey)
    requires IsValid(spec) && k in spec.delta
    ensures Fits(spec.delta[k], spec.tapeNum)
  {
    assert RuleOk(spec, k, spec.delta[k]);
  }

  /** No two tapes are the same object. */
  ghost predicate Distinct(tapes: seq<Tape>) {
    forall i, j :: 0 <= i < j < |tapes| ==> tapes[i] != tapes[j]
  }

  /** The tapes hold `views`, one for one. */
  ghost predicate Holds(tapes: seq<Tape>, views: seq<TapeState>)
    reads set t | t in tapes
  {
    |tapes| == |views| && forall i :: 0 <= i < |tapes| ==> tapes[i].State() == views[i]
  }

  /** `std::vector<TMTape> tapes(n)`: `n` new tapes with the default blank. */
  method NewTapes(n: nat) returns (tapes: seq<Tape>)
    ensures |tapes| == n && Distinct(tapes)
    ensures forall i :: 0 <= i < n ==> fresh(tapes[i])
    ensures forall i :: 0 <= i < n ==> tapes[i].blank == DefaultBlank && tapes[i].State() == Blank(DefaultBlank)
  {
    tapes := [];
    while |tapes| < n
      invariant |tapes| <= n && Distinct(tapes)
      invariant forall i :: 0 <= i < |tapes| ==> fresh(tapes[i])
      invariant forall i :: 0 <= i < |tapes| ==> tapes[i].blank == DefaultBlank && tapes[i].State() == Blank(DefaultBlank)
    {
      var t := new Tape();
      tapes := tapes + [t];
    }
  }

  /** The read loop of `run`: the symbol under every head, concatenated in tape order. */
  method ReadHeads(tapes: seq<Tape>) returns (s: string)
    requires forall i :: 0 <= i < |tapes| ==> HeadInRange(tapes[i].State()) && tapes[i].blank == DefaultBlank
    ensures |s| == |tapes|
    ensures forall i :: 0 <= i < |tapes| ==> s[i] == HeadSymbol(tapes[i].State(), DefaultBlank)
  {
    s := "";
    var i := 0;
    while i < |tapes|
      invariant 0 <= i <= |tapes| && |s| == i
      invariant forall j :: 0 <= j < i ==> s[j] == HeadSymbol(tapes[j].State(), DefaultBlank)
    {
      var c := tapes[i].Read();
      s := s + [c];
      i := i + 1;
    }
  }

  /** The replacement loop of `run`, computing on each index what the source means to. */
  method ComputeReplacement(inputChars: string, ruleChars: string) returns (rep: string)
    requires |ruleChars| >= |inputChars|
    ensures rep == Replacement(inputChars, ruleChars)
  {
    rep := "";
    var i := 0;
    while i < |inputChars|
      invariant 0 <= i <= |inputChars| && |rep| == i
      invariant forall j :: 0 <= j < i ==> rep[j] == Effective(inputChars[j], ruleChars[j])
    {
      if ruleChars[i] == Wildcard {
        rep := rep + [inputChars[i]];
      } else {
        rep := rep + [ruleChars[i]];
      }
      i := i + 1;
    }
  }

  /** The write loop of `run`: tape `i` gets `rep[i]`. */
  method WriteAll(tapes: seq<Tape>, rep: string)
    requires |rep| == |tapes| && Distinct(tapes)
    requires forall i :: 0 <= i < |tapes| ==> HeadInRange(tapes[i].State())
    modifies set t | t in tapes
    ensures forall i :: 0 <= i < |tapes| ==> tapes[i].State() == Written(old(tapes[i].State()), rep[i])
  {
    var i := 0;
    while i < |tapes|
      invariant 0 <= i <= |tapes|
      invariant forall j :: 0 <= j < i ==> tapes[j].State() == Written(old(tapes[j].State()), rep[j])
      invariant forall j :: i <= j < |tapes| ==> tapes[j].State() == old(tapes[j].State())
    {
      tapes[i].Write(rep[i]);
      i := i + 1;
    }
  }

  /** The move loop of `run`: tape `i` moves by `dirs[i]`. */
  method MoveAll(tapes: seq<Tape>, dirs: seq<Direction>)
    requires |dirs| == |tapes| && Distinct(tapes)
    requires forall i :: 0 <= i < |tapes| ==> tapes[i].blank == DefaultBlank
    modifies set t | t in tapes
    ensures forall i :: 0 <= i < |tapes| ==> tapes[i].State() == Moved(old(tapes[i].State()), dirs[i])
  {
    var i := 0;
    while i < |tapes|
      invariant 0 <= i <= |tapes|
      invariant forall j :: 0 <= j < i ==> tapes[j].State() == Moved(old(tapes[j].State()), dirs[j])
      invariant forall j :: i <= j < |tapes| ==> tapes[j].State() == old(tapes[j].State())
    {
      match dirs[i] {
        case Left => tapes[i].MoveLeft();
        case Right => tapes[i].MoveRight();
        case Stay =>
      }
      i := i + 1;
    }
  }

  /** The body of one `run` step on the tapes: replacement, writes, moves. */
  method ApplyRule(tapes: seq<Tape>, ghost views: seq<TapeState>, inputChars: string, v: TMValue)
    requires Distinct(tapes) && Holds(tapes, views) && AllInRange(views) && Fits(v, |views|)
    requires inputChars == Heads(views)
    requires forall i :: 0 <= i < |tapes| ==> tapes[i].blank == DefaultBlank
    modifies set t | t in tapes
    ensures Holds(tapes, ApplyTapes(views, v))
  {
    var replace := ComputeReplacement(inputChars, v.replaceChars);
    WriteAll(tapes, replace);
    MoveAll(tapes, v.directions);
  }

  /** A successful query names a stored rule that makes a step; it fits under a valid description. */
  lemma FoundRule(spec: TMSpec, c: TMConfig, r: TMQueryResult) returns (k: TMKey)
    requires IsValid(spec) && |c.tapes| == spec.tapeNum && AllInRange(c.tapes)
    requires c.state !in spec.finalStates
    requires IsQueryAnswer(spec.delta, LookupKey(c), r) && r.success
    ensures StepsWith(spec, c, k) && spec.delta[k] == TMValue(r.nextState, r.replaceChars, r.directions)
  {
    k :| Applicable(spec.delta, LookupKey(c), k) && r == Found(spec.delta[k]);
    ValidRulesFit(spec, k);
  }

  /** A failed query in a non-final state is HALT. */
  lemma NotFoundHalts(spec: TMSpec, c: TMConfig, r: TMQueryResult)
    requires c.state !in spec.finalStates
    requires IsQueryAnswer(spec.delta, LookupKey(c), r) && !r.success
    ensures Halted(spec, c)
  {
  }

  /** Taking the step with rule `k` extends the run by one and leaves a non-halted configuration behind. */
  lemma StepTaken(spec: TMSpec, init: TMConfig, c: TMConfig, k: TMKey, n: nat)
    requires ReachesIn(spec, init, c, n) && StepsWith(spec, c, k)
    ensures ReachesIn(spec, init, Apply(c, spec.delta[k]), n + 1)
    ensures !Halted(spec, c)
  {
    assert Step(spec, c, Apply(c, spec.delta[k]));
    ReachesStep(spec, init, c, Apply(c, spec.delta[k]), n);
  }

  /**
   * The loop of `run` from configuration `init` held by `tapes`: it stops at a final
   * state, at a failed lookup, or (in this model) after `fuel` steps.
   */
  method Execute(spec: TMSpec, tapes: seq<Tape>, start: string, fuel: nat, ghost init: TMConfig)
    returns (stop: TMStop, ghost final: TMConfig, ghost steps: nat)
    requires IsValid(spec) && |tapes| == spec.tapeNum && Distinct(tapes) && init.state == start
    requires forall i :: 0 <= i < |tapes| ==> tapes[i].blank == DefaultBlank
    requires Holds(tapes, init.tapes) && AllInRange(init.tapes)
    modifies set t | t in tapes
    ensures steps <= fuel && ReachesIn(spec, init, final, steps)
    ensures StopsAs(spec, final, stop, steps, fuel)
    ensures Holds(tapes, final.tapes) && AllInRange(final.tapes)
  {
    var state := start;
    var stepCnt := 0;
    ghost var cfg := init;
    while true
      invariant 0 <= stepCnt <= fuel
      invariant cfg.state == state && Holds(tapes, cfg.tapes) && AllInRange(cfg.tapes)
      invariant ReachesIn(spec, init, cfg, stepCnt)
      decreases fuel - stepCnt
    {
      if state in spec.finalStates {
        stop := Accept;
        break;
      }
      var inputChars := ReadHeads(tapes);
      assert inputChars == Heads(cfg.tapes);
      var result := QueryTable(spec.delta, TMKey(state, inputChars));
      if !result.success {
        NotFoundHalts(spec, cfg, result);
        stop := Halt;
        break;
      }
      ghost var k := FoundRule(spec, cfg, result);
      StepTaken(spec, init, cfg, k, stepCnt);
      if stepCnt == fuel {
        stop := OutOfFuel;
        break;
      }
      ApplyRule(tapes, cfg.tapes, inputChars, TMValue(result.nextState, result.replaceChars, result.directions));
      state := result.nextState;
      stepCnt := stepCnt + 1;
      cfg := Apply(cfg, spec.delta[k]);
    }
    final, steps := cfg, stepCnt;
  }

  /** `TMEmulator`: a private copy of a validated description. */
  class TMEmulator {
    const spec: TMSpec

    /** The object the constructor builds once `validate()` has passed. */
    constructor (spec0: TMSpec)
      requires IsValid(spec0)
      ensures spec == spec0
    {
      spec := spec0;
    }

    /** `TMEmulator(context)`: throws `AutomataStructureException` iff `validate()` fails. */
    static method Create(context: TMContext) returns (r: Result<TMEmulator>)
      ensures r.Err? <==> !IsValid(context.Fields())
      ensures r.Err? ==> r.error == AutomataStructure
      ensures r.Ok? ==> r.value.spec == context.Fields()
    {
      var ok := context.Validate();
      if !ok {
        return Err(AutomataStructure);
      }
      var e := new TMEmulator(context.Fields());
      return Ok(e);
    }

    /**
     * `run(input)` with a budget of `fuel` steps. An input symbol outside the input
     * alphabet is an `InputSyntaxError`. Otherwise the run follows `Step` from `Initial`
     * until a final state (ACCEPT), no applicable rule (HALT) or the budget; the output
     * is the non-blank window of tape 0 in every case. `final` and `steps` are the
     * configuration it stopped in and the number of steps taken.
     */
    method Run(input: string, fuel: nat) returns (r: Result<TMRun>, ghost final: TMConfig, ghost steps: nat)
      requires IsValid(spec)
      ensures r.Err? <==> !InAlphabet(input, spec.inputAlphabet)
      ensures r.Err? ==> r.error == InputSyntax(input)
      ensures r.Ok? ==> steps <= fuel && ReachesIn(spec, Initial(spec, input), final, steps)
      ensures r.Ok? ==> StopsAs(spec, final, r.value.stop, steps, fuel)
      ensures r.Ok? ==> |final.tapes| == spec.tapeNum
      ensures r.Ok? ==> exists idx :: IsNonBlankWindow(final.tapes[0], DefaultBlank, r.value.output, idx)
    {
      var tapes := NewTapes(spec.tapeNum);
      tapes[0].InitPadded(input);
      ghost var init := Initial(spec, input);
      assert Holds(tapes, init.tapes);
      final, steps := init, 0;
      var bad := CheckSyntaxError(input, spec.inputAlphabet);
      if bad != -1 {
        return Err(InputSyntax(input)), final, steps;
      }
      var stop;
      stop, final, steps := Execute(spec, tapes, spec.startState, fuel, init);
      var output := tapes[0].GetNonBlankText();
      r := Ok(TMRun(stop, output));
    }
  }
}

/** A worked example: a one-tape machine that appends a `1` to a block of `1`s. */
module TuringScenario {
  import opened TMTape
  import opened TMTranKV
  import opened TuringContext
  import opened TuringEmulator

  /** Walk right over the `1`s; on the first blank write `1` and stop in `qf`. */
  function Increment(): TMSpec {
    TMSpec({"q0", "qf"}, {'1'}, {'1', '_'}, "q0", {"qf"}, 1, '_',
      map[TMKey("q0", "1") := TMValue("q0", "1", [Right]),
          TMKey("q0", "_") := TMValue("qf", "1", [Stay])])
  }

  /** The description passes `validate()`. */
  lemma IncrementValid()
    ensures IsValid(Increment())
  {
    var c := Increment();
    forall k | k in c.delta
      ensures RuleOk(c, k, c.delta[k])
    {
    }
  }

  /** The configuration after `i` steps on input `111`. */
  function Conf(i: nat): TMConfig
    requires i <= 4
  {
    TMConfig(if i == 4 then "qf" else "q0",
      [TapeState(if i <= 2 then "111" else if i == 3 then "111_" else "1111", 0, if i == 4 then 3 else i)])
  }

  /** The rule that applies after `i` steps. */
  function RuleAt(i: nat): TMKey {
    if i < 3 then TMKey("q0", "1") else TMKey("q0", "_")
  }

  /** Before the fourth step exactly one rule applies, and it leads to the next configuration. */
  lemma StepAt(i: nat)
    requires i < 4
    ensures StepsWith(Increment(), Conf(i), RuleAt(i))
    ensures Apply(Conf(i), Increment().delta[RuleAt(i)]) == Conf(i + 1)
    ensures forall k :: Applicable(Increment().delta, LookupKey(Conf(i)), k) ==> k == RuleAt(i)
  {
    var s, c := Increment(), Conf(i);
    var t := c.tapes[0];
    assert HeadSymbol(t, DefaultBlank) == (if i < 3 then '1' else '_');
    assert Heads(c.tapes) == [HeadSymbol(t, DefaultBlank)];
    assert Matches(Heads(c.tapes), RuleAt(i).inputChars);
    var v := s.delta[RuleAt(i)];
    assert Replacement(Heads(c.tapes), v.replaceChars) == "1";
    var w := Written(t, '1');
    if i < 2 {
      assert w == TapeState("111", 0, i) && v.directions[0] == Right;
    } else if i == 2 {
      assert w == TapeState("111", 0, 2) && v.directions[0] == Right;
      assert MovedRight(w, DefaultBlank) == TapeState("111" + "_", 0, 3);
    } else {
      assert w.cells == "1111" && v.directions[0] == Stay;
    }
    assert Moved(w, v.directions[0]) == Conf(i + 1).tapes[0];
    assert ApplyTapes(c.tapes, v) == [Moved(w, v.directions[0])];
  }

  /** The only step from configuration `i` leads to configuration `i + 1`; from the last there is none. */
  lemma StepOnly(i: nat, m: TMConfig)
    requires i <= 4 && Step(Increment(), Conf(i), m)
    ensures i < 4 && m == Conf(i + 1)
  {
    var s := Increment();
    var k :| StepsWith(s, Conf(i), k) && m == Apply(Conf(i), s.delta[k]);
    if i == 4 {
      assert false;
    }
    StepAt(i);
  }

  /** From configuration `i` the run can only follow the configurations after it. */
  lemma OnlyTrace(i: nat, d: TMConfig, n: nat)
    requires i <= 4 && ReachesIn(Increment(), Conf(i), d, n)
    ensures i + n <= 4 && d == Conf(i + n)
  {
    var trace := seq(5, j requires 0 <= j <= 4 => Conf(j));
    forall j, m | 0 <= j < |trace| && Step(Increment(), trace[j], m)
      ensures j + 1 < |trace| && m == trace[j + 1]
    {
      StepOnly(j, m);
    }
    ForcedTrace(Increment(), trace, i, d, n);
  }

  /** Before the fourth step the run is neither in a final state nor halted. */
  lemma RunsOn(i: nat)
    requires i < 4
    ensures Conf(i).state !in Increment().finalStates && !Halted(Increment(), Conf(i))
  {
    StepAt(i);
  }

  /** The non-blank window of the last configuration is `1111` from position 0. */
  lemma LastWindow()
    ensures IsNonBlankWindow(Conf(4).tapes[0], DefaultBlank, "1111", 0)
  {
    var t := Conf(4).tapes[0];
    CellsWindow(t, DefaultBlank, 0, 3);
    assert t.cells[0..4] == "1111";
  }

  /**
   * Every run on `111` with a budget of at least four steps accepts, and the output it
   * reports is `1111`.
   */
  lemma IncrementOutput(fuel: nat, final: TMConfig, steps: nat, stop: TMStop, out: string, idx: int)
    requires fuel >= 4 && steps <= fuel
    requires ReachesIn(Increment(), Initial(Increment(), "111"), final, steps)
    requires StopsAs(Increment(), final, stop, steps, fuel)
    requires |final.tapes| == 1 && IsNonBlankWindow(final.tapes[0], DefaultBlank, out, idx)
    ensures stop == Accept && out == "1111" && idx == 0
  {
    assert Initial(Increment(), "111") == Conf(0);
    OnlyTrace(0, final, steps);
    if steps < 4 {
      RunsOn(steps);
      assert false;
    }
    LastWindow();
    WindowUnique(Conf(4).tapes[0], DefaultBlank, out, idx, "1111", 0);
  }
}
