/** `PDAEmulator`: runs a validated pushdown automaton on an input string. */
module PushdownEmulator {
  import opened Errors
  import opened Emulation
  import opened PushdownContext

  /** A configuration: the state, the stack (top at the end) and the input cursor. */
  datatype PDAConfig = PDAConfig(state: string, stack: seq<char>, idx: nat)

  /** How a run ends; `OutOfFuel` exists only in this model, where runs have a step budget. */
  datatype PDAVerdict = Accepted | Rejected | OutOfFuel

  /** What one iteration of the `run` loop does. */
  datatype PDAStep = Accepts | Rejects | Moves(next: PDAConfig)

  /** A run's verdict and the configuration it ended in. */
  datatype PDAOutcome = PDAOutcome(verdict: PDAVerdict, last: PDAConfig)

  /** `s` in reverse order. */
  function Reversed(s: string): (r: string)
    ensures |r| == |s|
    ensures forall i :: 0 <= i < |s| ==> r[i] == s[|s| - 1 - i]
  {
    if s == [] then [] else Reversed(s[1..]) + [s[0]]
  }

  /** The top of a non-empty stack. */
  function Top(stack: seq<char>): char
    requires stack != []
  {
    stack[|stack| - 1]
  }

  /** Pop the top, then push `action` from its last symbol to its first. */
  function Replaced(stack: seq<char>, action: string): seq<char>
    requires stack != []
  {
    stack[..|stack| - 1] + Reversed(action)
  }

  /** Applying rule result `r` and moving the cursor to `idx`. */
  function Applied(c: PDAConfig, r: PDAQueryResult, idx: nat): PDAConfig
    requires c.stack != []
  {
    PDAConfig(r.nextState, Replaced(c.stack, r.stackAction), idx)
  }

  /**
   * One iteration of the `run` loop: accept when the input is used up in a final state,
   * reject on an empty stack, otherwise the epsilon rule for the stack top, then the rule
   * for the next input symbol, and reject when neither exists.
   */
  function StepOf(spec: PDASpec, input: string, c: PDAConfig): PDAStep {
    if c.idx >= |input| && c.state in spec.finalStates then Accepts
    else if c.stack == [] then Rejects
    else
      var eps := Lookup(spec.delta, PDAKey(c.state, Epsilon, Top(c.stack)));
      if eps.success then Moves(Applied(c, eps, c.idx))
      else if c.idx >= |input| then Rejects
      else
        var r := Lookup(spec.delta, PDAKey(c.state, input[c.idx], Top(c.stack)));
        if r.success then Moves(Applied(c, r, c.idx + 1)) else Rejects
  }

  /** The run from `c` with at most `fuel` steps. */
  function RunFrom(spec: PDASpec, input: string, c: PDAConfig, fuel: nat): PDAOutcome
    decreases fuel
  {
    match StepOf(spec, input, c)
    case Accepts => PDAOutcome(Accepted, c)
    case Rejects => PDAOutcome(Rejected, c)
    case Moves(d) => if fuel == 0 then PDAOutcome(OutOfFuel, c) else RunFrom(spec, input, d, fuel - 1)
  }

  /** The start: the start state, the stack holding only the start symbol, nothing read. */
  function Initial(spec: PDASpec): PDAConfig {
    PDAConfig(spec.startState, [spec.stackStartSymbol], 0)
  }

  /** Acceptance is checked first: exhausted input in a final state accepts, even with an empty stack. */
  lemma AcceptCheckedFirst(spec: PDASpec, input: string, c: PDAConfig)
    requires c.idx >= |input| && c.state in spec.finalStates
    ensures StepOf(spec, input, c) == Accepts
  {
  }

  /** Otherwise an empty stack rejects. */
  lemma EmptyStackRejects(spec: PDASpec, input: string, c: PDAConfig)
    requires c.stack == [] && !(c.idx >= |input| && c.state in spec.finalStates)
    ensures StepOf(spec, input, c) == Rejects
  {
  }

  /** An epsilon rule fires before any input-consuming rule, and does not move the cursor. */
  lemma EpsilonFirst(spec: PDASpec, input: string, c: PDAConfig)
    requires c.stack != [] && !(c.idx >= |input| && c.state in spec.finalStates)
    requires Lookup(spec.delta, PDAKey(c.state, Epsilon, Top(c.stack))).success
    ensures StepOf(spec, input, c).Moves? && StepOf(spec, input, c).next.idx == c.idx
  {
  }

  /** A move either keeps the cursor or advances it by one, and never past the end of the input. */
  lemma StepCursor(spec: PDASpec, input: string, c: PDAConfig)
    requires c.idx <= |input| && StepOf(spec, input, c).Moves?
    ensures c.idx <= StepOf(spec, input, c).next.idx <= c.idx + 1
    ensures StepOf(spec, input, c).next.idx <= |input|
  {
  }

  /** A move consumes input exactly when no epsilon rule applies and the rule for the next symbol does. */
  lemma ConsumingStep(spec: PDASpec, input: string, c: PDAConfig)
    requires StepOf(spec, input, c).Moves? && StepOf(spec, input, c).next.idx == c.idx + 1
    ensures c.stack != [] && c.idx < |input|
    ensures !Lookup(spec.delta, PDAKey(c.state, Epsilon, Top(c.stack))).success
    ensures Lookup(spec.delta, PDAKey(c.state, input[c.idx], Top(c.stack))).success
  {
  }

  /** An empty action is a pure pop. */
  lemma EmptyActionPops(stack: seq<char>)
    requires stack != []
    ensures Replaced(stack, "") == stack[..|stack| - 1]
  {
  }

  /** The first symbol of a non-empty action ends up on top, and its last symbol right above the old rest. */
  lemma ActionHeadOnTop(stack: seq<char>, action: string)
    requires stack != [] && action != []
    ensures Replaced(stack, action) != [] && Top(Replaced(stack, action)) == action[0]
    ensures |Replaced(stack, action)| == |stack| - 1 + |action|
    ensures Replaced(stack, action)[|stack| - 1] == action[|action| - 1]
  {
  }

  /** Under a valid description every symbol pushed by a step is in the stack alphabet. */
  lemma StepKeepsStackSymbols(spec: PDASpec, input: string, c: PDAConfig)
    requires IsValid(spec) && StepOf(spec, input, c).Moves?
    requires forall i :: 1 <= i < |c.stack| ==> c.stack[i] in spec.stackAlphabet
    ensures forall i :: 1 <= i < |StepOf(spec, input, c).next.stack| ==>
      StepOf(spec, input, c).next.stack[i] in spec.stackAlphabet
  {
    var top := Top(c.stack);
    var eps := Lookup(spec.delta, PDAKey(c.state, Epsilon, top));
    var r := if eps.success then eps else Lookup(spec.delta, PDAKey(c.state, input[c.idx], top));
    ValidLookup(spec, if eps.success then PDAKey(c.state, Epsilon, top) else PDAKey(c.state, input[c.idx], top));
    var next := StepOf(spec, input, c).next.stack;
    assert next == c.stack[..|c.stack| - 1] + Reversed(r.stackAction);
    forall i | 1 <= i < |next|
      ensures next[i] in spec.stackAlphabet
    {
      if i >= |c.stack| - 1 {
        assert next[i] == r.stackAction[|r.stackAction| - 1 - (i - (|c.stack| - 1))];
      }
    }
  }

  /** The verdict says how the run stopped: accepted, rejected, or still able to move. */
  lemma {:induction false} RunFromSound(spec: PDASpec, input: string, c: PDAConfig, fuel: nat)
    ensures RunFrom(spec, input, c, fuel).verdict == Accepted <==>
      StepOf(spec, input, RunFrom(spec, input, c, fuel).last) == Accepts
    ensures RunFrom(spec, input, c, fuel).verdict == Rejected <==>
      StepOf(spec, input, RunFrom(spec, input, c, fuel).last) == Rejects
    ensures RunFrom(spec, input, c, fuel).verdict == Accepted ==>
      RunFrom(spec, input, c, fuel).last.idx >= |input| &&
      RunFrom(spec, input, c, fuel).last.state in spec.finalStates
    decreases fuel
  {
    match StepOf(spec, input, c)
    case Accepts =>
    case Rejects =>
    case Moves(d) =>
      if fuel > 0 {
        RunFromSound(spec, input, d, fuel - 1);
      }
  }

  /** The cursor only moves forward and stays within the input. */
  lemma {:induction false} RunFromCursor(spec: PDASpec, input: string, c: PDAConfig, fuel: nat)
    requires c.idx <= |input|
    ensures c.idx <= RunFrom(spec, input, c, fuel).last.idx <= |input|
    decreases fuel
  {
    match StepOf(spec, input, c)
    case Accepts =>
    case Rejects =>
    case Moves(d) =>
      if fuel > 0 {
        StepCursor(spec, input, c);
        RunFromCursor(spec, input, d, fuel - 1);
      }
  }

  /** A run that stopped within its budget gives the same outcome under any larger budget. */
  lemma {:induction false} MoreFuelSameOutcome(spec: PDASpec, input: string, c: PDAConfig, fuel: nat, more: nat)
    requires RunFrom(spec, input, c, fuel).verdict != OutOfFuel
    requires fuel <= more
    ensures RunFrom(spec, input, c, more) == RunFrom(spec, input, c, fuel)
    decreases fuel
  {
    match StepOf(spec, input, c)
    case Accepts =>
    case Rejects =>
    case Moves(d) =>
      MoreFuelSameOutcome(spec, input, d, fuel - 1, more - 1);
  }

  /** The push loop of a step: pop is done, now push `action` from its last symbol to its first. */
  method PushReversed(stack: seq<char>, action: string) returns (s: seq<char>)
    ensures s == stack + Reversed(action)
  {
    s := stack;
    var i := |action| - 1;
    while i >= 0
      invariant -1 <= i < |action|
      invariant s == stack + Reversed(action[i + 1..])
    {
      assert action[i..] == [action[i]] + action[i + 1..];
      assert Reversed(action[i..]) == Reversed(action[i + 1..]) + [action[i]];
      s := s + [action[i]];
      i := i - 1;
    }
    assert action[0..] == action;
  }

  /** `PDAEmulator`: a private copy of a validated description. */
  class PDAEmulator {
    const spec: PDASpec

    /** The object the constructor builds once `validate()` has passed. */
    constructor (spec0: PDASpec)
      requires IsValid(spec0)
      ensures spec == spec0
    {
      spec := spec0;
    }

    /** `PDAEmulator(context)`: throws `AutomataStructureException` iff `validate()` fails. */
    static method Create(context: PDAContext) returns (r: Result<PDAEmulator>)
      ensures r.Err? <==> !IsValid(context.Fields())
      ensures r.Err? ==> r.error == AutomataStructure
      ensures r.Ok? ==> r.value.spec == context.Fields()
    {
      var ok := context.Validate();
      if !ok {
        return Err(AutomataStructure);
      }
      var e := new PDAEmulator(context.Fields());
      return Ok(e);
    }

    /**
     * `run(input)` with a budget of `fuel` steps: an `InputSyntaxError` for a symbol
     * outside the input alphabet, otherwise the verdict of `RunFrom` from `Initial`.
     * The source's `true` is `Accepted`.
     */
    method Run(input: string, fuel: nat) returns (r: Result<PDAVerdict>)
      requires IsValid(spec)
      ensures r.Err? <==> !InAlphabet(input, spec.inputAlphabet)
      ensures r.Err? ==> r.error == InputSyntax(input)
      ensures r.Ok? ==> r.value == RunFrom(spec, input, Initial(spec), fuel).verdict
    {
      var bad := CheckSyntaxError(input, spec.inputAlphabet);
      if bad != -1 {
        return Err(InputSyntax(input));
      }
      var state := spec.startState;
      var stack := [spec.stackStartSymbol];
      var idx: nat := 0;
      var stepCnt := 0;
      var verdict: PDAVerdict;
      while true
        invariant 0 <= stepCnt <= fuel
        invariant RunFrom(spec, input, PDAConfig(state, stack, idx), fuel - stepCnt)
          == RunFrom(spec, input, Initial(spec), fuel)
        decreases fuel - stepCnt
      {
        ghost var c := PDAConfig(state, stack, idx);
        if idx >= |input| && state in spec.finalStates {
          verdict := Accepted;
          break;
        }
        if stack == [] {
          verdict := Rejected;
          break;
        }
        var top := stack[|stack| - 1];
        var result := Lookup(spec.delta, PDAKey(state, Epsilon, top));
        var nextIdx := idx;
        if !result.success {
          if idx >= |input| {
            verdict := Rejected;
            break;
          }
          result := Lookup(spec.delta, PDAKey(state, input[idx], top));
          if !result.success {
            verdict := Rejected;
            break;
          }
          nextIdx := idx + 1;
        }
        assert StepOf(spec, input, c) == Moves(Applied(c, result, nextIdx));
        if stepCnt == fuel {
          verdict := OutOfFuel;
          break;
        }
        state := result.nextState;
        stack := stack[..|stack| - 1];
        stack := PushReversed(stack, result.stackAction);
        idx := nextIdx;
        stepCnt := stepCnt + 1;
      }
      r := Ok(verdict);
    }
  }
}

/** A worked example: the machine that accepts a^n b^n, with and without its epsilon rule. */
module PushdownScenario {
  import opened PushdownContext
  import opened PushdownEmulator

  /** The four input-consuming rules: push `A` per `a`, pop one per `b`. */
  function AnBnRules(): map<PDAKey, PDAValue> {
    map[PDAKey("q0", 'a', 'Z') := PDAValue("q0", "AZ"),
        PDAKey("q0", 'a', 'A') := PDAValue("q0", "AA"),
        PDAKey("q0", 'b', 'A') := PDAValue("q1", ""),
        PDAKey("q1", 'b', 'A') := PDAValue("q1", "")]
  }

  /** The machine with only its input-consuming rules. */
  function AnBn(): PDASpec {
    PDASpec({"q0", "q1"}, "q0", {"q1"}, {'a', 'b'}, {'Z', 'A'}, 'Z', AnBnRules())
  }

  /** The same machine with the rule `q1 _ Z q1 _` that pops the bottom symbol. */
  function AnBnWithEpsilon(): PDASpec {
    AnBn().(delta := AnBnRules()[PDAKey("q1", Epsilon, 'Z') := PDAValue("q1", "")])
  }

  /** The machine without the epsilon rule passes `validate()`; with it, it does not. */
  lemma AnBnValidity()
    ensures IsValid(AnBn())
    ensures !IsValid(AnBnWithEpsilon())
  {
    var c := AnBn();
    forall k | k in c.delta
      ensures KeyOk(c, k) && ValueOk(c, c.delta[k])
    {
    }
    var e := PDAKey("q1", Epsilon, 'Z');
    assert e in AnBnWithEpsilon().delta && !KeyOk(AnBnWithEpsilon(), e);
  }

  /** `aabb` is accepted after four steps with the bottom symbol left on the stack. */
  lemma AabbAccepted()
    ensures RunFrom(AnBn(), "aabb", Initial(AnBn()), 4) == PDAOutcome(Accepted, PDAConfig("q1", "Z", 4))
  {
    var s, w := AnBn(), "aabb";
    assert Reversed("AZ") == "ZA" && Reversed("AA") == "AA" && Reversed("") == "";
    var c0 := Initial(s);
    var c1 := PDAConfig("q0", "ZA", 1);
    var c2 := PDAConfig("q0", "ZAA", 2);
    var c3 := PDAConfig("q1", "ZA", 3);
    var c4 := PDAConfig("q1", "Z", 4);
    assert StepOf(s, w, c0) == Moves(c1);
    assert StepOf(s, w, c1) == Moves(c2);
    assert StepOf(s, w, c2) == Moves(c3);
    assert StepOf(s, w, c3) == Moves(c4);
    assert StepOf(s, w, c4) == Accepts;
    assert RunFrom(s, w, c3, 1) == PDAOutcome(Accepted, c4);
    assert RunFrom(s, w, c2, 2) == PDAOutcome(Accepted, c4);
    assert RunFrom(s, w, c1, 3) == PDAOutcome(Accepted, c4);
  }

  /**
   * `aab` is accepted as well: after `aab` the state `q1` is final and the input is used
   * up, and acceptance is checked before anything else, whatever is left on the stack.
   */
  lemma AabAccepted()
    ensures RunFrom(AnBn(), "aab", Initial(AnBn()), 3) == PDAOutcome(Accepted, PDAConfig("q1", "ZA", 3))
    ensures RunFrom(AnBnWithEpsilon(), "aab", Initial(AnBnWithEpsilon()), 3) == PDAOutcome(Accepted, PDAConfig("q1", "ZA", 3))
  {
    assert Reversed("AZ") == "ZA" && Reversed("AA") == "AA" && Reversed("") == "";
    var c1 := PDAConfig("q0", "ZA", 1);
    var c2 := PDAConfig("q0", "ZAA", 2);
    var c3 := PDAConfig("q1", "ZA", 3);
    var s := AnBn();
    assert StepOf(s, "aab", Initial(s)) == Moves(c1);
    assert StepOf(s, "aab", c1) == Moves(c2);
    assert StepOf(s, "aab", c2) == Moves(c3);
    assert StepOf(s, "aab", c3) == Accepts;
    assert RunFrom(s, "aab", c2, 1) == PDAOutcome(Accepted, c3);
    var e := AnBnWithEpsilon();
    assert StepOf(e, "aab", Initial(e)) == Moves(c1);
    assert StepOf(e, "aab", c1) == Moves(c2);
    assert StepOf(e, "aab", c2) == Moves(c3);
    assert StepOf(e, "aab", c3) == Accepts;
    assert RunFrom(e, "aab", c2, 1) == PDAOutcome(Accepted, c3);
  }

  /** `ab` followed by another `b` finds no rule in `q1` with `Z` on top and is rejected. */
  lemma AbbRejected()
    ensures RunFrom(AnBn(), "abb", Initial(AnBn()), 3).verdict == Rejected
  {
    assert Reversed("AZ") == "ZA" && Reversed("") == "";
    var s, w := AnBn(), "abb";
    var c1 := PDAConfig("q0", "ZA", 1);
    var c2 := PDAConfig("q1", "Z", 2);
    assert StepOf(s, w, Initial(s)) == Moves(c1);
    assert StepOf(s, w, c1) == Moves(c2);
    assert StepOf(s, w, c2) == Rejects;
    assert RunFrom(s, w, c1, 2) == PDAOutcome(Rejected, c2);
  }
}
