/** The description of a pushdown automaton that the parser fills in and the emulator runs. */
module PushdownContext {
  import opened Emulation

  /** The input symbol of an unconditional (epsilon) rule. */
  const Epsilon: char := '_'

  /** A rule's key: exact state, input symbol and stack top. */
  datatype PDAKey = PDAKey(state: string, input: char, stackTop: char)

  /** A rule's value: the next state and the symbols that replace the stack top. */
  datatype PDAValue = PDAValue(nextState: string, stackAction: string)

  /** What `getTransition` returns; a failed lookup has empty strings. */
  datatype PDAQueryResult = PDAQueryResult(nextState: string, stackAction: string, success: bool)

  const PDANotFound: PDAQueryResult := PDAQueryResult("", "", false)

  /** The fields of a `PDAContext`, as one value. */
  datatype PDASpec = PDASpec(
    states: set<string>,
    startState: string,
    finalStates: set<string>,
    inputAlphabet: set<char>,
    stackAlphabet: set<char>,
    stackStartSymbol: char,
    delta: map<PDAKey, PDAValue>)

  /** What both `validate` and `addTransition` demand of a key. */
  predicate KeyOk(c: PDASpec, k: PDAKey) {
    k.state in c.states && k.input in c.inputAlphabet && k.stackTop in c.stackAlphabet
  }

  /** What `validate` demands of a stored value. */
  predicate ValueOk(c: PDASpec, v: PDAValue) {
    v.nextState in c.states && InAlphabet(v.stackAction, c.stackAlphabet)
  }

  /** What `validate` demands of the whole description; the stack start symbol is not checked. */
  predicate IsValid(c: PDASpec) {
    && c.startState in c.states
    && c.finalStates <= c.states
    && forall k :: k in c.delta ==> KeyOk(c, k) && ValueOk(c, c.delta[k])
  }

  /** `getTransition(key)`: the stored rule for exactly `key`, unless its next state is empty. */
  function Lookup(delta: map<PDAKey, PDAValue>, key: PDAKey): PDAQueryResult {
    if key in delta && delta[key].nextState != "" then
      PDAQueryResult(delta[key].nextState, delta[key].stackAction, true)
    else
      PDANotFound
  }

  /** The last rule stored for a key is the one found: a later store overwrites an earlier one. */
  lemma LookupAfterStore(delta: map<PDAKey, PDAValue>, k: PDAKey, v: PDAValue)
    requires v.nextState != ""
    ensures Lookup(delta[k := v], k) == PDAQueryResult(v.nextState, v.stackAction, true)
  {
  }

  /** Storing a rule does not change the lookup of any other key. */
  lemma LookupOtherKey(delta: map<PDAKey, PDAValue>, k: PDAKey, v: PDAValue, other: PDAKey)
    requires other != k
    ensures Lookup(delta[k := v], other) == Lookup(delta, other)
  {
  }

  /** A successful lookup returns a stored rule with a non-empty next state; a failed one returns the empty result. */
  lemma LookupFindsStored(delta: map<PDAKey, PDAValue>, key: PDAKey)
    ensures Lookup(delta, key).success <==> key in delta && delta[key].nextState != ""
    ensures Lookup(delta, key).success ==>
      delta[key] == PDAValue(Lookup(delta, key).nextState, Lookup(delta, key).stackAction)
    ensures !Lookup(delta, key).success ==> Lookup(delta, key) == PDANotFound
  {
  }

  /**
   * Under a valid description a successful lookup was keyed by alphabet symbols and
   * leads to a state with an action over the stack alphabet.
   */
  lemma ValidLookup(c: PDASpec, key: PDAKey)
    requires IsValid(c) && Lookup(c.delta, key).success
    ensures KeyOk(c, key)
    ensures Lookup(c.delta, key).nextState in c.states
    ensures InAlphabet(Lookup(c.delta, key).stackAction, c.stackAlphabet)
  {
    assert key in c.delta && KeyOk(c, key) && ValueOk(c, c.delta[key]);
  }

  /** When `'_'` is not an input symbol, no epsilon rule can be stored or validated. */
  lemma EpsilonKeyRejected(c: PDASpec, state: string, stackTop: char)
    requires Epsilon !in c.inputAlphabet
    ensures !KeyOk(c, PDAKey(state, Epsilon, stackTop))
    ensures IsValid(c) ==> Lookup(c.delta, PDAKey(state, Epsilon, stackTop)) == PDANotFound
  {
  }

  /** `PDAContext`: public fields that the parser assigns one by one. */
  class PDAContext {
    var states: set<string>
    var startState: string
    var finalStates: set<string>
    var inputAlphabet: set<char>
    var stackAlphabet: set<char>
    var stackStartSymbol: char
    var transitions: map<PDAKey, PDAValue>

    /** The value of every field. */
    function Fields(): PDASpec
      reads this
    {
      PDASpec(states, startState, finalStates, inputAlphabet, stackAlphabet, stackStartSymbol, transitions)
    }

    /**
     * A default-initialised `PDAContext`: empty sets, strings and table. C++ leaves
     * `stack_start_symbol` uninitialised, so its value is a parameter here.
     */
    constructor (stackStartSymbol0: char)
      ensures Fields() == PDASpec({}, "", {}, {}, {}, stackStartSymbol0, map[])
    {
      states, startState, finalStates := {}, "", {};
      inputAlphabet, stackAlphabet := {}, {};
      stackStartSymbol := stackStartSymbol0;
      transitions := map[];
    }

    /** `validate()`: start and final states, then every stored rule. */
    method Validate() returns (ok: bool)
      ensures ok == IsValid(Fields())
    {
      if startState !in states || !(finalStates <= states) {
        return false;
      }
      var rest := transitions.Keys;
      while rest != {}
        invariant rest <= transitions.Keys
        invariant forall k :: k in transitions && k !in rest ==> KeyOk(Fields(), k) && ValueOk(Fields(), transitions[k])
        decreases rest
      {
        var k :| k in rest;
        var v := transitions[k];
        if k.state !in states || k.input !in inputAlphabet || k.stackTop !in stackAlphabet {
          return false;
        }
        if v.nextState !in states {
          return false;
        }
        var bad := CheckSyntaxError(v.stackAction, stackAlphabet);
        if bad != -1 {
          return false;
        }
        rest := rest - {k};
      }
      return true;
    }

    /**
     * `addTransition(...)`: refuses a key whose state, input symbol or stack top is not
     * declared; otherwise stores the rule, replacing any earlier rule for that key.
     */
    method AddTransition(state: string, input: char, stackTop: char, nextState: string, stackAction: string)
      returns (ok: bool)
      modifies this
      ensures ok == KeyOk(old(Fields()), PDAKey(state, input, stackTop))
      ensures ok ==> Fields() == old(Fields()).(delta := old(transitions)[PDAKey(state, input, stackTop) := PDAValue(nextState, stackAction)])
      ensures !ok ==> Fields() == old(Fields())
    {
      if state !in states || input !in inputAlphabet || stackTop !in stackAlphabet {
        return false;
      }
      transitions := transitions[PDAKey(state, input, stackTop) := PDAValue(nextState, stackAction)];
      return true;
    }

    /** `getTransition(state, input_symbol, stack_top)`. */
    method GetTransition(state: string, input: char, stackTop: char) returns (r: PDAQueryResult)
      ensures r == Lookup(transitions, PDAKey(state, input, stackTop))
    {
      var key := PDAKey(state, input, stackTop);
      if key in transitions && transitions[key].nextState != "" {
        r := PDAQueryResult(transitions[key].nextState, transitions[key].stackAction, true);
      } else {
        r := PDANotFound;
      }
    }
  }
}
