/** The description of a Turing machine that the parser fills in and the emulator runs. */
module TuringContext {
  import opened TMTranKV

  /** The fields of a `TMContext`, as one value. */
  datatype TMSpec = TMSpec(
    states: set<string>,
    inputAlphabet: set<char>,
    tapeAlphabet: set<char>,
    startState: string,
    finalStates: set<string>,
    tapeNum: int,
    blankChar: char,
    delta: map<TMKey, TMValue>)

  /** A pattern or replacement string: one symbol per tape, each `*` or a tape symbol. */
  predicate SymbolsOk(s: string, tapeAlphabet: set<char>, tapeNum: int) {
    |s| == tapeNum && forall i :: 0 <= i < |s| ==> s[i] == Wildcard || s[i] in tapeAlphabet
  }

  /** What `validate` demands of one stored rule. */
  predicate RuleOk(c: TMSpec, k: TMKey, v: TMValue) {
    && k.state in c.states
    && SymbolsOk(k.inputChars, c.tapeAlphabet, c.tapeNum)
    && SymbolsOk(v.replaceChars, c.tapeAlphabet, c.tapeNum)
    && |v.directions| == c.tapeNum
    && v.nextState in c.states
  }

  /** What `validate` demands of the whole description. */
  predicate IsValid(c: TMSpec) {
    && c.startState in c.states
    && c.finalStates <= c.states
    && c.tapeNum > 0
    && c.blankChar in c.tapeAlphabet
    && c.blankChar !in c.inputAlphabet
    && c.inputAlphabet <= c.tapeAlphabet
    && forall k :: k in c.delta ==> RuleOk(c, k, c.delta[k])
  }

  /** One of the character loops of `validate`: the length and every symbol of `s`. */
  method CheckSymbols(s: string, tapeAlphabet: set<char>, tapeNum: int) returns (ok: bool)
    ensures ok == SymbolsOk(s, tapeAlphabet, tapeNum)
  {
    if |s| != tapeNum {
      return false;
    }
    var i := 0;
    while i < |s|
      invariant 0 <= i <= |s|
      invariant forall j :: 0 <= j < i ==> s[j] == Wildcard || s[j] in tapeAlphabet
    {
      if s[i] != Wildcard && s[i] !in tapeAlphabet {
        return false;
      }
      i := i + 1;
    }
    return true;
  }

  /** A rule whose source state names no state makes the description invalid. */
  lemma UnknownSourceStateInvalid(c: TMSpec, k: TMKey)
    requires k in c.delta && k.state !in c.states
    ensures !IsValid(c)
  {
    assert !RuleOk(c, k, c.delta[k]);
  }

  /** A rule whose lookup pattern has the wrong length makes the description invalid. */
  lemma WrongPatternLengthInvalid(c: TMSpec, k: TMKey)
    requires k in c.delta && |k.inputChars| != c.tapeNum
    ensures !IsValid(c)
  {
    assert !RuleOk(c, k, c.delta[k]);
  }

  /** `TMContext`: public fields that the parser assigns one by one. */
  class TMContext {
    var states: set<string>
    var inputAlphabet: set<char>
    var tapeAlphabet: set<char>
    var startState: string
    var finalStates: set<string>
    var tapeNum: int
    var blankChar: char
    const transitions: TMDeltaMap

    /** The value of every field. */
    function Fields(): TMSpec
      reads this, transitions
    {
      TMSpec(states, inputAlphabet, tapeAlphabet, startState, finalStates, tapeNum, blankChar,
        transitions.table)
    }

    /**
     * A default-initialised `TMContext`: empty sets, strings and table. C++ leaves
     * `tape_num` and `blank_char` uninitialised, so their values are parameters here.
     */
    constructor (tapeNum0: int, blankChar0: char)
      ensures fresh(transitions)
      ensures Fields() == TMSpec({}, {}, {}, "", {}, tapeNum0, blankChar0, map[])
    {
      states, inputAlphabet, tapeAlphabet := {}, {}, {};
      startState, finalStates := "", {};
      tapeNum, blankChar := tapeNum0, blankChar0;
      transitions := new TMDeltaMap();
    }

    /** `validate()`: the checks in order, then every stored rule. */
    method Validate() returns (ok: bool)
      ensures ok == IsValid(Fields())
    {
      if startState !in states || !(finalStates <= states) || !(tapeNum > 0)
        || blankChar !in tapeAlphabet || blankChar in inputAlphabet
        || !(inputAlphabet <= tapeAlphabet)
      {
        return false;
      }
      var table := transitions.table;
      var rest := table.Keys;
      while rest != {}
        invariant rest <= table.Keys
        invariant forall k :: k in table && k !in rest ==> RuleOk(Fields(), k, table[k])
        decreases rest
      {
        var k :| k in rest;
        var v := table[k];
        if k.state !in states {
          return false;
        }
        var inputOk := CheckSymbols(k.inputChars, tapeAlphabet, tapeNum);
        if !inputOk {
          return false;
        }
        var replaceOk := CheckSymbols(v.replaceChars, tapeAlphabet, tapeNum);
        if !replaceOk {
          return false;
        }
        if |v.directions| != tapeNum || v.nextState !in states {
          return false;
        }
        rest := rest - {k};
      }
      return true;
    }

    /** `addTransition(...)`: stores the rule unchecked (first rule per key wins) and returns true. */
    method AddTransition(state: string, inputChars: string, replaceChars: string,
                         directions: seq<Direction>, nextState: string) returns (ok: bool)
      modifies transitions
      ensures ok
      ensures Fields() == old(Fields()).(delta := Emplaced(old(Fields()).delta,
        TMKey(state, inputChars), TMValue(nextState, replaceChars, directions)))
    {
      transitions.Insert(TMKey(state, inputChars), TMValue(nextState, replaceChars, directions));
      return true;
    }

    /** `getTransition(state, input_chars)`: the table's `query` of that key. */
    method GetTransition(state: string, inputChars: string) returns (r: TMQueryResult)
      ensures IsQueryAnswer(Fields().delta, TMKey(state, inputChars), r)
    {
      r := transitions.Query(TMKey(state, inputChars));
    }
  }
}
