/**
 * The transition table of a Turing machine: keys are a state and one pattern symbol
 * per tape, and a lookup treats `*` in a stored pattern as matching any symbol.
 */
module TMTranKV {

  /** The pattern symbol that matches every tape symbol, and the "keep" replacement. */
  const Wildcard: char := '*'

  /** `TapeDirection`. */
  datatype Direction = Left | Right | Stay

  /** `TMTransitionKey`: the current state and one (pattern) symbol per tape. */
  datatype TMKey = TMKey(state: string, inputChars: string)

  /** `TMTransitionValue`: the next state, one replacement per tape, one move per tape. */
  datatype TMValue = TMValue(nextState: string, replaceChars: string, directions: seq<Direction>)

  /** `TMQueryResult`: the fields of the rule found, and whether one was found. */
  datatype TMQueryResult =
    TMQueryResult(nextState: string, replaceChars: string, directions: seq<Direction>, success: bool)

  /** The successful result carrying the fields of `v`. */
  function Found(v: TMValue): TMQueryResult {
    TMQueryResult(v.nextState, v.replaceChars, v.directions, true)
  }

  /** `TMQueryResult()`: no rule, every field empty. */
  const NotFound: TMQueryResult := TMQueryResult("", "", [], false)

  /** `TMTransitionKey::operator==`: field by field, which is equality of keys. */
  function SameKey(a: TMKey, b: TMKey): (r: bool)
    ensures r <==> a == b
  {
    a.state == b.state && a.inputChars == b.inputChars
  }

  /** `stored` matches `input`: same length, and each stored symbol is `*` or the input's. */
  predicate Matches(input: string, stored: string) {
    |input| == |stored| && forall i :: 0 <= i < |stored| ==> stored[i] == Wildcard || stored[i] == input[i]
  }

  /** `matchesWithWildcard(input_chars, stored_chars)`. */
  method MatchesWithWildcard(input: string, stored: string) returns (m: bool)
    ensures m == Matches(input, stored)
  {
    if |input| != |stored| {
      return false;
    }
    var i := 0;
    while i < |input|
      invariant 0 <= i <= |input|
      invariant forall j :: 0 <= j < i ==> stored[j] == Wildcard || stored[j] == input[j]
    {
      if stored[i] != Wildcard && stored[i] != input[i] {
        return false;
      }
      i := i + 1;
    }
    return true;
  }

  /** A pattern matches itself. */
  lemma MatchesItself(s: string)
    ensures Matches(s, s)
  {
  }

  /** A pattern of wildcards only matches every input of its length. */
  lemma AllWildcardsMatch(input: string, stored: string)
    requires |input| == |stored|
    requires forall i :: 0 <= i < |stored| ==> stored[i] == Wildcard
    ensures Matches(input, stored)
  {
  }

  /** The stored key `k` answers a lookup of `key`: same state, and its pattern matches. */
  predicate Applicable(table: map<TMKey, TMValue>, key: TMKey, k: TMKey) {
    k in table && k.state == key.state && Matches(key.inputChars, k.inputChars)
  }

  /**
   * What `query(key)` may return: the value of SOME applicable entry when there is one
   * (which one depends on the iteration order of the hash map), and `NotFound` otherwise.
   */
  ghost predicate IsQueryAnswer(table: map<TMKey, TMValue>, key: TMKey, r: TMQueryResult) {
    && (r.success <==> exists k :: Applicable(table, key, k))
    && (r.success ==> exists k :: Applicable(table, key, k) && r == Found(table[k]))
    && (!r.success ==> r == NotFound)
  }

  /** The scan of `query`: the entries in an order the model leaves open, first match wins. */
  method QueryTable(table: map<TMKey, TMValue>, key: TMKey) returns (r: TMQueryResult)
    ensures IsQueryAnswer(table, key, r)
  {
    var rest := table.Keys;
    while rest != {}
      invariant rest <= table.Keys
      invariant forall k :: k in table && k !in rest ==> !Applicable(table, key, k)
      decreases rest
    {
      var k :| k in rest;
      if k.state == key.state {
        var m := MatchesWithWildcard(key.inputChars, k.inputChars);
        if m {
          assert Applicable(table, key, k);
          return Found(table[k]);
        }
      }
      rest := rest - {k};
    }
    r := NotFound;
  }

  /** The result of `_map.emplace(key, value)`: an existing entry for `key` is kept. */
  function Emplaced(table: map<TMKey, TMValue>, key: TMKey, value: TMValue): (r: map<TMKey, TMValue>)
    ensures key in table ==> r == table
    ensures key !in table ==> r.Keys == table.Keys + {key} && r[key] == value
    ensures forall k :: k in table ==> k in r && r[k] == table[k]
  {
    if key in table then table else table[key := value]
  }

  /** With exactly one applicable entry, every answer is that entry's value. */
  lemma QueryUnique(table: map<TMKey, TMValue>, key: TMKey, k: TMKey, r: TMQueryResult)
    requires Applicable(table, key, k)
    requires forall k' :: Applicable(table, key, k') ==> k' == k
    requires IsQueryAnswer(table, key, r)
    ensures r == Found(table[k])
  {
  }

  /** A lookup of a stored key always succeeds. */
  lemma QueryStoredKey(table: map<TMKey, TMValue>, key: TMKey, r: TMQueryResult)
    requires key in table && IsQueryAnswer(table, key, r)
    ensures r.success
  {
    MatchesItself(key.inputChars);
    assert Applicable(table, key, key);
  }

  /** Inserting a rule for another state changes no answer of a lookup. */
  lemma InsertOtherState(table: map<TMKey, TMValue>, key: TMKey, value: TMValue, q: TMKey, r: TMQueryResult)
    requires key.state != q.state
    ensures IsQueryAnswer(Emplaced(table, key, value), q, r) <==> IsQueryAnswer(table, q, r)
  {
    var t := Emplaced(table, key, value);
    assert forall k :: Applicable(t, q, k) <==> Applicable(table, q, k);
    assert forall k :: Applicable(t, q, k) ==> t[k] == table[k];
  }

  /** `TMDeltaMap`: the hash map of rules. */
  class TMDeltaMap {
    var table: map<TMKey, TMValue>

    /** An empty table. */
    constructor ()
      ensures table == map[]
    {
      table := map[];
    }

    /** `insert(key, value)`: `emplace`, so the first rule stored for a key wins. */
    method Insert(key: TMKey, value: TMValue)
      modifies this
      ensures table == Emplaced(old(table), key, value)
    {
      if key !in table {
        table := table[key := value];
      }
    }

    /** `query(key)`: some rule whose state is `key.state` and whose pattern matches. */
    method Query(key: TMKey) returns (r: TMQueryResult)
      ensures IsQueryAnswer(table, key, r)
    {
      r := QueryTable(table, key);
    }
  }
}
