/** `PDAParser`: one line of a `.pda` description at a time, into a `PDAContext`. */
module PushdownParser {
  import opened Errors
  import opened Text
  import opened ParseToken
  import opened LineSyntax
  import opened PushdownContext

  /** The control tokens of a `.pda` file. */
  predicate IsControl(t: string) {
    t == "#Q" || t == "#S" || t == "#G" || t == "#q0" || t == "#z0" || t == "#F"
  }

  /** The stack action token: `_` alone, or valid symbols only. */
  predicate ActionOk(tok: string) {
    tok == "_" || forall i :: 0 <= i < |tok| ==> IsValidSymbol(tok[i])
  }

  /** The stack action stored for the token: `_` means the empty action. */
  function ActionOf(tok: string): string {
    if tok == "_" then "" else tok
  }

  /** The context after `addTransition`, whose refusal the parser ignores. */
  function WithRule(c: PDASpec, k: PDAKey, v: PDAValue): PDASpec {
    if KeyOk(c, k) then c.(delta := c.delta[k := v]) else c
  }

  /** The five tokens of a transition line pass the parser's checks. */
  predicate TransitionTokensOk(ts: seq<string>)
    requires |ts| == 5
  {
    && IsStateName(ts[0]) && IsStateName(ts[3])
    && |ts[1]| == 1 && (IsValidSymbol(ts[1][0]) || ts[1][0] == Epsilon)
    && |ts[2]| == 1 && IsValidSymbol(ts[2][0])
    && ActionOk(ts[4])
  }

  /** The key of a transition line `state input top next action`. */
  function RuleKey(ts: seq<string>): PDAKey
    requires |ts| == 5 && TransitionTokensOk(ts)
  {
    PDAKey(ts[0], ts[1][0], ts[2][0])
  }

  /** The value of a transition line. */
  function RuleValue(ts: seq<string>): PDAValue
    requires |ts| == 5
  {
    PDAValue(ts[3], ActionOf(ts[4]))
  }

  /** A transition line: checked, then handed to `addTransition`. */
  function TransitionLine(ts: seq<string>, c: PDASpec): Result<PDASpec>
    requires |ts| == 5
  {
    if TransitionTokensOk(ts) then Ok(WithRule(c, RuleKey(ts), RuleValue(ts))) else Err(AutomataSyntax)
  }

  /** A control line `name = arg`: exactly one field is assigned. */
  function ControlLine(name: string, arg: string, c: PDASpec): Result<PDASpec>
    requires IsControl(name)
  {
    if name == "#Q" then
      match StateSetArg(arg) case Err(e) => Err(e) case Ok(ss) => Ok(c.(states := ss))
    else if name == "#G" then
      match SymbolSetArg(arg) case Err(e) => Err(e) case Ok(cs) => Ok(c.(stackAlphabet := cs))
    else if name == "#S" then
      match SymbolSetArg(arg) case Err(e) => Err(e) case Ok(cs) => Ok(c.(inputAlphabet := cs))
    else if name == "#q0" then
      if IsStateName(arg) then Ok(c.(startState := arg)) else Err(AutomataSyntax)
    else if name == "#z0" then
      if |arg| == 1 && (IsValidSymbol(arg[0]) || arg[0] == Epsilon) then Ok(c.(stackStartSymbol := arg[0]))
      else Err(AutomataSyntax)
    else
      match StateSetArg(arg) case Err(e) => Err(e) case Ok(ss) => Ok(c.(finalStates := ss))
  }

  /** `parseLine(line, context)`: what a preprocessed line does to the context, or the syntax error it throws. */
  function LineEffect(line: string, c: PDASpec): Result<PDASpec> {
    var ts := Tokens(line);
    if ts == [] then Ok(c)
    else if StartsWithSpace(line) then Err(AutomataSyntax)
    else if !IsControl(ts[0]) then
      if ts[0][0] == '#' then Err(AutomataSyntax)
      else if |ts| != 5 then Err(AutomataSyntax)
      else TransitionLine(ts, c)
    else if |ts| != 3 || ts[1] != "=" then Err(AutomataSyntax)
    else ControlLine(ts[0], ts[2], c)
  }

  /** The loop of `parse` over the file's lines, without the file: preprocess, then parse each line. */
  function ParseLines(lines: seq<string>, c: PDASpec): Result<PDASpec>
    decreases |lines|
  {
    if lines == [] then Ok(c)
    else
      match LineEffect(Preprocessed(lines[0]), c)
      case Err(e) => Err(e)
      case Ok(d) => ParseLines(lines[1..], d)
  }

  /** A line without tokens leaves the context as it is. */
  lemma BlankLineKeepsContext(line: string, c: PDASpec)
    requires Tokens(line) == []
    ensures LineEffect(line, c) == Ok(c)
  {
  }

  /** A line with tokens that starts with a space is a syntax error. */
  lemma LeadingSpaceRejected(line: string, c: PDASpec)
    requires Tokens(line) != [] && StartsWithSpace(line)
    ensures LineEffect(line, c) == Err(AutomataSyntax)
  {
  }

  /** A first token starting with `#` that is not a control token is a syntax error. */
  lemma UnknownControlRejected(line: string, c: PDASpec)
    requires Tokens(line) != [] && !StartsWithSpace(line)
    requires !IsControl(Tokens(line)[0]) && Tokens(line)[0][0] == '#'
    ensures LineEffect(line, c) == Err(AutomataSyntax)
  {
  }

  /** A transition line with other than five tokens is a syntax error. */
  lemma TransitionArity(line: string, c: PDASpec)
    requires Tokens(line) != [] && !StartsWithSpace(line)
    requires !IsControl(Tokens(line)[0]) && Tokens(line)[0][0] != '#'
    ensures LineEffect(line, c).Ok? ==> |Tokens(line)| == 5
  {
  }

  /**
   * An accepted transition line stores its rule (replacing any earlier one) exactly when
   * its state, input symbol and stack top are already declared; otherwise it is dropped
   * without an error.
   */
  lemma TransitionStoredIfDeclared(ts: seq<string>, c: PDASpec)
    requires |ts| == 5 && TransitionLine(ts, c).Ok?
    ensures KeyOk(c, RuleKey(ts)) ==>
      TransitionLine(ts, c).value == c.(delta := c.delta[RuleKey(ts) := RuleValue(ts)])
    ensures !KeyOk(c, RuleKey(ts)) ==> TransitionLine(ts, c).value == c
  {
  }

  /** What the parser guarantees of every stored rule, whatever the order of the lines. */
  predicate RulesWellFormed(c: PDASpec) {
    forall k :: k in c.delta ==>
      && IsStateName(k.state) && IsValidSymbol(k.input) && IsValidSymbol(k.stackTop)
      && IsStateName(c.delta[k].nextState)
      && (forall i :: 0 <= i < |c.delta[k].stackAction| ==> IsValidSymbol(c.delta[k].stackAction[i]))
  }

  /** What the parser guarantees of a context it has built. */
  predicate Parsed(c: PDASpec) {
    AllValidSymbols(c.inputAlphabet) && AllValidSymbols(c.stackAlphabet) && RulesWellFormed(c)
  }

  /** A default-initialised context satisfies `Parsed`. */
  lemma EmptyIsParsed(z: char)
    ensures Parsed(PDASpec({}, "", {}, {}, {}, z, map[]))
  {
  }

  /** Storing an accepted transition keeps `Parsed`: the input symbol was declared, so it is valid. */
  lemma TransitionKeepsParsed(ts: seq<string>, c: PDASpec)
    requires |ts| == 5 && Parsed(c) && TransitionLine(ts, c).Ok?
    ensures Parsed(TransitionLine(ts, c).value)
  {
    var k := RuleKey(ts);
    var v := RuleValue(ts);
    if KeyOk(c, k) {
      var d := c.(delta := c.delta[k := v]);
      assert IsValidSymbol(k.input);
      assert forall i :: 0 <= i < |v.stackAction| ==> IsValidSymbol(v.stackAction[i]);
      assert forall k2 :: k2 in d.delta && k2 != k ==> d.delta[k2] == c.delta[k2];
    }
  }

  /** Every accepted line keeps `Parsed`. */
  lemma LineKeepsParsed(line: string, c: PDASpec)
    requires Parsed(c) && LineEffect(line, c).Ok?
    ensures Parsed(LineEffect(line, c).value)
  {
    var ts := Tokens(line);
    if ts != [] && !IsControl(ts[0]) {
      TransitionKeepsParsed(ts, c);
    }
  }

  /** A whole parse keeps `Parsed`. */
  lemma {:induction false} ParseKeepsParsed(lines: seq<string>, c: PDASpec)
    requires Parsed(c) && ParseLines(lines, c).Ok?
    ensures Parsed(ParseLines(lines, c).value)
    decreases |lines|
  {
    if lines != [] {
      var line := Preprocessed(lines[0]);
      LineKeepsParsed(line, c);
      ParseKeepsParsed(lines[1..], LineEffect(line, c).value);
    }
  }

  /**
   * No parsed description has an epsilon rule: `'_'` is not a valid symbol, so `#S` never
   * declares it and `addTransition` refuses every rule keyed by it.
   */
  lemma ParsedHasNoEpsilonRules(lines: seq<string>, z: char, k: PDAKey)
    requires ParseLines(lines, PDASpec({}, "", {}, {}, {}, z, map[])).Ok?
    ensures k in ParseLines(lines, PDASpec({}, "", {}, {}, {}, z, map[])).value.delta ==> k.input != Epsilon
    ensures Epsilon !in ParseLines(lines, PDASpec({}, "", {}, {}, {}, z, map[])).value.inputAlphabet
  {
    EmptyIsParsed(z);
    ParseKeepsParsed(lines, PDASpec({}, "", {}, {}, {}, z, map[]));
  }

  /** Every character of an action token is a valid symbol (the `for` loop over `stack_action`). */
  method CheckAction(tok: string) returns (ok: bool)
    ensures ok == ActionOk(tok)
  {
    if tok == "_" {
      return true;
    }
    var i := 0;
    while i < |tok|
      invariant 0 <= i <= |tok|
      invariant forall j :: 0 <= j < i ==> IsValidSymbol(tok[j])
    {
      if !IsValidSymbol(tok[i]) {
        return false;
      }
      i := i + 1;
    }
    return true;
  }

  /** The transition branch of `parseLine`: checks, then `addTransition`, whose result is ignored. */
  method ParseTransition(ts: seq<string>, context: PDAContext) returns (o: Outcome)
    requires |ts| == 5
    modifies context
    ensures o.Pass? <==> TransitionLine(ts, old(context.Fields())).Ok?
    ensures o.Pass? ==> context.Fields() == TransitionLine(ts, old(context.Fields())).value
    ensures o.Fail? ==> o.error == AutomataSyntax && context.Fields() == old(context.Fields())
  {
    if !IsStateName(ts[0]) || !IsStateName(ts[3]) {
      return Fail(AutomataSyntax);
    }
    if |ts[1]| != 1 || !(IsValidSymbol(ts[1][0]) || ts[1][0] == Epsilon) {
      return Fail(AutomataSyntax);
    }
    if |ts[2]| != 1 || !IsValidSymbol(ts[2][0]) {
      return Fail(AutomataSyntax);
    }
    var actionOk := CheckAction(ts[4]);
    if !actionOk {
      return Fail(AutomataSyntax);
    }
    var action := if ts[4] == "_" then "" else ts[4];
    var _ := context.AddTransition(ts[0], ts[1][0], ts[2][0], ts[3], action);
    return Pass;
  }

  /** The control branch of `parseLine`: read the argument, then assign one field. */
  method ParseControl(name: string, arg: string, context: PDAContext) returns (o: Outcome)
    requires IsControl(name)
    modifies context
    ensures o.Pass? <==> ControlLine(name, arg, old(context.Fields())).Ok?
    ensures o.Pass? ==> context.Fields() == ControlLine(name, arg, old(context.Fields())).value
    ensures o.Fail? ==> o.error == AutomataSyntax && context.Fields() == old(context.Fields())
  {
    if name == "#Q" || name == "#F" {
      var r := ReadStateSet(arg);
      if r.Err? {
        return Fail(AutomataSyntax);
      }
      if name == "#Q" {
        context.states := r.value;
      } else {
        context.finalStates := r.value;
      }
    } else if name == "#G" || name == "#S" {
      var r := ReadSymbolSet(arg);
      if r.Err? {
        return Fail(AutomataSyntax);
      }
      if name == "#G" {
        context.stackAlphabet := r.value;
      } else {
        context.inputAlphabet := r.value;
      }
    } else if name == "#q0" {
      if !IsStateName(arg) {
        return Fail(AutomataSyntax);
      }
      context.startState := arg;
    } else {
      if |arg| != 1 || !(IsValidSymbol(arg[0]) || arg[0] == Epsilon) {
        return Fail(AutomataSyntax);
      }
      context.stackStartSymbol := arg[0];
    }
    return Pass;
  }

  /** `parseLine(line, context)`: tokenize, classify, and apply the line to the context. */
  method ParseLine(line: string, context: PDAContext) returns (o: Outcome)
    modifies context
    ensures o.Pass? <==> LineEffect(line, old(context.Fields())).Ok?
    ensures o.Pass? ==> context.Fields() == LineEffect(line, old(context.Fields())).value
    ensures o.Fail? ==> o.error == AutomataSyntax && context.Fields() == old(context.Fields())
  {
    var tokens := Tokenize(line);
    if tokens == [] {
      return Pass;
    }
    TokensOfNonEmpty(line);
    if line[0] == ' ' {
      return Fail(AutomataSyntax);
    }
    if !IsControl(tokens[0]) {
      if tokens[0][0] == '#' || |tokens| != 5 {
        return Fail(AutomataSyntax);
      }
      o := ParseTransition(tokens, context);
      return;
    }
    if |tokens| != 3 || tokens[1] != "=" {
      return Fail(AutomataSyntax);
    }
    o := ParseControl(tokens[0], tokens[2], context);
  }
}
