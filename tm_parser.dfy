/**
 * `TMParser`: one line of a `.tm` description at a time, into a `TMContext`. Transition
 * lines are accepted and ignored, and `#N` is checked but never stored.
 */
module TuringParser {
  import opened Errors
  import opened Text
  import opened LineSyntax
  import opened TuringContext

  /** The control tokens of a `.tm` file. */
  predicate IsControl(t: string) {
    t == "#Q" || t == "#S" || t == "#G" || t == "#q0" || t == "#B" || t == "#N" || t == "#F"
  }

  /** `blank_default`: the blank that a `#G` line may contain besides valid symbols. */
  const BlankDefault: char := '_'

  /** The range of a C++ `int`. */
  const IntMin: int := -0x8000_0000
  const IntMax: int := 0x7fff_ffff

  predicate IsDigit(c: char) {
    '0' <= c <= '9'
  }

  /** The length of the run of decimal digits at the front of `s`. */
  function DigitCount(s: string): (n: nat)
    ensures n <= |s|
    ensures forall i :: 0 <= i < n ==> IsDigit(s[i])
    ensures n < |s| ==> !IsDigit(s[n])
    decreases |s|
  {
    if s != [] && IsDigit(s[0]) then 1 + DigitCount(s[1..]) else 0
  }

  /** The value of a string of decimal digits. */
  function DigitsValue(s: string): nat
    requires forall i :: 0 <= i < |s| ==> IsDigit(s[i])
    decreases |s|
  {
    if s == [] then 0
    else
      assert IsDigit(s[|s| - 1]);
      10 * DigitsValue(s[..|s| - 1]) + (s[|s| - 1] as int - '0' as int)
  }

  /** What `std::stoi` does with a token: a number, or one of its two exceptions. */
  datatype StoiResult = Parsed(value: int) | NotANumber | OutOfRange

  /** The sign of a token, if it has one. */
  predicate Signed(s: string) {
    s != [] && (s[0] == '+' || s[0] == '-')
  }

  /** The token without its sign. */
  function Unsigned(s: string): string {
    if Signed(s) then s[1..] else s
  }

  /**
   * `std::stoi(s)` in base 10: an optional sign and at least one digit, anything after the
   * digits ignored; `invalid_argument` without digits, `out_of_range` outside `int`.
   */
  function Stoi(s: string): (r: StoiResult)
    ensures r.Parsed? ==> IntMin <= r.value <= IntMax
    ensures r.NotANumber? <==> DigitCount(Unsigned(s)) == 0
  {
    var body := Unsigned(s);
    var n := DigitCount(body);
    if n == 0 then NotANumber
    else
      var magnitude: int := DigitsValue(body[..n]);
      var v := if s[0] == '-' then -magnitude else magnitude;
      if IntMin <= v <= IntMax then Parsed(v) else OutOfRange
  }

  /** The decimal numeral of `n`, without sign or leading zeros. */
  function Decimal(n: nat): (s: string)
    ensures |s| > 0 && forall i :: 0 <= i < |s| ==> IsDigit(s[i])
  {
    if n < 10 then [('0' as int + n) as char] else Decimal(n / 10) + [('0' as int + n % 10) as char]
  }

  /** Reading back a numeral gives the number. */
  lemma {:induction false} DecimalValue(n: nat)
    ensures DigitsValue(Decimal(n)) == n
  {
    var s := Decimal(n);
    if n >= 10 {
      assert s[..|s| - 1] == Decimal(n / 10);
      DecimalValue(n / 10);
    }
  }

  /** `stoi` reads back every numeral of an `int`, and refuses a larger one as out of range. */
  lemma StoiDecimal(n: nat)
    ensures n <= IntMax ==> Stoi(Decimal(n)) == Parsed(n)
    ensures n > IntMax ==> Stoi(Decimal(n)) == OutOfRange
  {
    var s := Decimal(n);
    DecimalValue(n);
    assert DigitCount(s) == |s|;
    assert s[..|s|] == s;
  }

  /** Whatever follows the digits is ignored: `stoi("3x") == stoi("3")`. */
  lemma StoiIgnoresTail(d: string, tail: string)
    requires |d| > 0 && forall i :: 0 <= i < |d| ==> IsDigit(d[i])
    requires tail == [] || !IsDigit(tail[0])
    ensures Stoi(d + tail) == Stoi(d)
  {
    assert DigitCount(d + tail) == |d| by {
      DigitRunPrefix(d, tail);
    }
    assert DigitCount(d) == |d| by {
      DigitRunPrefix(d, []);
      assert d + [] == d;
    }
    assert (d + tail)[..|d|] == d && d[..|d|] == d;
  }

  /** The run of digits stops exactly where the digits of `d` stop. */
  lemma {:induction false} DigitRunPrefix(d: string, tail: string)
    requires forall i :: 0 <= i < |d| ==> IsDigit(d[i])
    requires tail == [] || !IsDigit(tail[0])
    ensures DigitCount(d + tail) == |d|
    decreases |d|
  {
    if d != [] {
      assert (d + tail)[1..] == d[1..] + tail;
      DigitRunPrefix(d[1..], tail);
    }
  }

  /** `#N = n` is accepted when `stoi` reads a number of at least one. */
  predicate TapeCountOk(arg: string) {
    Stoi(arg).Parsed? && Stoi(arg).value >= 1
  }

  /** A tape-symbol set for `#G`: every member is valid or the default blank `'_'`. */
  predicate AllTapeSymbols(cs: set<char>) {
    forall c :: c in cs ==> IsValidSymbol(c) || c == BlankDefault
  }

  function TapeSymbolSetArg(arg: string): Result<set<char>> {
    match ParseToken.CharSet(arg)
    case Err(e) => Err(e)
    case Ok(cs) => if AllTapeSymbols(cs) then Ok(cs) else Err(AutomataSyntax)
  }

  /** A control line `name = arg`: at most one field is assigned. */
  function ControlLine(name: string, arg: string, c: TMSpec): Result<TMSpec>
    requires IsControl(name) && arg != []
  {
    if name == "#Q" then
      match StateSetArg(arg) case Err(e) => Err(e) case Ok(ss) => Ok(c.(states := ss))
    else if name == "#S" then
      match SymbolSetArg(arg) case Err(e) => Err(e) case Ok(cs) => Ok(c.(inputAlphabet := cs))
    else if name == "#G" then
      match TapeSymbolSetArg(arg) case Err(e) => Err(e) case Ok(cs) => Ok(c.(tapeAlphabet := cs))
    else if name == "#q0" then
      if IsStateName(arg) then Ok(c.(startState := arg)) else Err(AutomataSyntax)
    else if name == "#B" then
      Ok(c.(blankChar := arg[0]))
    else if name == "#F" then
      match StateSetArg(arg) case Err(e) => Err(e) case Ok(ss) => Ok(c.(finalStates := ss))
    else
      if TapeCountOk(arg) then Ok(c) else Err(AutomataSyntax)
  }

  /** `parseLine(line, context)`: what a preprocessed line does to the context, or the syntax error it throws. */
  function LineEffect(line: string, c: TMSpec): Result<TMSpec> {
    var ts := Tokens(line);
    if ts == [] then Ok(c)
    else if StartsWithSpace(line) then Err(AutomataSyntax)
    else if !IsControl(ts[0]) then
      if ts[0][0] == '#' then Err(AutomataSyntax) else Ok(c)
    else if |ts| != 3 || ts[1] != "=" then Err(AutomataSyntax)
    else ControlLine(ts[0], ts[2], c)
  }

  /** The loop of `parse` over the file's lines, without the file: preprocess, then parse each line. */
  function ParseLines(lines: seq<string>, c: TMSpec): Result<TMSpec>
    decreases |lines|
  {
    if lines == [] then Ok(c)
    else
      match LineEffect(Preprocessed(lines[0]), c)
      case Err(e) => Err(e)
      case Ok(d) => ParseLines(lines[1..], d)
  }

  /** A line without tokens leaves the context as it is. */
  lemma BlankLineKeepsContext(line: string, c: TMSpec)
    requires Tokens(line) == []
    ensures LineEffect(line, c) == Ok(c)
  {
  }

  /** A line with tokens that starts with a space is a syntax error. */
  lemma LeadingSpaceRejected(line: string, c: TMSpec)
    requires Tokens(line) != [] && StartsWithSpace(line)
    ensures LineEffect(line, c) == Err(AutomataSyntax)
  {
  }

  /**
   * A line whose first token is not a control token is a syntax error when that token
   * starts with `#`, and is otherwise accepted with no effect at all: transitions are not parsed.
   */
  lemma NonControlLine(line: string, c: TMSpec)
    requires Tokens(line) != [] && !StartsWithSpace(line) && !IsControl(Tokens(line)[0])
    ensures Tokens(line)[0][0] == '#' ==> LineEffect(line, c) == Err(AutomataSyntax)
    ensures Tokens(line)[0][0] != '#' ==> LineEffect(line, c) == Ok(c)
  {
  }

  /** A control line takes exactly three tokens, the middle one `=`. */
  lemma ControlArity(line: string, c: TMSpec)
    requires Tokens(line) != [] && !StartsWithSpace(line) && IsControl(Tokens(line)[0])
    ensures LineEffect(line, c).Ok? ==> |Tokens(line)| == 3 && Tokens(line)[1] == "="
  {
  }

  /** `#N`: checked by `stoi` and `>= 1`, then discarded; the tape count is never assigned. */
  lemma TapeCountDiscarded(arg: string, c: TMSpec)
    requires arg != []
    ensures ControlLine("#N", arg, c).Ok? <==> Stoi(arg).Parsed? && Stoi(arg).value >= 1
    ensures ControlLine("#N", arg, c).Ok? ==> ControlLine("#N", arg, c).value == c
  {
  }

  /** `#N = 0` is refused, `#N = 2` accepted, `#N = 2x` accepted as well. */
  lemma TapeCountExamples(c: TMSpec)
    ensures ControlLine("#N", "0", c).Err?
    ensures ControlLine("#N", "2", c) == Ok(c)
    ensures ControlLine("#N", "2x", c) == Ok(c)
  {
    StoiDecimal(0);
    assert Decimal(0) == "0";
    StoiDecimal(2);
    assert Decimal(2) == "2";
    StoiIgnoresTail("2", "x");
    assert "2" + "x" == "2x";
  }

  /** `#B`: the first character of the argument becomes the blank, unchecked. */
  lemma BlankUnchecked(arg: string, c: TMSpec)
    requires arg != []
    ensures ControlLine("#B", arg, c) == Ok(c.(blankChar := arg[0]))
  {
  }

  /**
   * `#G` accepts `'_'` whatever `#B` declared, and refuses a declared blank that is not a
   * valid symbol: the check depends on the argument only, never on the context.
   */
  lemma TapeAlphabetIgnoresBlank(arg: string, c: TMSpec, b: char)
    requires arg != []
    ensures ControlLine("#G", arg, c).Ok? <==> ControlLine("#G", arg, c.(blankChar := b)).Ok?
    ensures ControlLine("#G", arg, c).Ok? ==>
      ControlLine("#G", arg, c).value.tapeAlphabet == ControlLine("#G", arg, c.(blankChar := b)).value.tapeAlphabet
    ensures ControlLine("#G", arg, c).Ok? ==> AllTapeSymbols(ControlLine("#G", arg, c).value.tapeAlphabet)
  {
  }

  /** No line changes the tape count or the rule table. */
  lemma LineKeepsTapeNumAndRules(line: string, c: TMSpec)
    requires LineEffect(line, c).Ok?
    ensures LineEffect(line, c).value.tapeNum == c.tapeNum
    ensures LineEffect(line, c).value.delta == c.delta
  {
  }

  /** A whole parse keeps the tape count and the rule table of the context it starts from. */
  lemma {:induction false} ParseKeepsTapeNumAndRules(lines: seq<string>, c: TMSpec)
    requires ParseLines(lines, c).Ok?
    ensures ParseLines(lines, c).value.tapeNum == c.tapeNum
    ensures ParseLines(lines, c).value.delta == c.delta
    decreases |lines|
  {
    if lines != [] {
      var line := Preprocessed(lines[0]);
      LineKeepsTapeNumAndRules(line, c);
      ParseKeepsTapeNumAndRules(lines[1..], LineEffect(line, c).value);
    }
  }

  /**
   * A parsed `.tm` description has no rules, and its tape count is whatever the fresh
   * context held: the parser never reads transitions or stores `#N`.
   */
  lemma ParsedHasNoRules(lines: seq<string>, n: int, b: char)
    requires ParseLines(lines, TMSpec({}, {}, {}, "", {}, n, b, map[])).Ok?
    ensures ParseLines(lines, TMSpec({}, {}, {}, "", {}, n, b, map[])).value.delta == map[]
    ensures ParseLines(lines, TMSpec({}, {}, {}, "", {}, n, b, map[])).value.tapeNum == n
  {
    ParseKeepsTapeNumAndRules(lines, TMSpec({}, {}, {}, "", {}, n, b, map[]));
  }

  /** Every member of a set is valid or the default blank (the `for` loop of `#G`). */
  method CheckTapeSymbols(cs: set<char>) returns (ok: bool)
    ensures ok == AllTapeSymbols(cs)
  {
    var rest := cs;
    while rest != {}
      invariant rest <= cs
      invariant forall x :: x in cs && x !in rest ==> IsValidSymbol(x) || x == BlankDefault
      decreases rest
    {
      var x :| x in rest;
      if !(IsValidSymbol(x) || x == BlankDefault) {
        return false;
      }
      rest := rest - {x};
    }
    return true;
  }

  /** Reads a tape-symbol set argument as `#G` does. */
  method ReadTapeSymbolSet(arg: string) returns (r: Result<set<char>>)
    ensures r == TapeSymbolSetArg(arg)
  {
    r := ParseToken.ParseCharSet(arg);
    if r.Ok? {
      var ok := CheckTapeSymbols(r.value);
      if !ok {
        r := Err(AutomataSyntax);
      }
    }
  }

  /** The control branch of `parseLine`: read the argument, then assign at most one field. */
  method ParseControl(name: string, arg: string, context: TMContext) returns (o: Outcome)
    requires IsControl(name) && arg != []
    modifies context
    ensures o.Pass? <==> ControlLine(name, arg, old(context.Fields())).Ok?
    ensures o.Pass? ==> context.Fields() == ControlLine(name, arg, old(context.Fields())).value
    ensures o.Fail? ==> o.error == AutomataSyntax && context.Fields() == old(context.Fields())
  {
    if name == "#Q" || name == "#F" {
      var r := ReadStateSet(arg);
      if r.Err? {
        return Fail(AutomataSyntax);
      }
      if name == "#Q" {
        context.states := r.value;
      } else {
        context.finalStates := r.value;
      }
    } else if name == "#S" {
      var r := ReadSymbolSet(arg);
      if r.Err? {
        return Fail(AutomataSyntax);
      }
      context.inputAlphabet := r.value;
    } else if name == "#G" {
      var r := ReadTapeSymbolSet(arg);
      if r.Err? {
        return Fail(AutomataSyntax);
      }
      context.tapeAlphabet := r.value;
    } else if name == "#q0" {
      if !IsStateName(arg) {
        return Fail(AutomataSyntax);
      }
      context.startState := arg;
    } else if name == "#B" {
      context.blankChar := arg[0];
    } else {
      var number := Stoi(arg);
      if !number.Parsed? || number.value < 1 {
        return Fail(AutomataSyntax);
      }
    }
    return Pass;
  }

  /** `parseLine(line, context)`: tokenize, classify, and apply the line to the context. */
  method ParseLine(line: string, context: TMContext) returns (o: Outcome)
    modifies context
    ensures o.Pass? <==> LineEffect(line, old(context.Fields())).Ok?
    ensures o.Pass? ==> context.Fields() == LineEffect(line, old(context.Fields())).value
    ensures o.Fail? ==> o.error == AutomataSyntax && context.Fields() == old(context.Fields())
  {
    var tokens := Tokenize(line);
    if tokens == [] {
      return Pass;
    }
    TokensOfNonEmpty(line);
    if line[0] == ' ' {
      return Fail(AutomataSyntax);
    }
    if !IsControl(tokens[0]) {
      if tokens[0][0] == '#' {
        return Fail(AutomataSyntax);
      }
      return Pass;
    }
    if |tokens| != 3 || tokens[1] != "=" {
      return Fail(AutomataSyntax);
    }
    o := ParseControl(tokens[0], tokens[2], context);
  }
}
