/**
 * What the PDA and TM parsers share: the line preprocessor, the tokenizer, the symbol
 * check, the state-name pattern `[a-zA-Z0-9_]+` and the checks of `#Q`, `#F` and `#S`
 * arguments. The two parsers carry identical copies of these in the source; they are
 * defined once here.
 */
module LineSyntax {
  import opened Errors
  import opened Text
  import opened ParseToken

  /** `isValidSymbol(c)`: printable ASCII except space, `,`, `;`, `{`, `}`, `*` and `_`. */
  predicate IsValidSymbol(c: char) {
    32 <= c as int <= 126 && c != ' ' && c != ',' && c != ';' && c != '{' && c != '}' && c != '*' && c != '_'
  }

  /** One character of the state pattern. */
  predicate IsStateChar(c: char) {
    ('a' <= c <= 'z') || ('A' <= c <= 'Z') || ('0' <= c <= '9') || c == '_'
  }

  /** `std::regex_match(s, state_regex)` with `state_regex` being `[a-zA-Z0-9_]+`. */
  predicate IsStateName(s: string) {
    |s| > 0 && forall i :: 0 <= i < |s| ==> IsStateChar(s[i])
  }

  /** `'_'` is never a valid symbol, while it is a state-name character. */
  lemma UnderscoreNotASymbol()
    ensures !IsValidSymbol('_') && IsStateChar('_')
  {
  }

  /** A state name never contains a character that the set literals or comments treat specially. */
  lemma StateNameCharsPlain(s: string, i: int)
    requires IsStateName(s) && 0 <= i < |s|
    ensures s[i] != ',' && s[i] != '{' && s[i] != '}' && s[i] != ';' && !IsSpace(s[i])
  {
  }

  /** `linePreprocess(line)`: cut the comment from the first `';'`, then trailing spaces and tabs. */
  function Preprocessed(line: string): string {
    TrimTrailing(CommentCut(line))
  }

  /** A prefix of a text without `';'` has none either. */
  lemma PrefixNoSemicolon(s: string, n: nat)
    requires ';' !in s && n <= |s|
    ensures ';' !in s[..n]
  {
  }

  /** The preprocessed line is a prefix of the line, has no comment, and ends in neither space nor tab. */
  lemma PreprocessedShape(line: string)
    ensures |Preprocessed(line)| <= |line| && Preprocessed(line) == line[..|Preprocessed(line)|]
    ensures ';' !in Preprocessed(line)
    ensures Preprocessed(line) == [] ||
      (Preprocessed(line)[|Preprocessed(line)| - 1] != ' ' && Preprocessed(line)[|Preprocessed(line)| - 1] != '\t')
  {
    var cut := CommentCut(line);
    var r := TrimTrailing(cut);
    PrefixNoSemicolon(cut, |r|);
    assert line[..|r|] == cut[..|r|];
  }

  /** Trimming a text that does not end in space or tab leaves it as it is. */
  lemma TrimTrailingTrimmed(s: string)
    requires s == [] || (s[|s| - 1] != ' ' && s[|s| - 1] != '\t')
    ensures TrimTrailing(s) == s
  {
  }

  /** `linePreprocess` is idempotent. */
  lemma PreprocessIdempotent(line: string)
    ensures Preprocessed(Preprocessed(line)) == Preprocessed(line)
  {
    var p := Preprocessed(line);
    PreprocessedShape(line);
    assert CommentCut(p) == p;
    TrimTrailingTrimmed(p);
  }

  /** A line of spaces and tabs, or one whose comment starts after only those, becomes empty. */
  lemma BlankLineEmpty(line: string)
    requires forall i :: 0 <= i < |CommentCut(line)| ==> CommentCut(line)[i] == ' ' || CommentCut(line)[i] == '\t'
    ensures Preprocessed(line) == []
  {
    BlankTrimsAway(CommentCut(line));
  }

  /** Trimming a text of spaces and tabs leaves nothing. */
  lemma {:induction false} BlankTrimsAway(s: string)
    requires forall i :: 0 <= i < |s| ==> s[i] == ' ' || s[i] == '\t'
    ensures TrimTrailing(s) == []
    decreases |s|
  {
    if s != [] {
      var t := s[..|s| - 1];
      assert forall i :: 0 <= i < |t| ==> t[i] == s[i];
      BlankTrimsAway(t);
    }
  }

  /** The prefix of `s` of spaces, dropped by `>>` before a token. */
  function SkipSpaces(s: string): (r: string)
    ensures |r| <= |s| && r == s[|s| - |r|..]
    ensures r == [] || !IsSpace(r[0])
    ensures Tokens(r) == Tokens(s)
    decreases |s|
  {
    if s != [] && IsSpace(s[0]) then SkipSpaces(s[1..]) else s
  }

  /** The `while (iss >> token)` loop of `parseLine`: every whitespace-separated token, in order. */
  method Tokenize(line: string) returns (tokens: seq<string>)
    ensures tokens == Tokens(line)
  {
    tokens := [];
    var rest := line;
    while true
      invariant tokens + Tokens(rest) == Tokens(line)
      decreases |rest|
    {
      rest := SkipSpaces(rest);
      if rest == [] {
        break;
      }
      var n := WordLength(rest);
      assert Tokens(rest) == [rest[..n]] + Tokens(rest[n..]);
      tokens := tokens + [rest[..n]];
      rest := rest[n..];
    }
  }

  /** `line[0] == ' '` on a line that has a first character. */
  predicate StartsWithSpace(line: string) {
    line != [] && line[0] == ' '
  }

  /** A line with a token is not empty, so `line[0]` exists where the parsers test it. */
  lemma TokensOfNonEmpty(line: string)
    requires Tokens(line) != []
    ensures line != []
  {
    TokensShape(line);
  }

  /** Every member of a parsed state set matches the state pattern. */
  predicate AllStateNames(ss: set<string>) {
    forall s :: s in ss ==> IsStateName(s)
  }

  /** Every member of a parsed symbol set is a valid symbol. */
  predicate AllValidSymbols(cs: set<char>) {
    forall c :: c in cs ==> IsValidSymbol(c)
  }

  /** A state-set control line `#Q` or `#F`: the set, once every member is a state name. */
  function StateSetArg(arg: string): Result<set<string>> {
    match StrSet(arg)
    case Err(e) => Err(e)
    case Ok(ss) => if AllStateNames(ss) then Ok(ss) else Err(AutomataSyntax)
  }

  /** A symbol-set control line `#S` or `#G`: the set, once every member is a valid symbol. */
  function SymbolSetArg(arg: string): Result<set<char>> {
    match CharSet(arg)
    case Err(e) => Err(e)
    case Ok(cs) => if AllValidSymbols(cs) then Ok(cs) else Err(AutomataSyntax)
  }

  /** Every member of a state set matches the state pattern: the `for` loop over the parsed set. */
  method CheckStateNames(ss: set<string>) returns (ok: bool)
    ensures ok == AllStateNames(ss)
  {
    var rest := ss;
    while rest != {}
      invariant rest <= ss
      invariant forall s :: s in ss && s !in rest ==> IsStateName(s)
      decreases rest
    {
      var s :| s in rest;
      if !IsStateName(s) {
        return false;
      }
      rest := rest - {s};
    }
    return true;
  }

  /** Every member of a symbol set is a valid symbol (the `for` loop of `#S` or `#G`). */
  method CheckSymbols(cs: set<char>) returns (ok: bool)
    ensures ok == AllValidSymbols(cs)
  {
    var rest := cs;
    while rest != {}
      invariant rest <= cs
      invariant forall x :: x in cs && x !in rest ==> IsValidSymbol(x)
      decreases rest
    {
      var x :| x in rest;
      if !IsValidSymbol(x) {
        return false;
      }
      rest := rest - {x};
    }
    return true;
  }

  /** Reads a state-set argument as `#Q` and `#F` do. */
  method ReadStateSet(arg: string) returns (r: Result<set<string>>)
    ensures r == StateSetArg(arg)
  {
    r := ParseStrSet(arg);
    if r.Ok? {
      var ok := CheckStateNames(r.value);
      if !ok {
        r := Err(AutomataSyntax);
      }
    }
  }

  /** Reads a symbol-set argument as `#S` and `#G` do. */
  method ReadSymbolSet(arg: string) returns (r: Result<set<char>>)
    ensures r == SymbolSetArg(arg)
  {
    r := ParseCharSet(arg);
    if r.Ok? {
      var ok := CheckSymbols(r.value);
      if !ok {
        r := Err(AutomataSyntax);
      }
    }
  }
}
