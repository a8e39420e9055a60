/** The set literals of the description files: `{a,b,c}` for state names and for symbols. */
module ParseToken {
  import opened Errors
  import opened Text

  /** The first `'{'` is the first character and the first `'}'` is the last one. */
  predicate Braced(s: string) {
    IndexOf(s, '{') == 0 && IndexOf(s, '}') == |s| - 1
  }

  /** The text between the braces. */
  function Content(s: string): (c: string)
    requires Braced(s)
    ensures |c| == |s| - 2 && '}' !in c
  {
    IndexOfSpec(s, '}');
    assert s[..|s| - 1] == s[..1] + s[1..|s| - 1];
    s[1..|s| - 1]
  }

  /** The pieces as a set: order and repetition are lost. */
  function PieceSet(pieces: seq<string>): set<string> {
    set p | p in pieces
  }

  /** The symbols of one-character pieces. */
  function PieceChars(pieces: seq<string>): set<char> {
    set p | p in pieces && |p| == 1 :: p[0]
  }

  /** Every piece is a single character. */
  predicate AllSingle(pieces: seq<string>) {
    forall i :: 0 <= i < |pieces| ==> |pieces[i]| == 1
  }

  /** `parseStrSet(s)`: the comma-separated pieces between the braces, kept verbatim. */
  function StrSet(s: string): Result<set<string>> {
    if Braced(s) then Ok(PieceSet(Split(Content(s), ','))) else Err(AutomataSyntax)
  }

  /** `parseCharSet(s)`: like `StrSet`, but every piece must be one character. */
  function CharSet(s: string): Result<set<char>> {
    if !Braced(s) then Err(AutomataSyntax)
    else
      var pieces := Split(Content(s), ',');
      if AllSingle(pieces) then Ok(PieceChars(pieces)) else Err(AutomataSyntax)
  }

  /** One `getline` call on text without the separator: the whole text is the only piece. */
  lemma {:induction false} SplitWhole(rest: string, sep: char)
    requires rest != [] && IndexOf(rest, sep) == -1
    ensures Split(rest, sep) == [rest]
  {
  }

  /** One `getline` call on text with the separator: the piece before it, then the rest. */
  lemma {:induction false} SplitAtFirst(rest: string, sep: char)
    requires rest != [] && IndexOf(rest, sep) != -1
    ensures Split(rest, sep) == [rest[..IndexOf(rest, sep)]] + Split(rest[IndexOf(rest, sep) + 1..], sep)
  {
  }

  /** One `std::getline(ss, piece, sep)` on the unread text `rest`: the next piece and what follows it. */
  method Getline(rest: string, sep: char) returns (piece: string, after: string)
    requires rest != []
    ensures Split(rest, sep) == [piece] + Split(after, sep)
    ensures |after| < |rest|
  {
    var k := IndexOf(rest, sep);
    if k == -1 {
      SplitWhole(rest, sep);
      piece, after := rest, [];
    } else {
      SplitAtFirst(rest, sep);
      piece, after := rest[..k], rest[k + 1..];
    }
  }

  /** Adding a piece to the pieces already read adds its character. */
  lemma PieceCharsSnoc(done: seq<string>, piece: string)
    requires |piece| == 1
    ensures PieceChars(done + [piece]) == PieceChars(done) + {piece[0]}
  {
    assert forall p :: p in done + [piece] <==> p in done || p == piece;
  }

  /** Reading one more piece keeps the facts of `parseStrSet`'s loop. */
  lemma PieceStep(done: seq<string>, piece: string, tail: seq<string>, whole: seq<string>)
    requires done + ([piece] + tail) == whole
    ensures (done + [piece]) + tail == whole
    ensures PieceSet(done + [piece]) == PieceSet(done) + {piece}
  {
    assert forall p :: p in done + [piece] <==> p in done || p == piece;
  }

  /** Reading one more one-character piece keeps the loop's facts. */
  lemma SingleStep(done: seq<string>, piece: string, tail: seq<string>, whole: seq<string>)
    requires done + ([piece] + tail) == whole && |piece| == 1 && AllSingle(done)
    ensures (done + [piece]) + tail == whole
    ensures AllSingle(done + [piece])
    ensures PieceChars(done + [piece]) == PieceChars(done) + {piece[0]}
  {
    PieceCharsSnoc(done, piece);
    assert forall i :: 0 <= i < |done| ==> (done + [piece])[i] == done[i];
  }

  /** A piece of another length anywhere makes the pieces fail `AllSingle`. */
  lemma NotAllSingle(done: seq<string>, piece: string, tail: seq<string>, whole: seq<string>)
    requires done + ([piece] + tail) == whole && |piece| != 1
    ensures !AllSingle(whole)
  {
    assert whole[|done|] == piece;
  }

  /** `parseStrSet`: the brace check, then the `getline` loop over the content. */
  method ParseStrSet(s: string) returns (r: Result<set<string>>)
    ensures r == StrSet(s)
  {
    var start := IndexOf(s, '{');
    var end := IndexOf(s, '}');
    if !(start == 0 && end == |s| - 1) {
      return Err(AutomataSyntax);
    }
    var result := InsertPieces(s[1..|s| - 1]);
    return Ok(result);
  }

  /** The `getline` loop of `parseStrSet`: every piece of `content` is inserted. */
  method InsertPieces(content: string) returns (result: set<string>)
    ensures result == PieceSet(Split(content, ','))
  {
    result := {};
    var rest := content;
    ghost var done: seq<string> := [];
    while rest != []
      invariant done + Split(rest, ',') == Split(content, ',')
      invariant result == PieceSet(done)
      decreases |rest|
    {
      var piece, after := Getline(rest, ',');
      PieceStep(done, piece, Split(after, ','), Split(content, ','));
      result := result + {piece};
      done := done + [piece];
      rest := after;
    }
    assert done + [] == Split(content, ',');
  }

  /** `parseCharSet`: the brace check, then the `getline` loop over the content. */
  method ParseCharSet(s: string) returns (r: Result<set<char>>)
    ensures r == CharSet(s)
  {
    var start := IndexOf(s, '{');
    var end := IndexOf(s, '}');
    if !(start == 0 && end == |s| - 1) {
      return Err(AutomataSyntax);
    }
    r := InsertChars(s[1..|s| - 1]);
  }

  /** The `getline` loop of `parseCharSet`: throws on the first piece that is not one character. */
  method InsertChars(content: string) returns (r: Result<set<char>>)
    ensures r.Ok? <==> AllSingle(Split(content, ','))
    ensures r.Ok? ==> r.value == PieceChars(Split(content, ','))
    ensures r.Err? ==> r.error == AutomataSyntax
  {
    var result: set<char> := {};
    var rest := content;
    ghost var done: seq<string> := [];
    while rest != []
      invariant done + Split(rest, ',') == Split(content, ',')
      invariant AllSingle(done) && result == PieceChars(done)
      decreases |rest|
    {
      var piece, after := Getline(rest, ',');
      if |piece| != 1 {
        NotAllSingle(done, piece, Split(after, ','), Split(content, ','));
        return Err(AutomataSyntax);
      }
      SingleStep(done, piece, Split(after, ','), Split(content, ','));
      result := result + {piece[0]};
      done := done + [piece];
      rest := after;
    }
    assert done + [] == Split(content, ',');
    return Ok(result);
  }

  /** A set literal is refused exactly when the braces are not at both ends. */
  lemma StrSetErrorIffUnbraced(s: string)
    ensures StrSet(s).Err? <==> !Braced(s)
    ensures !Braced(s) ==> CharSet(s).Err?
  {
  }

  /** `{}` is the only literal of the empty set. */
  lemma EmptyLiteral(s: string)
    requires StrSet(s).Ok?
    ensures StrSet(s).value == {} <==> s == "{}"
  {
    var pieces := Split(Content(s), ',');
    if Content(s) != [] {
      assert pieces[0] in PieceSet(pieces);
    } else {
      assert s == s[..1] + Content(s) + s[|s| - 1..];
    }
  }

  /** No member of a string set contains a comma or a closing brace. */
  lemma StrSetMembers(s: string, m: string)
    requires StrSet(s).Ok? && m in StrSet(s).value
    ensures ',' !in m && '}' !in m
  {
    var pieces := Split(Content(s), ',');
    var i :| 0 <= i < |pieces| && pieces[i] == m;
    SplitNoSeparator(Content(s), ',');
    SplitPiecesWithin(Content(s), ',', '}');
  }

  /** Every piece of a split lies within the split text, so it avoids what the text avoids. */
  lemma {:induction false} SplitPiecesWithin(s: string, sep: char, x: char)
    requires x !in s
    ensures forall i :: 0 <= i < |Split(s, sep)| ==> x !in Split(s, sep)[i]
    decreases |s|
  {
    if s != [] {
      var k := IndexOf(s, sep);
      if k != -1 {
        assert forall j :: 0 <= j < k ==> s[..k][j] == s[j];
        SplitPiecesWithin(s[k + 1..], sep, x);
      }
    }
  }

  /** A character set is the string set read one character per member, when it is accepted. */
  lemma CharSetFromStrSet(s: string)
    requires CharSet(s).Ok?
    ensures StrSet(s).Ok?
    ensures forall m :: m in StrSet(s).value ==> |m| == 1
    ensures CharSet(s).value == set m | m in StrSet(s).value && |m| == 1 :: m[0]
  {
  }

  /** An interior empty piece is kept: `{a,,b}` has the empty string as a member. */
  lemma InteriorEmptyPieceKept()
    ensures StrSet("{a,,b}") == Ok({"a", "", "b"})
  {
    BracedExample();
    SplitExample();
    PieceSetThree("a", "", "b");
  }

  /** `{a,,b}` is braced, with `a,,b` inside. */
  lemma BracedExample()
    ensures Braced("{a,,b}") && Content("{a,,b}") == "a,,b"
  {
    assert IndexOf("{a,,b}", '{') == 0;
    assert IndexOf("}", '}') == 0;
    assert "{a,,b}"[1..] == "a,,b}";
  }

  /** `a,,b` splits into `a`, the empty piece and `b`. */
  lemma SplitExample()
    ensures Split("a,,b", ',') == ["a", "", "b"]
  {
    var c, r1, r2 := "a,,b", ",b", "b";
    assert IndexOf(r2[1..], ',') == -1 by { assert r2[1..] == []; }
    assert IndexOf(r2, ',') == -1;
    SplitWhole(r2, ',');
    assert IndexOf(r1, ',') == 0;
    SplitAtFirst(r1, ',');
    assert r1[..0] == "" && r1[1..] == r2;
    assert IndexOf(c[1..], ',') == 0 by { assert c[1..][0] == ','; }
    assert IndexOf(c, ',') == 1;
    SplitAtFirst(c, ',');
    assert c[..1] == "a" && c[2..] == r1;
  }

  /** Three pieces give the set of the three. */
  lemma PieceSetThree(x: string, y: string, z: string)
    ensures PieceSet([x, y, z]) == {x, y, z}
  {
    assert forall p :: p in [x, y, z] <==> p == x || p == y || p == z;
  }

  /** One one-character piece gives the one string and the one character. */
  lemma PieceSetOne(x: string)
    requires |x| == 1
    ensures PieceSet([x]) == {x} && AllSingle([x]) && PieceChars([x]) == {x[0]}
  {
    assert forall p :: p in [x] <==> p == x;
  }

  /** A single trailing comma adds no empty piece: `{a,}` is `{a}`. */
  lemma TrailingCommaIgnored()
    ensures StrSet("{a,}") == Ok({"a"})
    ensures CharSet("{a,}") == Ok({'a'})
  {
    assert Braced("{a,}");
    var c := Content("{a,}");
    assert c == "a,";
    assert IndexOf(c, ',') == 1;
    SplitAtFirst(c, ',');
    assert c[..1] == "a" && c[2..] == [];
    assert Split(c, ',') == ["a"];
    PieceSetOne("a");
  }
}
