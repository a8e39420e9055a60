/**
 * The pieces of the C++ string library the source relies on: `std::string::find`,
 * `std::getline` with a delimiter, and whitespace-separated extraction `>>`.
 */
module Text {

  /** `isspace` in the C locale: the characters `>>` skips. */
  predicate IsSpace(c: char) {
    c == ' ' || c == '\t' || c == '\n' || c == '\r' || c == '\U{B}' || c == '\U{C}'
  }

  /** `s.find(c)`: the first index of `c` in `s`, or -1 for `npos`. */
  function IndexOf(s: string, c: char): (r: int)
    ensures -1 <= r < |s|
    ensures r >= 0 ==> s[r] == c
  {
    if s == [] then -1
    else if s[0] == c then 0
    else
      var k := IndexOf(s[1..], c);
      if k == -1 then -1 else k + 1
  }

  /** `find` fails exactly when `c` is absent, and otherwise no `c` comes before the index. */
  lemma {:induction false} IndexOfSpec(s: string, c: char)
    ensures IndexOf(s, c) == -1 <==> c !in s
    ensures IndexOf(s, c) >= 0 ==> c !in s[..IndexOf(s, c)]
    decreases |s|
  {
    if s != [] && s[0] != c {
      var k := IndexOf(s[1..], c);
      IndexOfSpec(s[1..], c);
      assert s == [s[0]] + s[1..];
      if k >= 0 {
        assert s[..k + 1] == [s[0]] + s[1..][..k];
      }
    }
  }

  /**
   * The pieces `std::getline(ss, piece, sep)` extracts from `s` until it fails:
   * every separator ends a piece (so `",,"` gives two empty pieces), and the text after
   * the last separator is a piece only when it is not empty.
   */
  function Split(s: string, sep: char): (pieces: seq<string>)
    ensures s == [] <==> pieces == []
    decreases |s|
  {
    var k := IndexOf(s, sep);
    if s == [] then []
    else if k == -1 then [s]
    else [s[..k]] + Split(s[k + 1..], sep)
  }

  /** No piece contains the separator. */
  lemma {:induction false} SplitNoSeparator(s: string, sep: char)
    ensures forall i :: 0 <= i < |Split(s, sep)| ==> sep !in Split(s, sep)[i]
    decreases |s|
  {
    if s != [] {
      IndexOfSpec(s, sep);
      var k := IndexOf(s, sep);
      if k != -1 {
        SplitNoSeparator(s[k + 1..], sep);
        assert Split(s, sep) == [s[..k]] + Split(s[k + 1..], sep);
      }
    }
  }

  /** The pieces joined back with the separator between them. */
  function Join(pieces: seq<string>, sep: char): string {
    if pieces == [] then []
    else if |pieces| == 1 then pieces[0]
    else pieces[0] + [sep] + Join(pieces[1..], sep)
  }

  /** Splitting at a separator that is the last character leaves one piece. */
  lemma JoinSplitLast(s: string, sep: char, k: int)
    requires 0 <= k == |s| - 1 && k == IndexOf(s, sep)
    ensures Join(Split(s, sep), sep) == s[..|s| - 1]
  {
    var head := s[..k];
    assert Split(s[k + 1..], sep) == [];
    assert Split(s, sep) == [head] + [];
    assert s[..|s| - 1] == head;
  }

  /** Splitting at an inner separator: the first piece, the separator, and the rest rejoined. */
  lemma JoinSplitInner(s: string, sep: char, k: int, j: string)
    requires 0 <= k < |s| && k == IndexOf(s, sep) && s[k + 1..] != []
    requires Join(Split(s[k + 1..], sep), sep) == j
    ensures Join(Split(s, sep), sep) == s[..k] + [sep] + j
  {
    var tail := Split(s[k + 1..], sep);
    var pieces := [s[..k]] + tail;
    assert Split(s, sep) == pieces;
    assert pieces[1..] == tail;
  }

  /** Without a separator, splitting gives `s` back as its only piece. */
  lemma JoinSplitNone(s: string, sep: char)
    requires s != [] && IndexOf(s, sep) == -1
    ensures Join(Split(s, sep), sep) == s && s[|s| - 1] != sep
  {
    assert Split(s, sep) == [s];
  }

  /** `s` without its last character when that is `sep`. */
  function DropFinal(s: string, sep: char): string {
    if s != [] && s[|s| - 1] == sep then s[..|s| - 1] else s
  }

  /** Dropping a final separator commutes with cutting `s` at a separator at `k`. */
  lemma DropLastSep(s: string, sep: char, k: int)
    requires 0 <= k < |s| - 1 && s[k] == sep
    ensures s[..k] + [sep] + DropFinal(s[k + 1..], sep) == DropFinal(s, sep)
  {
    var rest := s[k + 1..];
    assert rest[|rest| - 1] == s[|s| - 1];
    if s[|s| - 1] == sep {
      assert rest[..|rest| - 1] == s[k + 1..|s| - 1];
      assert s[..|s| - 1] == s[..k] + [sep] + s[k + 1..|s| - 1];
    } else {
      assert s == s[..k] + [sep] + rest;
    }
  }

  /**
   * Splitting loses only a final separator: joining the pieces gives back `s`,
   * without its last character when that is the separator.
   */
  lemma {:induction false} JoinSplit(s: string, sep: char)
    ensures Join(Split(s, sep), sep) == DropFinal(s, sep)
    decreases |s|
  {
    if s != [] {
      var k := IndexOf(s, sep);
      if k == -1 {
        JoinSplitNone(s, sep);
      } else if k == |s| - 1 {
        JoinSplitLast(s, sep, k);
      } else {
        var rest := s[k + 1..];
        JoinSplit(rest, sep);
        JoinSplitInner(s, sep, k, Join(Split(rest, sep), sep));
        DropLastSep(s, sep, k);
      }
    }
  }

  /** Length of the run of non-space characters at the front of `s`. */
  function WordLength(s: string): (n: nat)
    ensures n <= |s|
    ensures forall i :: 0 <= i < n ==> !IsSpace(s[i])
    ensures n < |s| ==> IsSpace(s[n])
  {
    if s == [] || IsSpace(s[0]) then 0 else 1 + WordLength(s[1..])
  }

  /** The tokens `while (iss >> token)` extracts: maximal runs of non-space characters. */
  function Tokens(s: string): (ts: seq<string>)
    ensures forall i :: 0 <= i < |ts| ==> |ts[i]| > 0
    decreases |s|
  {
    if s == [] then []
    else if IsSpace(s[0]) then Tokens(s[1..])
    else
      var n := WordLength(s);
      [s[..n]] + Tokens(s[n..])
  }

  /** Tokens hold no spaces, and there are none exactly when `s` is all spaces. */
  lemma {:induction false} TokensShape(s: string)
    ensures forall i, j :: 0 <= i < |Tokens(s)| && 0 <= j < |Tokens(s)[i]| ==> !IsSpace(Tokens(s)[i][j])
    ensures Tokens(s) == [] <==> forall i :: 0 <= i < |s| ==> IsSpace(s[i])
    decreases |s|
  {
    if s != [] {
      if IsSpace(s[0]) {
        TokensShape(s[1..]);
        assert forall i :: 1 <= i < |s| ==> s[i] == s[1..][i - 1];
      } else {
        var n := WordLength(s);
        TokensShape(s[n..]);
        var ts := Tokens(s);
        assert ts == [s[..n]] + Tokens(s[n..]);
        assert forall i :: 1 <= i < |ts| ==> ts[i] == Tokens(s[n..])[i - 1];
      }
    }
  }

  /** `s.substr(0, s.find(';'))` when there is a `';'`: the text before the comment. */
  function CommentCut(s: string): (r: string)
    ensures ';' !in r
    ensures |r| <= |s| && r == s[..|r|]
    ensures |r| < |s| ==> s[|r|] == ';'
    ensures ';' !in s ==> r == s
  {
    IndexOfSpec(s, ';');
    var k := IndexOf(s, ';');
    if k == -1 then s else s[..k]
  }

  /** `s.erase(s.find_last_not_of(" \t") + 1)`: drop trailing spaces and tabs. */
  function TrimTrailing(s: string): (r: string)
    ensures |r| <= |s| && r == s[..|r|]
    ensures r == [] || (r[|r| - 1] != ' ' && r[|r| - 1] != '\t')
    ensures forall i :: |r| <= i < |s| ==> s[i] == ' ' || s[i] == '\t'
    decreases |s|
  {
    if s != [] && (s[|s| - 1] == ' ' || s[|s| - 1] == '\t') then TrimTrailing(s[..|s| - 1]) else s
  }
}
