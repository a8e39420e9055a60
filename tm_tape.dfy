/**
 * The tape of a Turing machine: a deque of cells that grows by one blank at either
 * end when the head walks off it, with `leftIdx` the absolute position of the first
 * stored cell and `head` the absolute position of the head.
 */
module TMTape {

  /** The blank a tape built with `TMTape()` uses. */
  const DefaultBlank: char := '_'

  /** The stored cells, the position of the first of them, and the head position. */
  datatype TapeState = TapeState(cells: seq<char>, leftIdx: int, head: int)

  /** The head is on a stored cell. */
  predicate HeadInRange(t: TapeState) {
    t.leftIdx <= t.head < t.leftIdx + |t.cells|
  }

  /** The symbol at absolute position `a` of the infinite tape: the stored cell, or blank. */
  function Symbol(t: TapeState, blank: char, a: int): char {
    if t.leftIdx <= a < t.leftIdx + |t.cells| then t.cells[a - t.leftIdx] else blank
  }

  /** The symbol under the head. */
  function HeadSymbol(t: TapeState, blank: char): char {
    Symbol(t, blank, t.head)
  }

  /** Both states describe the same infinite tape. */
  ghost predicate SameTape(t: TapeState, u: TapeState, blank: char) {
    forall a :: Symbol(t, blank, a) == Symbol(u, blank, a)
  }

  /** A new or cleared tape: a single blank cell, under the head, at position 0. */
  function Blank(blank: char): (t: TapeState)
    ensures HeadInRange(t) && t.leftIdx == 0 && t.head == 0
    ensures forall a :: Symbol(t, blank, a) == blank
  {
    TapeState([blank], 0, 0)
  }

  /** `init(s)` as the source writes it: the cells are exactly `s`, even when `s` is empty. */
  function LoadedAsWritten(s: string): (t: TapeState)
    ensures t.leftIdx == 0 && t.head == 0 && t.cells == s
  {
    TapeState(s, 0, 0)
  }

  /**
   * `init(s)` as intended: `s` from position 0 with the head on its first symbol, and
   * for the empty input a single blank cell, so that the head is always on a cell.
   */
  function Loaded(s: string, blank: char): (t: TapeState)
    ensures HeadInRange(t) && t.leftIdx == 0 && t.head == 0
    ensures forall a :: Symbol(t, blank, a) == (if 0 <= a < |s| then s[a] else blank)
  {
    TapeState(if s == [] then [blank] else s, 0, 0)
  }

  /** On the empty input, `init` as written leaves no cell under the head for `read`. */
  lemma EmptyInitHasNoHeadCell()
    ensures !HeadInRange(LoadedAsWritten([]))
    ensures forall blank :: HeadInRange(Loaded([], blank))
  {
  }

  /** On every other input the corrected `init` is the one the source writes. */
  lemma LoadedMatchesAsWritten(s: string, blank: char)
    requires s != []
    ensures Loaded(s, blank) == LoadedAsWritten(s)
  {
  }

  /** `write(c)`: the cell under the head becomes `c`; nothing else changes. */
  function Written(t: TapeState, c: char): (r: TapeState)
    requires HeadInRange(t)
    ensures HeadInRange(r) && r.leftIdx == t.leftIdx && r.head == t.head && |r.cells| == |t.cells|
    ensures forall blank :: HeadSymbol(r, blank) == c
    ensures forall blank, a :: a != t.head ==> Symbol(r, blank, a) == Symbol(t, blank, a)
  {
    t.(cells := t.cells[t.head - t.leftIdx := c])
  }

  /** Writing back the symbol just read leaves the tape as it was. */
  lemma WriteBackUnchanged(t: TapeState, blank: char)
    requires HeadInRange(t)
    ensures Written(t, HeadSymbol(t, blank)) == t
  {
    assert t.cells[t.head - t.leftIdx := t.cells[t.head - t.leftIdx]] == t.cells;
  }

  /**
   * `moveLeft()`: the head moves one position left; at the left end of the stored cells
   * one blank cell is put in front, so `leftIdx` drops by one as well.
   */
  function MovedLeft(t: TapeState, blank: char): (r: TapeState)
    ensures r.head == t.head - 1
    ensures t.head == t.leftIdx ==> r.leftIdx == t.leftIdx - 1 && r.cells == [blank] + t.cells
    ensures t.head != t.leftIdx ==> r.leftIdx == t.leftIdx && r.cells == t.cells
    ensures HeadInRange(t) ==> HeadInRange(r)
    ensures SameTape(t, r, blank)
  {
    if t.head == t.leftIdx then TapeState([blank] + t.cells, t.leftIdx - 1, t.head - 1)
    else t.(head := t.head - 1)
  }

  /**
   * `moveRight()`: the head moves one position right; on the last stored cell one blank
   * cell is appended first. `leftIdx` never changes.
   */
  function MovedRight(t: TapeState, blank: char): (r: TapeState)
    ensures r.head == t.head + 1 && r.leftIdx == t.leftIdx
    ensures t.head - t.leftIdx + 1 == |t.cells| ==> r.cells == t.cells + [blank]
    ensures t.head - t.leftIdx + 1 != |t.cells| ==> r.cells == t.cells
    ensures HeadInRange(t) ==> HeadInRange(r)
    ensures SameTape(t, r, blank)
  {
    if t.head - t.leftIdx + 1 == |t.cells| then TapeState(t.cells + [blank], t.leftIdx, t.head + 1)
    else t.(head := t.head + 1)
  }

  /**
   * A cell exposed by walking off either end reads as the blank, and the head stays on a
   * stored cell after any move.
   */
  lemma ExtensionReadsBlank(t: TapeState, blank: char)
    requires HeadInRange(t)
    ensures t.head == t.leftIdx ==>
      HeadSymbol(MovedLeft(t, blank), blank) == blank && MovedLeft(t, blank).leftIdx == t.leftIdx - 1
    ensures t.head - t.leftIdx + 1 == |t.cells| ==>
      HeadSymbol(MovedRight(t, blank), blank) == blank && |MovedRight(t, blank).cells| == |t.cells| + 1
    ensures HeadInRange(MovedLeft(t, blank)) && HeadInRange(MovedRight(t, blank))
  {
  }

  /**
   * The first loop of `minimize()`: pop blank cells off the front while they lie left of
   * the head and more than one cell remains.
   */
  function TrimFront(t: TapeState, blank: char): (r: TapeState)
    ensures r.head == t.head && t.leftIdx <= r.leftIdx <= t.leftIdx + |t.cells|
    ensures r.leftIdx + |r.cells| == t.leftIdx + |t.cells|
    decreases |t.cells|
  {
    if CanTrimFront(t, blank) then
      TrimFront(TapeState(t.cells[1..], t.leftIdx + 1, t.head), blank)
    else
      t
  }

  /** The first loop keeps the head on a cell and stops at the head cell or a non-blank one. */
  lemma {:induction false} TrimFrontMinimal(t: TapeState, blank: char)
    requires HeadInRange(t)
    ensures HeadInRange(TrimFront(t, blank)) && MinimalAtFront(TrimFront(t, blank), blank)
    decreases |t.cells|
  {
    if CanTrimFront(t, blank) {
      TrimFrontMinimal(TapeState(t.cells[1..], t.leftIdx + 1, t.head), blank);
    }
  }

  /**
   * The second loop of `minimize()`: pop blank cells off the back while they lie right of
   * the head and more than one cell remains.
   */
  function TrimBack(t: TapeState, blank: char): (r: TapeState)
    ensures r.head == t.head && r.leftIdx == t.leftIdx
    ensures |r.cells| <= |t.cells| && r.cells == t.cells[..|r.cells|]
    ensures HeadInRange(t) ==> HeadInRange(r) && MinimalAtBack(r, blank)
    decreases |t.cells|
  {
    if CanTrimBack(t, blank) then
      TrimBack(t.(cells := t.cells[..|t.cells| - 1]), blank)
    else
      t
  }

  /** The guard of the first `minimize()` loop. */
  predicate CanTrimFront(t: TapeState, blank: char) {
    t.leftIdx < t.head && |t.cells| > 1 && t.cells[0] == blank
  }

  /** The guard of the second `minimize()` loop. */
  predicate CanTrimBack(t: TapeState, blank: char) {
    t.head - t.leftIdx + 1 < |t.cells| && |t.cells| > 1 && t.cells[|t.cells| - 1] == blank
  }

  /** One pass of the first loop does not change where it ends. */
  lemma {:induction false} TrimFrontStep(t: TapeState, blank: char)
    requires CanTrimFront(t, blank)
    ensures TrimFront(t, blank) == TrimFront(TapeState(t.cells[1..], t.leftIdx + 1, t.head), blank)
  {
  }

  /** One pass of the second loop does not change where it ends. */
  lemma {:induction false} TrimBackStep(t: TapeState, blank: char)
    requires CanTrimBack(t, blank)
    ensures TrimBack(t, blank) == TrimBack(t.(cells := t.cells[..|t.cells| - 1]), blank)
  {
  }

  /** The first loop pops only cells that read as blank anyway. */
  lemma {:induction false} TrimFrontSameTape(t: TapeState, blank: char)
    ensures SameTape(t, TrimFront(t, blank), blank)
    decreases |t.cells|
  {
    if CanTrimFront(t, blank) {
      var u := TapeState(t.cells[1..], t.leftIdx + 1, t.head);
      TrimFrontSameTape(u, blank);
      assert forall a :: Symbol(t, blank, a) == Symbol(u, blank, a);
    }
  }

  /** The second loop pops only cells that read as blank anyway. */
  lemma {:induction false} TrimBackSameTape(t: TapeState, blank: char)
    ensures SameTape(t, TrimBack(t, blank), blank)
    decreases |t.cells|
  {
    if CanTrimBack(t, blank) {
      var u := t.(cells := t.cells[..|t.cells| - 1]);
      TrimBackSameTape(u, blank);
      assert forall a :: Symbol(t, blank, a) == Symbol(u, blank, a);
    }
  }

  /** `minimize()`: both loops, front first. */
  function Minimized(t: TapeState, blank: char): (r: TapeState)
    ensures r.head == t.head && t.leftIdx <= r.leftIdx && r.leftIdx + |r.cells| <= t.leftIdx + |t.cells|
  {
    TrimBack(TrimFront(t, blank), blank)
  }

  /**
   * `minimize()` drops only blank cells at both ends, never the head cell and never the
   * last cell: the infinite tape, the head and the symbol under it stay the same, and
   * afterwards each end is the head cell or holds a non-blank symbol.
   */
  lemma MinimizeSound(t: TapeState, blank: char)
    ensures SameTape(t, Minimized(t, blank), blank)
    ensures HeadSymbol(Minimized(t, blank), blank) == HeadSymbol(t, blank)
    ensures HeadInRange(t) ==> HeadInRange(Minimized(t, blank)) && |Minimized(t, blank).cells| >= 1
    ensures HeadInRange(t) ==> MinimalAtFront(Minimized(t, blank), blank)
    ensures HeadInRange(t) ==> MinimalAtBack(Minimized(t, blank), blank)
  {
    var f := TrimFront(t, blank);
    var r := TrimBack(f, blank);
    TrimFrontSameTape(t, blank);
    TrimBackSameTape(f, blank);
    if HeadInRange(t) {
      TrimFrontMinimal(t, blank);
    }
    assert SameTape(t, r, blank) by {
      forall a ensures Symbol(t, blank, a) == Symbol(r, blank, a) {
        assert Symbol(t, blank, a) == Symbol(f, blank, a);
      }
    }
    assert |r.cells| >= 1 ==> r.cells[0] == f.cells[0];
  }

  /** The front cell is the head cell or non-blank. */
  predicate MinimalAtFront(t: TapeState, blank: char) {
    t.leftIdx == t.head || (|t.cells| > 0 && t.cells[0] != blank)
  }

  /** The back cell is the head cell or non-blank. */
  predicate MinimalAtBack(t: TapeState, blank: char) {
    t.head - t.leftIdx + 1 == |t.cells| || (|t.cells| > 0 && t.cells[|t.cells| - 1] != blank)
  }

  /** Minimizing twice is minimizing once. */
  lemma MinimizeIdempotent(t: TapeState, blank: char)
    requires HeadInRange(t)
    ensures Minimized(Minimized(t, blank), blank) == Minimized(t, blank)
  {
    var r := Minimized(t, blank);
    MinimizeSound(t, blank);
    assert !CanTrimFront(r, blank);
    assert TrimFront(r, blank) == r;
    assert !CanTrimBack(r, blank);
  }

  /**
   * What `getNonBlank(idx)` returns on a tape whose head is on a cell: `text` is the
   * infinite tape read from position `idx`, the window covers the head and every
   * non-blank symbol, and each end of it is the head or a non-blank symbol.
   */
  ghost predicate IsNonBlankWindow(t: TapeState, blank: char, text: string, idx: int) {
    && idx <= t.head < idx + |text|
    && (forall k :: 0 <= k < |text| ==> text[k] == Symbol(t, blank, idx + k))
    && (forall a :: Symbol(t, blank, a) != blank ==> idx <= a < idx + |text|)
    && (idx == t.head || text[0] != blank)
    && (idx + |text| - 1 == t.head || text[|text| - 1] != blank)
  }

  /**
   * The stored cells from `left` to `right` are the window when only blanks lie outside
   * them, the head lies inside, and each end is the head or non-blank.
   */
  lemma CellsWindow(t: TapeState, blank: char, left: int, right: int)
    requires HeadInRange(t)
    requires 0 <= left <= t.head - t.leftIdx <= right < |t.cells|
    requires forall k :: 0 <= k < left ==> t.cells[k] == blank
    requires forall k :: right < k < |t.cells| ==> t.cells[k] == blank
    requires left == t.head - t.leftIdx || t.cells[left] != blank
    requires right == t.head - t.leftIdx || t.cells[right] != blank
    ensures IsNonBlankWindow(t, blank, t.cells[left..right + 1], left + t.leftIdx)
  {
    var text := t.cells[left..right + 1];
    assert forall k :: 0 <= k < |text| ==> text[k] == t.cells[left + k];
  }

  /** The window is determined by the tape, so two `getNonBlank` calls agree. */
  lemma WindowUnique(t: TapeState, blank: char, x: string, i: int, y: string, j: int)
    requires IsNonBlankWindow(t, blank, x, i) && IsNonBlankWindow(t, blank, y, j)
    ensures x == y && i == j
  {
    assert forall k :: 0 <= k < |x| ==> x[k] == y[k];
  }

  /** Two states with the same infinite tape and head have the same non-blank window. */
  lemma WindowOfSameTape(t: TapeState, u: TapeState, blank: char, text: string, idx: int)
    requires SameTape(t, u, blank) && t.head == u.head
    requires IsNonBlankWindow(t, blank, text, idx)
    ensures IsNonBlankWindow(u, blank, text, idx)
  {
    assert forall a :: Symbol(t, blank, a) == Symbol(u, blank, a);
  }

  /** `minimize()` does not change what `getNonBlank` returns. */
  lemma MinimizeKeepsWindow(t: TapeState, blank: char, text: string, idx: int)
    requires IsNonBlankWindow(t, blank, text, idx)
    ensures IsNonBlankWindow(Minimized(t, blank), blank, text, idx)
  {
    MinimizeSound(t, blank);
    WindowOfSameTape(t, Minimized(t, blank), blank, text, idx);
  }

  /** A tape whose cells the source keeps in a deque and updates in place. */
  class Tape {
    var cells: seq<char>
    var leftIdx: int
    var head: int
    const blank: char

    /** The value this tape holds. */
    function State(): TapeState
      reads this
    {
      TapeState(cells, leftIdx, head)
    }

    /** `TMTape()`: one blank cell, blank `'_'`. */
    constructor ()
      ensures blank == DefaultBlank && State() == Blank(DefaultBlank)
    {
      blank := DefaultBlank;
      cells, leftIdx, head := [DefaultBlank], 0, 0;
    }

    /** `TMTape(blank_char)`: one blank cell of the given blank. */
    constructor WithBlank(blankChar: char)
      ensures blank == blankChar && State() == Blank(blankChar)
    {
      blank := blankChar;
      cells, leftIdx, head := [blankChar], 0, 0;
    }

    /** `init(s)` as the source writes it: the cells become exactly `s`. */
    method Init(s: string)
      modifies this
      ensures State() == LoadedAsWritten(s)
    {
      leftIdx, head := 0, 0;
      cells := [];
      var i := 0;
      while i < |s|
        invariant 0 <= i <= |s| && cells == s[..i] && leftIdx == 0 && head == 0
      {
        cells := cells + [s[i]];
        i := i + 1;
      }
    }

    /** `init(s)` as intended: like `Init`, with one blank cell for the empty input. */
    method InitPadded(s: string)
      modifies this
      ensures State() == Loaded(s, blank)
    {
      Init(s);
      if cells == [] {
        cells := [blank];
      }
    }

    /** `clear()`: back to a single blank cell at position 0. */
    method Clear()
      modifies this
      ensures State() == Blank(blank)
    {
      leftIdx, head := 0, 0;
      cells := [blank];
    }

    /** `read()`: the symbol under the head. */
    method Read() returns (c: char)
      requires HeadInRange(State())
      ensures c == HeadSymbol(State(), blank)
    {
      c := cells[head - leftIdx];
    }

    /** `write(c)`. */
    method Write(c: char)
      requires HeadInRange(State())
      modifies this
      ensures State() == Written(old(State()), c)
    {
      cells := cells[head - leftIdx := c];
    }

    /** `moveLeft()`. */
    method MoveLeft()
      modifies this
      ensures State() == MovedLeft(old(State()), blank)
    {
      if head == leftIdx {
        cells := [blank] + cells;
        leftIdx := leftIdx - 1;
        head := head - 1;
      } else {
        head := head - 1;
      }
    }

    /** `moveRight()`. */
    method MoveRight()
      modifies this
      ensures State() == MovedRight(old(State()), blank)
    {
      if head - leftIdx + 1 == |cells| {
        cells := cells + [blank];
        head := head + 1;
      } else {
        head := head + 1;
      }
    }

    /** `minimize()`: its front loop, then its back loop. */
    method Minimize()
      modifies this
      ensures State() == Minimized(old(State()), blank)
    {
      PopBlankFront();
      PopBlankBack();
    }

    /** The first loop of `minimize()`. */
    method PopBlankFront()
      modifies this
      ensures State() == TrimFront(old(State()), blank)
    {
      while leftIdx < head && |cells| > 1 && cells[0] == blank
        invariant TrimFront(State(), blank) == TrimFront(old(State()), blank)
        decreases |cells|
      {
        TrimFrontStep(State(), blank);
        PopFront();
      }
    }

    /** One `pop_front` with the matching `left_idx++`. */
    method PopFront()
      requires cells != []
      modifies this
      ensures State() == TapeState(old(cells)[1..], old(leftIdx) + 1, old(head))
    {
      cells, leftIdx := cells[1..], leftIdx + 1;
    }

    /** The second loop of `minimize()`. */
    method PopBlankBack()
      modifies this
      ensures State() == TrimBack(old(State()), blank)
    {
      while head - leftIdx + 1 < |cells| && |cells| > 1 && cells[|cells| - 1] == blank
        invariant TrimBack(State(), blank) == TrimBack(old(State()), blank)
        decreases |cells|
      {
        ghost var t := State();
        TrimBackStep(t, blank);
        cells := cells[..|cells| - 1];
        assert State() == t.(cells := t.cells[..|t.cells| - 1]);
      }
    }

    /**
     * `getNonBlank(idx)`: the window from the first cell that is non-blank or the head to
     * the last such cell, and the absolute position where it starts; a single blank at
     * the head position when there are no cells at all.
     */
    method GetNonBlank() returns (text: string, idx: int)
      ensures HeadInRange(State()) ==> IsNonBlankWindow(State(), blank, text, idx)
      ensures cells == [] ==> text == [blank] && idx == head
    {
      var h := head - leftIdx;
      var left := ScanLeft(h);
      var right := ScanRight(h);
      if left > right {
        text, idx := [blank], head;
        return;
      }
      text := CopyCells(left, right);
      idx := left + leftIdx;
      if HeadInRange(State()) {
        CellsWindow(State(), blank, left, right);
      }
    }

    /** The first loop of `getNonBlank`: skip blanks from the front, stopping at the head cell `h`. */
    method ScanLeft(h: int) returns (left: int)
      ensures 0 <= left <= |cells| && (h < 0 || left <= h)
      ensures forall k :: 0 <= k < left ==> cells[k] == blank
      ensures left < |cells| ==> cells[left] != blank || left == h
    {
      left := 0;
      while left < |cells|
        invariant 0 <= left <= |cells|
        invariant forall k :: 0 <= k < left ==> cells[k] == blank
        invariant h < 0 || left <= h
      {
        if cells[left] != blank || left == h {
          break;
        }
        left := left + 1;
      }
    }

    /** The second loop of `getNonBlank`: skip blanks from the back, not past the head cell `h`. */
    method ScanRight(h: int) returns (right: int)
      ensures -1 <= right <= |cells| - 1 && (right >= h || right == |cells| - 1)
      ensures forall k :: right < k < |cells| ==> cells[k] == blank
      ensures right >= 0 && right > h ==> cells[right] != blank
    {
      right := |cells| - 1;
      while right > h && right >= 0
        invariant -1 <= right <= |cells| - 1
        invariant right >= h || right == |cells| - 1
        invariant forall k :: right < k < |cells| ==> cells[k] == blank
      {
        if cells[right] != blank || right == h {
          break;
        }
        right := right - 1;
      }
    }

    /** The copy loop of `getNonBlank`: cells `left` to `right` inclusive. */
    method CopyCells(left: int, right: int) returns (text: string)
      requires 0 <= left <= right < |cells|
      ensures text == cells[left..right + 1]
    {
      text := [];
      var i := left;
      while i <= right
        invariant left <= i <= right + 1 && text == cells[left..i]
      {
        text := text + [cells[i]];
        i := i + 1;
      }
    }

    /** `getNonBlank()`: the window's text without its position. */
    method GetNonBlankText() returns (text: string)
      ensures HeadInRange(State()) ==> exists idx :: IsNonBlankWindow(State(), blank, text, idx)
      ensures cells == [] ==> text == [blank]
    {
      var idx;
      text, idx := GetNonBlank();
    }
  }
}
