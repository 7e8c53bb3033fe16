/** The integer board behind the 3x3 grid of GameController.cs.

    A board is the nine-element `filledSpaces` array read as a sequence, in
    row-major order ([0 1 2 / 3 4 5 / 6 7 8]). A cell holds the sentinel -100
    while nobody has filled it, 1 once X has filled it and 2 once O has
    (`turnIndicator + 1` for the player to move). The sentinel is chosen so
    that the sum of a line that still has an empty cell is negative, which is
    what lets the controller test a line by adding up its three cells. */
module Board {

  /** Value of a cell nobody has filled yet. */
  const Empty: int := -100
  /** Value of a cell filled by player X (turnIndicator 0). */
  const XMark: int := 1
  /** Value of a cell filled by player O (turnIndicator 1). */
  const OMark: int := 2

  predicate IsMark(m: int) { m == XMark || m == OMark }

  predicate IsCellValue(v: int) { v == Empty || IsMark(v) }

  /** Nine cells, each empty or holding a mark. */
  predicate ValidCells(b: seq<int>)
  {
    |b| == 9 && forall i :: 0 <= i < |b| ==> IsCellValue(b[i])
  }

  /** The board right after a game is set up: all nine cells empty. */
  const EmptyBoard: seq<int> := seq(9, _ => Empty)

  /** Three cell indices that are tested together. */
  datatype Triple = Triple(a: int, b: int, c: int)

  predicate InGrid(t: Triple)
  {
    0 <= t.a < 9 && 0 <= t.b < 9 && 0 <= t.c < 9
  }

  predicate Distinct(t: Triple)
  {
    t.a != t.b && t.b != t.c && t.a != t.c
  }

  /** The eight triples WinCheck adds up, in the order it scans them.
      The last one is {0,4,6}, exactly as the controller writes it. */
  const Solutions: seq<Triple> := [
    Triple(0, 1, 2), Triple(3, 4, 5), Triple(6, 7, 8),
    Triple(0, 3, 6), Triple(1, 4, 7), Triple(2, 5, 8),
    Triple(0, 4, 8), Triple(0, 4, 6)
  ]

  /** Sum of the three cells of a triple: WinCheck's `solutionN`. */
  function LineSum(b: seq<int>, t: Triple): int
    requires |b| == 9 && InGrid(t)
  {
    b[t.a] + b[t.b] + b[t.c]
  }

  /** The eight sums WinCheck computes, written out cell by cell. */
  function Sums(b: seq<int>): seq<int>
    requires |b| == 9
  {
    [b[0] + b[1] + b[2], b[3] + b[4] + b[5], b[6] + b[7] + b[8],
     b[0] + b[3] + b[6], b[1] + b[4] + b[7], b[2] + b[5] + b[8],
     b[0] + b[4] + b[8], b[0] + b[4] + b[6]]
  }

  /** All three cells of the triple hold mark m. */
  predicate Held(b: seq<int>, t: Triple, m: int)
    requires |b| == 9 && InGrid(t)
  {
    b[t.a] == m && b[t.b] == m && b[t.c] == m
  }

  /** Every triple of the table lies in the grid. */
  predicate TableInGrid(lines: seq<Triple>)
  {
    forall j :: 0 <= j < |lines| ==> InGrid(lines[j])
  }

  /** The first index, from i on, of a triple of the table that m holds,
      or -1 when m holds none of them. */
  function FirstHeld(lines: seq<Triple>, b: seq<int>, m: int, i: nat): (r: int)
    requires |b| == 9 && TableInGrid(lines) && i <= |lines|
    ensures r == -1 || i <= r < |lines|
    ensures r != -1 ==> Held(b, lines[r], m)
    ensures forall j :: i <= j < |lines| && (r == -1 || j < r) ==> !Held(b, lines[j], m)
    decreases |lines| - i
  {
    if i == |lines| then -1
    else if Held(b, lines[i], m) then i
    else FirstHeld(lines, b, m, i + 1)
  }

  /** FirstHeld is pinned down by where the first held triple is. */
  lemma FirstHeldAt(lines: seq<Triple>, b: seq<int>, m: int, r: int)
    requires |b| == 9 && TableInGrid(lines)
    requires r == -1 || (0 <= r < |lines| && Held(b, lines[r], m))
    requires forall j :: 0 <= j < |lines| && (r == -1 || j < r) ==> !Held(b, lines[j], m)
    ensures FirstHeld(lines, b, m, 0) == r
  {
  }

  /** Reference definition of a win as WinCheck decides it: the index of the
      first triple of Solutions that m holds outright, -1 if there is none. */
  function WinningLine(b: seq<int>, m: int): int
    requires |b| == 9
  {
    SolutionsWellFormed();
    FirstHeld(Solutions, b, m, 0)
  }

  /** Number of cells of s that hold v. */
  function CountOf(s: seq<int>, v: int): (n: nat)
    ensures n <= |s|
  {
    if s == [] then 0 else (if s[0] == v then 1 else 0) + CountOf(s[1..], v)
  }

  /** Number of cells somebody has filled: what `turnsCounter` counts. */
  function FilledCount(s: seq<int>): nat
  {
    |s| - CountOf(s, Empty)
  }

  /** No cell is empty any more. */
  predicate IsFull(b: seq<int>)
  {
    forall i :: 0 <= i < |b| ==> b[i] != Empty
  }

  /** Overwriting one cell moves that cell from one count to another and
      leaves every other count alone. */
  lemma {:induction false} CountUpdate(s: seq<int>, i: int, w: int, v: int)
    requires 0 <= i < |s|
    ensures CountOf(s[i := w], v)
         == CountOf(s, v) - (if s[i] == v then 1 else 0) + (if w == v then 1 else 0)
  {
    if i > 0 {
      assert s[i := w][1..] == s[1..][i - 1 := w];
      CountUpdate(s[1..], i - 1, w, v);
    } else {
      assert s[i := w][1..] == s[1..];
    }
  }

  /** A value that no cell holds has count 0, and conversely. */
  lemma {:induction false} CountZeroIffAbsent(s: seq<int>, v: int)
    ensures CountOf(s, v) == 0 <==> forall i :: 0 <= i < |s| ==> s[i] != v
  {
    if s != [] {
      CountZeroIffAbsent(s[1..], v);
      assert forall i :: 1 <= i < |s| ==> s[i] == s[1..][i - 1];
    }
  }

  /** A sequence whose every cell holds v counts |s| cells of v. */
  lemma {:induction false} CountAllOf(s: seq<int>, v: int)
    requires forall i :: 0 <= i < |s| ==> s[i] == v
    ensures CountOf(s, v) == |s|
  {
    if s != [] {
      assert forall i :: 0 <= i < |s[1..]| ==> s[1..][i] == s[i + 1];
      CountAllOf(s[1..], v);
    }
  }

  /** On a valid board every filled cell holds X or O, so the move counter
      is the number of X cells plus the number of O cells. */
  lemma {:induction false} FilledIsXPlusO(s: seq<int>)
    requires forall i :: 0 <= i < |s| ==> IsCellValue(s[i])
    ensures FilledCount(s) == CountOf(s, XMark) + CountOf(s, OMark)
  {
    if s != [] {
      assert forall i :: 0 <= i < |s[1..]| ==> s[1..][i] == s[i + 1];
      FilledIsXPlusO(s[1..]);
    }
  }

  /** Nine filled cells means a full board, and conversely. */
  lemma FullIffNineFilled(b: seq<int>)
    requires |b| == 9
    ensures FilledCount(b) == 9 <==> IsFull(b)
  {
    CountZeroIffAbsent(b, Empty);
  }

  /** The empty board: nothing filled, no X, no O. */
  lemma EmptyBoardCounts()
    ensures ValidCells(EmptyBoard)
    ensures FilledCount(EmptyBoard) == 0
    ensures CountOf(EmptyBoard, XMark) == 0 && CountOf(EmptyBoard, OMark) == 0
  {
    CountAllOf(EmptyBoard, Empty);
    CountZeroIffAbsent(EmptyBoard, XMark);
    CountZeroIffAbsent(EmptyBoard, OMark);
  }

  /** The arithmetic trick of WinCheck: on a board whose cells are all -100,
      1 or 2, a triple adds up to 3*m for a mark m exactly when all three of
      its cells hold m. One empty cell makes the sum negative; a mix of 1s
      and 2s adds up to 4 or 5. */
  lemma SumTestIsHeld(b: seq<int>, t: Triple, m: int)
    requires ValidCells(b) && InGrid(t) && IsMark(m)
    ensures LineSum(b, t) == 3 * m <==> Held(b, t, m)
  {
    assert IsCellValue(b[t.a]) && IsCellValue(b[t.b]) && IsCellValue(b[t.c]);
  }

  /** To hold a triple of three distinct cells, a mark needs at least three
      cells of the board. */
  lemma HeldNeedsThree(b: seq<int>, t: Triple, m: int)
    requires |b| == 9 && InGrid(t) && Distinct(t) && Held(b, t, m)
    ensures CountOf(b, m) >= 3
  {
    // Clear the three cells one by one; each step removes one cell of m.
    var b1 := b[t.a := m + 1];
    var b2 := b1[t.b := m + 1];
    assert b1[t.b] == m && b2[t.c] == m;
    CountUpdate(b, t.a, m + 1, m);
    CountUpdate(b1, t.b, m + 1, m);
    CountUpdate(b2, t.c, m + 1, m);
  }

  /** Every triple of the table names three distinct cells of the grid. */
  lemma SolutionsWellFormed()
    ensures forall j :: 0 <= j < |Solutions| ==> InGrid(Solutions[j]) && Distinct(Solutions[j])
  {
  }

  /** On a valid board, WinCheck's j-th sum equals three times the mover's
      mark exactly when the mover holds the j-th triple of the table. */
  lemma SumsMatchHeld(b: seq<int>, m: int)
    requires ValidCells(b) && IsMark(m)
    ensures |Sums(b)| == |Solutions|
    ensures forall j :: 0 <= j < |Solutions| ==> (Sums(b)[j] == 3 * m <==> Held(b, Solutions[j], m))
  {
    SolutionsWellFormed();
    forall j | 0 <= j < |Solutions|
      ensures Sums(b)[j] == 3 * m <==> Held(b, Solutions[j], m)
    {
      assert Sums(b)[j] == LineSum(b, Solutions[j]);
      SumTestIsHeld(b, Solutions[j], m);
    }
  }

  /** The scan of WinCheck: the first of the eight sums that equals 3*m
      (or none) is the first triple of the table that m holds (or none). */
  lemma FirstMatchingSumIsWinningLine(b: seq<int>, m: int, i: int)
    requires ValidCells(b) && IsMark(m)
    requires i == -1 || (0 <= i < |Solutions| && Sums(b)[i] == 3 * m)
    requires forall j :: 0 <= j < |Solutions| && (i == -1 || j < i) ==> Sums(b)[j] != 3 * m
    ensures WinningLine(b, m) == i
  {
    SumsMatchHeld(b, m);
    FirstHeldAt(Solutions, b, m, i);
  }

  /** A mark with at most two cells on the board holds no triple of the
      table: why the controller can skip WinCheck for the first four moves. */
  lemma NoWinWithTwoMarks(b: seq<int>, m: int)
    requires |b| == 9 && CountOf(b, m) <= 2
    ensures WinningLine(b, m) == -1
  {
    SolutionsWellFormed();
    forall j | 0 <= j < |Solutions|
      ensures !Held(b, Solutions[j], m)
    {
      if Held(b, Solutions[j], m) {
        HeldNeedsThree(b, Solutions[j], m);
      }
    }
  }

  /** b is a board on which X and O have taken turns, X first, and ti is
      the turnIndicator of the side to move: X has made as many moves as O
      when X is to move (ti == 0), one more when O is to move (ti == 1). */
  predicate Alternated(b: seq<int>, ti: int)
  {
    && ValidCells(b)
    && (ti == 0 || ti == 1)
    && CountOf(b, XMark) == CountOf(b, OMark) + ti
  }

  /** Filling an empty cell with the mark of the side to move, ti + 1,
      fills one more cell and leaves the board alternated with the other
      side to move. */
  lemma PlaceKeepsAlternation(b: seq<int>, ti: int, g: int)
    requires Alternated(b, ti) && 0 <= g < 9 && b[g] == Empty
    ensures Alternated(b[g := ti + 1], 1 - ti)
    ensures FilledCount(b[g := ti + 1]) == FilledCount(b) + 1
  {
    CountUpdate(b, g, ti + 1, Empty);
    CountUpdate(b, g, ti + 1, XMark);
    CountUpdate(b, g, ti + 1, OMark);
  }

  /** Within the first four moves neither player holds a line of the table,
      so skipping WinCheck until the fifth move loses no win. */
  lemma NoWinBeforeFifthMove(b: seq<int>, ti: int)
    requires Alternated(b, ti) && FilledCount(b) <= 4
    ensures WinningLine(b, XMark) == -1 && WinningLine(b, OMark) == -1
  {
    FilledIsXPlusO(b);
    NoWinWithTwoMarks(b, XMark);
    NoWinWithTwoMarks(b, OMark);
  }
}
