/** The lines of a 3x3 grid defined from row and column coordinates, and the
    table WinCheck evidently means to scan. The eighth triple of the table in
    GameController.cs is {0,4,6}, which is not a line of the grid, where the
    anti-diagonal {2,4,6} belongs: the lemmas below exhibit a win reported
    without three in a row and an anti-diagonal win that goes unreported,
    and prove the corrected table reports a win exactly when the mover holds
    a line of the grid. */
module GridLines {
  import opened Board

  /** Row of cell i in row-major order. */
  function Row(i: int): int
  {
    if i < 3 then 0 else if i < 6 then 1 else 2
  }

  /** Column of cell i in row-major order. */
  function Col(i: int): int
  {
    i - 3 * Row(i)
  }

  /** A line of the grid, its cells in ascending order: one row, one column,
      the main diagonal or the anti-diagonal. */
  predicate IsGridLine(t: Triple)
  {
    && 0 <= t.a < t.b < t.c < 9
    && (|| (Row(t.a) == Row(t.b) && Row(t.b) == Row(t.c))
        || (Col(t.a) == Col(t.b) && Col(t.b) == Col(t.c))
        || (Row(t.a) == Col(t.a) && Row(t.b) == Col(t.b) && Row(t.c) == Col(t.c))
        || (Row(t.a) + Col(t.a) == 2 && Row(t.b) + Col(t.b) == 2 && Row(t.c) + Col(t.c) == 2))
  }

  /** The table with its eighth triple corrected to the anti-diagonal. */
  const IntendedSolutions: seq<Triple> := [
    Triple(0, 1, 2), Triple(3, 4, 5), Triple(6, 7, 8),
    Triple(0, 3, 6), Triple(1, 4, 7), Triple(2, 5, 8),
    Triple(0, 4, 8), Triple(2, 4, 6)
  ]

  /** The corrected WinCheck: the first triple of IntendedSolutions that m
      holds, -1 if there is none. */
  function IntendedWinningLine(b: seq<int>, m: int): int
    requires |b| == 9
  {
    IntendedInGrid();
    FirstHeld(IntendedSolutions, b, m, 0)
  }

  lemma IntendedInGrid()
    ensures TableInGrid(IntendedSolutions)
  {
  }

  /** The corrected table differs from the one WinCheck scans in its eighth
      triple only. The first seven triples of both are lines of the grid,
      the eighth as written is not, and its replacement is. */
  lemma EighthTripleIsNoLine()
    ensures |IntendedSolutions| == |Solutions| && IntendedSolutions[..7] == Solutions[..7]
    ensures forall j :: 0 <= j < |IntendedSolutions| ==> IsGridLine(IntendedSolutions[j])
    ensures !IsGridLine(Solutions[7]) && IsGridLine(Triple(2, 4, 6))
  {
    forall j | 0 <= j < |IntendedSolutions|
      ensures IsGridLine(IntendedSolutions[j])
    {
      IntendedLineAt(j);
    }
  }

  /** The j-th triple of the corrected table is a line of the grid. */
  lemma IntendedLineAt(j: int)
    requires 0 <= j < |IntendedSolutions|
    ensures IsGridLine(IntendedSolutions[j])
  {
    assert j == 0 || j == 1 || j == 2 || j == 3 || j == 4 || j == 5 || j == 6 || j == 7;
  }

  /** Every line of the grid is in the corrected table. */
  lemma GridLineInTable(t: Triple)
    requires IsGridLine(t)
    ensures t in IntendedSolutions
  {
    var a, b, c := t.a, t.b, t.c;
    if Row(a) == Row(b) && Row(b) == Row(c) {
      if Row(a) == 0 {
        assert t == IntendedSolutions[0];
      } else if Row(a) == 1 {
        assert t == IntendedSolutions[1];
      } else {
        assert t == IntendedSolutions[2];
      }
    } else if Col(a) == Col(b) && Col(b) == Col(c) {
      if Col(a) == 0 {
        assert t == IntendedSolutions[3];
      } else if Col(a) == 1 {
        assert t == IntendedSolutions[4];
      } else {
        assert t == IntendedSolutions[5];
      }
    } else if Row(a) == Col(a) && Row(b) == Col(b) && Row(c) == Col(c) {
      assert t == IntendedSolutions[6];
    } else {
      assert t == IntendedSolutions[7];
    }
  }

  /** The corrected check reports a win exactly when the mover holds all
      three cells of some line of the grid. */
  lemma IntendedWinIffGridLine(b: seq<int>, m: int)
    requires |b| == 9
    ensures IntendedWinningLine(b, m) != -1 <==> exists t :: IsGridLine(t) && Held(b, t, m)
  {
    var r := IntendedWinningLine(b, m);
    if r != -1 {
      IntendedWinIsGridLine(b, m);
    }
    if exists t :: IsGridLine(t) && Held(b, t, m) {
      var t :| IsGridLine(t) && Held(b, t, m);
      GridLineIsIntendedWin(b, m, t);
    }
  }

  lemma IntendedWinIsGridLine(b: seq<int>, m: int)
    requires |b| == 9 && IntendedWinningLine(b, m) != -1
    ensures IsGridLine(IntendedSolutions[IntendedWinningLine(b, m)])
    ensures Held(b, IntendedSolutions[IntendedWinningLine(b, m)], m)
  {
    IntendedLineAt(IntendedWinningLine(b, m));
  }

  lemma GridLineIsIntendedWin(b: seq<int>, m: int, t: Triple)
    requires |b| == 9 && IsGridLine(t) && Held(b, t, m)
    ensures IntendedWinningLine(b, m) != -1
  {
    GridLineInTable(t);
    var j :| 0 <= j < |IntendedSolutions| && IntendedSolutions[j] == t;
    assert Held(b, IntendedSolutions[j], m);
  }

  /** X plays 0, O plays 1, X plays 4, O plays 2, X plays 6. */
  const FalseWinBoard: seq<int> := [XMark, OMark, OMark, Empty, XMark, Empty, XMark, Empty, Empty]

  /** X plays 2, O plays 0, X plays 4, O plays 1, X plays 6. */
  const MissedWinBoard: seq<int> := [OMark, OMark, XMark, Empty, XMark, Empty, XMark, Empty, Empty]

  /** Both boards arise from five clicks on empty cells starting from the
      empty board, X having made the last, so O is to move. */
  lemma FindingBoardsReachable()
    ensures Alternated(FalseWinBoard, 1) && FilledCount(FalseWinBoard) == 5
    ensures Alternated(MissedWinBoard, 1) && FilledCount(MissedWinBoard) == 5
  {
    EmptyBoardCounts();
    var f1 := EmptyBoard[0 := XMark];
    PlaceKeepsAlternation(EmptyBoard, 0, 0);
    var f2 := f1[1 := OMark];
    PlaceKeepsAlternation(f1, 1, 1);
    var f3 := f2[4 := XMark];
    PlaceKeepsAlternation(f2, 0, 4);
    var f4 := f3[2 := OMark];
    PlaceKeepsAlternation(f3, 1, 2);
    PlaceKeepsAlternation(f4, 0, 6);
    assert f4[6 := XMark] == FalseWinBoard;

    var m1 := EmptyBoard[2 := XMark];
    PlaceKeepsAlternation(EmptyBoard, 0, 2);
    var m2 := m1[0 := OMark];
    PlaceKeepsAlternation(m1, 1, 0);
    var m3 := m2[4 := XMark];
    PlaceKeepsAlternation(m2, 0, 4);
    var m4 := m3[1 := OMark];
    PlaceKeepsAlternation(m3, 1, 1);
    PlaceKeepsAlternation(m4, 0, 6);
    assert m4[6 := XMark] == MissedWinBoard;
  }

  /** On FalseWinBoard the table as written reports a win for X on its
      eighth triple {0,4,6}, although X holds no line of the grid, and the
      corrected table reports none. */
  lemma AsWrittenReportsFalseWin()
    ensures WinningLine(FalseWinBoard, XMark) == 7
    ensures IntendedWinningLine(FalseWinBoard, XMark) == -1
    ensures !exists t :: IsGridLine(t) && Held(FalseWinBoard, t, XMark)
  {
    var b := FalseWinBoard;
    forall j | 0 <= j < 8
      ensures (j < 7 ==> !Held(b, Solutions[j], XMark)) && !Held(b, IntendedSolutions[j], XMark)
    {
      assert j == 0 || j == 1 || j == 2 || j == 3 || j == 4 || j == 5 || j == 6 || j == 7;
    }
    SolutionsWellFormed();
    FirstHeldAt(Solutions, b, XMark, 7);
    IntendedInGrid();
    FirstHeldAt(IntendedSolutions, b, XMark, -1);
    IntendedWinIffGridLine(b, XMark);
  }

  /** On MissedWinBoard X holds the anti-diagonal {2,4,6} (a line of the
      grid by EighthTripleIsNoLine); the table as
      written reports no win and the corrected one reports its eighth line. */
  lemma AsWrittenMissesAntiDiagonal()
    ensures Held(MissedWinBoard, Triple(2, 4, 6), XMark)
    ensures WinningLine(MissedWinBoard, XMark) == -1
    ensures IntendedWinningLine(MissedWinBoard, XMark) == 7
  {
    var b := MissedWinBoard;
    forall j | 0 <= j < 8
      ensures !Held(b, Solutions[j], XMark) && (j < 7 ==> !Held(b, IntendedSolutions[j], XMark))
    {
      assert j == 0 || j == 1 || j == 2 || j == 3 || j == 4 || j == 5 || j == 6 || j == 7;
    }
    SolutionsWellFormed();
    FirstHeldAt(Solutions, b, XMark, -1);
    IntendedInGrid();
    FirstHeldAt(IntendedSolutions, b, XMark, 7);
  }
}
