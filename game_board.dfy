/** The board view: 400 cells in row-major order, each decoded from its
    index into a row and a column and marked as head, body or food. */
module GameBoard {

  import opened SnakeGame

  const BoardSize: int := 20
  const CellCount: int := BoardSize * BoardSize

  /** The cell shown at a position in the flat list of cells. */
  function CellAt(index: int): (c: Cell)
    requires 0 <= index < CellCount
    ensures InGrid(c)
  {
    Cell(index / BoardSize, index % BoardSize)
  }

  /** The inverse of `CellAt`: where a grid cell sits in the flat list. */
  function IndexOf(c: Cell): int {
    c.row * BoardSize + c.col
  }

  predicate IsFoodCell(food: Cell, index: int)
    requires 0 <= index < CellCount
  {
    food == CellAt(index)
  }

  predicate IsSnakeCell(snake: seq<Cell>, index: int)
    requires 0 <= index < CellCount
  {
    exists k :: 0 <= k < |snake| && snake[k] == CellAt(index)
  }

  predicate IsSnakeHead(snake: seq<Cell>, index: int)
    requires 0 <= index < CellCount
    requires |snake| > 0
  {
    snake[0] == CellAt(index)
  }

  /** The styling decisions for one cell: head colour, body colour (a snake
      cell that is not the head), food colour. */
  datatype Look = Look(head: bool, body: bool, food: bool)

  function LookAt(snake: seq<Cell>, food: Cell, index: int): Look
    requires 0 <= index < CellCount
    requires |snake| > 0
  {
    Look(IsSnakeHead(snake, index),
         IsSnakeCell(snake, index) && !IsSnakeHead(snake, index),
         IsFoodCell(food, index))
  }

  /** The whole board, one look per cell. */
  function Render(snake: seq<Cell>, food: Cell): (board: seq<Look>)
    requires |snake| > 0
    ensures |board| == CellCount == 400
    ensures forall i :: 0 <= i < |board| ==> board[i] == LookAt(snake, food, i)
  {
    seq(CellCount, i requires 0 <= i < CellCount => LookAt(snake, food, i))
  }

  // ---------------------------------------------------------------------
  // Index decoding is a bijection between [0, 400) and the grid

  lemma IndexOfCellAt(index: int)
    requires 0 <= index < CellCount
    ensures IndexOf(CellAt(index)) == index
  {
  }

  lemma CellAtIndexOf(c: Cell)
    requires InGrid(c)
    ensures 0 <= IndexOf(c) < CellCount && CellAt(IndexOf(c)) == c
  {
    var i := IndexOf(c);
    assert 0 <= i < CellCount by {
      assert c.row * BoardSize <= (BoardSize - 1) * BoardSize;
    }
    assert i / BoardSize == c.row && i % BoardSize == c.col by {
      DivModUnique(c.row, c.col, i);
    }
  }

  lemma DivModUnique(q: int, r: int, n: int)
    requires 0 <= r < BoardSize && n == q * BoardSize + r
    ensures n / BoardSize == q && n % BoardSize == r
  {
  }

  lemma CellAtInjective(i: int, j: int)
    requires 0 <= i < CellCount && 0 <= j < CellCount
    ensures CellAt(i) == CellAt(j) <==> i == j
  {
    IndexOfCellAt(i);
    IndexOfCellAt(j);
  }

  // ---------------------------------------------------------------------
  // What the board shows

  /** The head is drawn on a snake cell, never as a plain body cell. */
  lemma HeadIsSnakeCell(snake: seq<Cell>, food: Cell, index: int)
    requires 0 <= index < CellCount && |snake| > 0
    ensures IsSnakeHead(snake, index) ==> IsSnakeCell(snake, index)
    ensures !(LookAt(snake, food, index).head && LookAt(snake, food, index).body)
  {
  }

  /** A cell is drawn as part of the snake exactly when some segment sits
      on it. */
  lemma SnakeCellsAreSegments(snake: seq<Cell>, food: Cell, index: int)
    requires 0 <= index < CellCount && |snake| > 0
    ensures var look := LookAt(snake, food, index);
      look.head || look.body <==> CellAt(index) in snake
  {
  }

  /** At most one cell shows food, and exactly one when the food is on the
      grid. */
  lemma OneFoodCell(food: Cell)
    ensures forall i, j :: 0 <= i < CellCount && 0 <= j < CellCount && IsFoodCell(food, i) && IsFoodCell(food, j) ==> i == j
    ensures InGrid(food) <==> exists i :: 0 <= i < CellCount && IsFoodCell(food, i)
  {
    forall i, j | 0 <= i < CellCount && 0 <= j < CellCount && IsFoodCell(food, i) && IsFoodCell(food, j)
      ensures i == j
    {
      CellAtInjective(i, j);
    }
    if InGrid(food) {
      CellAtIndexOf(food);
      assert IsFoodCell(food, IndexOf(food));
    }
  }

  /** When the head is on the grid exactly one cell is drawn as the head. */
  lemma OneHeadCell(snake: seq<Cell>)
    requires |snake| > 0 && InGrid(snake[0])
    ensures exists i :: 0 <= i < CellCount && IsSnakeHead(snake, i)
    ensures forall i, j :: 0 <= i < CellCount && 0 <= j < CellCount && IsSnakeHead(snake, i) && IsSnakeHead(snake, j) ==> i == j
  {
    CellAtIndexOf(snake[0]);
    assert IsSnakeHead(snake, IndexOf(snake[0]));
    forall i, j | 0 <= i < CellCount && 0 <= j < CellCount && IsSnakeHead(snake, i) && IsSnakeHead(snake, j)
      ensures i == j
    {
      CellAtInjective(i, j);
    }
  }

  // ---------------------------------------------------------------------
  // Counting free cells: the food draw ends while the snake is short

  /** The number of cells among the first `n` that no segment covers. */
  function FreeCount(snake: seq<Cell>, n: int): nat
    requires 0 <= n <= CellCount
  {
    if n == 0 then 0
    else FreeCount(snake, n - 1) + (if CellAt(n - 1) in snake then 0 else 1)
  }

  /** Adding one segment in front covers at most one more cell. */
  lemma {:induction false} FreeCountCons(x: Cell, rest: seq<Cell>, n: int)
    requires 0 <= n <= CellCount
    ensures FreeCount([x] + rest, n) + 1 >= FreeCount(rest, n)
    ensures FreeCount([x] + rest, n) >= FreeCount(rest, n) - (if InGrid(x) && IndexOf(x) < n then 1 else 0)
  {
    if n > 0 {
      FreeCountCons(x, rest, n - 1);
      var c := CellAt(n - 1);
      if c == x {
        CellAtIndexOf(x);
        IndexOfCellAt(n - 1);
      }
      assert c in [x] + rest <==> c == x || c in rest;
    }
  }

  lemma {:induction false} FreeCountBound(snake: seq<Cell>)
    ensures FreeCount(snake, CellCount) >= CellCount - |snake|
  {
    if snake == [] {
      AllFree(CellCount);
    } else {
      FreeCountBound(snake[1..]);
      assert snake == [snake[0]] + snake[1..];
      FreeCountCons(snake[0], snake[1..], CellCount);
    }
  }

  lemma {:induction false} AllFree(n: int)
    requires 0 <= n <= CellCount
    ensures FreeCount([], n) == n
  {
    if n > 0 {
      AllFree(n - 1);
    }
  }

  lemma {:induction false} FreeIndex(snake: seq<Cell>, n: int)
    requires 0 <= n <= CellCount && FreeCount(snake, n) > 0
    ensures exists i :: 0 <= i < n && CellAt(i) !in snake
  {
    if CellAt(n - 1) !in snake {
    } else {
      FreeIndex(snake, n - 1);
    }
  }

  /** While the snake has fewer than 400 segments some cell is free, so the
      tick's food draw has a cell to land on. */
  lemma ShortSnakeLeavesFreeCell(snake: seq<Cell>)
    requires |snake| < CellCount
    ensures HasFreeCell(snake)
  {
    FreeCountBound(snake);
    FreeIndex(snake, CellCount);
    var i :| 0 <= i < CellCount && CellAt(i) !in snake;
    var c := CellAt(i);
    assert 0 <= c.row < GridSize && 0 <= c.col < GridSize && Cell(c.row, c.col) !in snake;
  }
}
