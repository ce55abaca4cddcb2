/** Connect-M (hw1/game/game.go): dropping pieces, and the win check along the four
    lines through the last move. */
module Board {
  import opened Options

  type Player = int
  const EMPTY: Player := 0
  const PLAYER1: Player := 1
  const PLAYER2: Player := 2

  type Grid = seq<seq<Player>>

  datatype Move = Move(col: int, row: int, player: Player)

  datatype MoveError = ColumnOutOfBounds | InvalidPlayer | ColumnFull

  datatype MoveResult = Landed(row: int) | Rejected(error: MoveError)

  predicate Rect(g: Grid, rows: nat, cols: nat) {
    |g| == rows && forall r :: 0 <= r < rows ==> |g[r]| == cols
  }

  predicate Piece(p: Player) {
    p == PLAYER1 || p == PLAYER2
  }

  // ---- runs ------------------------------------------------------------------

  /** The coordinate k steps from x in direction d. */
  function Along(x: int, d: int, k: int): int {
    x + k * d
  }

  predicate On(g: Grid, r: int, c: int, p: Player) {
    0 <= r < |g| && 0 <= c < |g[r]| && g[r][c] == p
  }

  predicate Holds(g: Grid, r: int, c: int, dr: int, dc: int, k: int, p: Player) {
    On(g, Along(r, dr, k), Along(c, dc, k), p)
  }

  /** Any of the eight ways to leave a cell. */
  predicate Direction(dr: int, dc: int) {
    -1 <= dr <= 1 && -1 <= dc <= 1 && (dr, dc) != (0, 0)
  }

  /** m cells of one player in a straight line, starting at (r, c). */
  predicate RunAt(g: Grid, m: nat, r: int, c: int, dr: int, dc: int, p: Player) {
    && Direction(dr, dc)
    && p != EMPTY
    && forall k :: 0 <= k < m ==> Holds(g, r, c, dr, dc, k, p)
  }

  /** The search of the whole board. */
  ghost predicate HasRun(g: Grid, m: nat) {
    exists r, c, dr, dc, p :: RunAt(g, m, r, c, dr, dc, p)
  }

  /** m cells in a line, of which (r, c) is the j-th. */
  predicate WindowAt(g: Grid, m: nat, r: int, c: int, dr: int, dc: int, p: Player, j: int) {
    0 <= j < m && forall k :: -j <= k < m - j ==> Holds(g, r, c, dr, dc, k, p)
  }

  ghost predicate Window(g: Grid, m: nat, r: int, c: int, dr: int, dc: int, p: Player) {
    exists j :: WindowAt(g, m, r, c, dr, dc, p, j)
  }

  /** What the source looks at: its four directions through one cell. */
  ghost predicate WinsThrough(g: Grid, m: nat, move: Move) {
    || Window(g, m, move.row, move.col, 0, 1, move.player)
    || Window(g, m, move.row, move.col, 1, 0, move.player)
    || Window(g, m, move.row, move.col, 1, 1, move.player)
    || Window(g, m, move.row, move.col, 1, -1, move.player)
  }

  lemma AlongTwice(x: int, d: int, j: int, k: int)
    ensures Along(Along(x, d, j), d, k) == Along(x, d, j + k)
  {
  }

  lemma AlongBack(x: int, d: int, k: int)
    ensures Along(x, -d, k) == Along(x, d, -k)
  {
  }

  /** A window is a run, started where the window starts. */
  lemma WindowIsRun(g: Grid, m: nat, r: int, c: int, dr: int, dc: int, p: Player)
    requires Direction(dr, dc) && p != EMPTY && Window(g, m, r, c, dr, dc, p)
    ensures HasRun(g, m)
  {
    var j :| WindowAt(g, m, r, c, dr, dc, p, j);
    var r0, c0 := Along(r, dr, -j), Along(c, dc, -j);
    forall k | 0 <= k < m ensures Holds(g, r0, c0, dr, dc, k, p) {
      AlongTwice(r, dr, -j, k);
      AlongTwice(c, dc, -j, k);
      assert Holds(g, r, c, dr, dc, k - j, p);
    }
    assert RunAt(g, m, r0, c0, dr, dc, p);
  }

  /** A run through a cell is a window around it. */
  lemma RunIsWindow(g: Grid, m: nat, r0: int, c0: int, dr: int, dc: int, p: Player, j: int)
    requires RunAt(g, m, r0, c0, dr, dc, p) && 0 <= j < m
    ensures Window(g, m, Along(r0, dr, j), Along(c0, dc, j), dr, dc, p)
  {
    var r, c := Along(r0, dr, j), Along(c0, dc, j);
    forall k | -j <= k < m - j ensures Holds(g, r, c, dr, dc, k, p) {
      AlongTwice(r0, dr, j, k);
      AlongTwice(c0, dc, j, k);
      assert Holds(g, r0, c0, dr, dc, j + k, p);
    }
    assert WindowAt(g, m, r, c, dr, dc, p, j);
  }

  /** Walking a line the other way round visits the same cells. */
  lemma WindowReversed(g: Grid, m: nat, r: int, c: int, dr: int, dc: int, p: Player)
    requires Window(g, m, r, c, dr, dc, p)
    ensures Window(g, m, r, c, -dr, -dc, p)
  {
    var j :| WindowAt(g, m, r, c, dr, dc, p, j);
    var dr', dc', j' := -dr, -dc, m - 1 - j;
    forall k | -j' <= k < m - j' ensures Holds(g, r, c, dr', dc', k, p) {
      AlongBack(r, dr, k);
      AlongBack(c, dc, k);
      assert Holds(g, r, c, dr, dc, -k, p);
    }
    assert WindowAt(g, m, r, c, dr', dc', p, j');
  }

  lemma FourDirectionsSuffice(g: Grid, m: nat, move: Move, dr: int, dc: int)
    requires Direction(dr, dc) && Window(g, m, move.row, move.col, dr, dc, move.player)
    ensures WinsThrough(g, m, move)
  {
    if dr < 0 || (dr == 0 && dc < 0) {
      WindowReversed(g, m, move.row, move.col, dr, dc, move.player);
    }
  }

  // ---- dropping a piece --------------------------------------------------------

  /** The lowest empty row of the column at or above the given row, -1 if none. */
  function LowestEmpty(g: Grid, rows: nat, cols: nat, col: nat, row: int): (r: int)
    requires Rect(g, rows, cols) && col < cols && -1 <= row < rows
    ensures -1 <= r <= row
    ensures r >= 0 ==> g[r][col] == EMPTY
    ensures forall k :: r < k <= row ==> g[k][col] != EMPTY
    decreases row
  {
    if row < 0 || g[row][col] == EMPTY then row else LowestEmpty(g, rows, cols, col, row - 1)
  }

  function Put(g: Grid, row: int, col: int, p: Player): Grid
    requires 0 <= row < |g| && 0 <= col < |g[row]|
  {
    g[row := g[row][col := p]]
  }

  function Drop(g: Grid, rows: nat, cols: nat, col: int, p: Player): MoveResult
    requires Rect(g, rows, cols)
  {
    if col < 0 || col >= cols then Rejected(ColumnOutOfBounds)
    else if !Piece(p) then Rejected(InvalidPlayer)
    else
      var row := LowestEmpty(g, rows, cols, col, rows - 1);
      if row < 0 then Rejected(ColumnFull) else Landed(row)
  }

  predicate FreeCell(g: Grid, rows: nat, cols: nat, col: int, row: int)
    requires Rect(g, rows, cols)
  {
    0 <= col < cols && 0 <= row < rows && g[row][col] == EMPTY
  }

  predicate HasRoom(g: Grid, rows: nat, cols: nat, col: int)
    requires Rect(g, rows, cols)
  {
    exists r :: 0 <= r < rows && FreeCell(g, rows, cols, col, r)
  }

  /** A move is refused for exactly the source's three causes, checked in its order,
      and is otherwise accepted: whenever the column has a free cell, at the lowest. */
  lemma DropIff(g: Grid, rows: nat, cols: nat, col: int, p: Player, row: int)
    requires Rect(g, rows, cols)
    ensures Drop(g, rows, cols, col, p) == Rejected(ColumnOutOfBounds) <==> !(0 <= col < cols)
    ensures Drop(g, rows, cols, col, p) == Rejected(InvalidPlayer)
       <==> 0 <= col < cols && p != PLAYER1 && p != PLAYER2
    ensures Drop(g, rows, cols, col, p) == Rejected(ColumnFull)
       <==> 0 <= col < cols && (p == PLAYER1 || p == PLAYER2)
            && forall r :: 0 <= r < rows ==> g[r][col] != EMPTY
    ensures Drop(g, rows, cols, col, p) == Landed(row)
       <==> (p == PLAYER1 || p == PLAYER2) && FreeCell(g, rows, cols, col, row)
            && forall r :: row < r < rows ==> g[r][col] != EMPTY
    ensures Drop(g, rows, cols, col, p).Landed?
       <==> (p == PLAYER1 || p == PLAYER2) && HasRoom(g, rows, cols, col)
  {
    if 0 <= col < cols {
      var lowest := LowestEmpty(g, rows, cols, col, rows - 1);
      assert lowest >= 0 ==> FreeCell(g, rows, cols, col, lowest);
    }
  }

  /** The check through the last move agrees with the search of the whole board, if
      there was no run before that move. */
  lemma WinCheckIsGlobal(g: Grid, rows: nat, cols: nat, m: nat, col: int, p: Player)
    requires Rect(g, rows, cols) && m >= 1 && !HasRun(g, m)
    requires Drop(g, rows, cols, col, p).Landed?
    ensures var row := Drop(g, rows, cols, col, p).row;
            var g' := Put(g, row, col, p);
            WinsThrough(g', m, Move(col, row, p)) <==> HasRun(g', m)
  {
    var row := Drop(g, rows, cols, col, p).row;
    var g', move := Put(g, row, col, p), Move(col, row, p);
    if WinsThrough(g', m, move) {
      var dr, dc :| Direction(dr, dc) && Window(g', m, row, col, dr, dc, p);
      WindowIsRun(g', m, row, col, dr, dc, p);
    }
    if HasRun(g', m) {
      var r, c, dr, dc, q :| RunAt(g', m, r, c, dr, dc, q);
      NewRunIsThroughMove(g, g', m, row, col, p, r, c, dr, dc, q);
    }
  }

  lemma NewRunIsThroughMove(g: Grid, g': Grid, m: nat, row: int, col: int, p: Player,
                            r: int, c: int, dr: int, dc: int, q: Player)
    requires 0 <= row < |g| && 0 <= col < |g[row]| && g' == Put(g, row, col, p)
    requires m >= 1 && !HasRun(g, m) && RunAt(g', m, r, c, dr, dc, q)
    ensures WinsThrough(g', m, Move(col, row, p))
  {
    if forall k :: 0 <= k < m ==> (Along(r, dr, k), Along(c, dc, k)) != (row, col) {
      forall k | 0 <= k < m ensures Holds(g, r, c, dr, dc, k, q) {
        assert Holds(g', r, c, dr, dc, k, q);
      }
      assert RunAt(g, m, r, c, dr, dc, q);
    }
    var j :| 0 <= j < m && (Along(r, dr, j), Along(c, dc, j)) == (row, col);
    assert Holds(g', r, c, dr, dc, j, q);
    RunIsWindow(g', m, r, c, dr, dc, q, j);
    FourDirectionsSuffice(g', m, Move(col, row, p), dr, dc);
  }

  // ---- gravity -----------------------------------------------------------------

  /** Below a piece there are only pieces. */
  ghost predicate Stacked(g: Grid, rows: nat, cols: nat)
    requires Rect(g, rows, cols)
  {
    forall r, r', c :: 0 <= r < r' < rows && 0 <= c < cols && g[r][c] != EMPTY ==> g[r'][c] != EMPTY
  }

  predicate TopFull(g: Grid, rows: nat, cols: nat)
    requires Rect(g, rows, cols) && rows >= 1
  {
    forall c :: 0 <= c < cols ==> g[0][c] != EMPTY
  }

  lemma DropKeepsStacks(g: Grid, rows: nat, cols: nat, col: int, p: Player)
    requires Rect(g, rows, cols) && Stacked(g, rows, cols) && Drop(g, rows, cols, col, p).Landed?
    ensures var g' := Put(g, Drop(g, rows, cols, col, p).row, col, p);
            Rect(g', rows, cols) && Stacked(g', rows, cols)
  {
  }

  /** On stacked columns a full top row is a full board. */
  lemma TopFullIsFull(g: Grid, rows: nat, cols: nat)
    requires Rect(g, rows, cols) && rows >= 1 && Stacked(g, rows, cols)
    ensures TopFull(g, rows, cols) <==> forall r, c :: 0 <= r < rows && 0 <= c < cols ==> g[r][c] != EMPTY
  {
    if TopFull(g, rows, cols) {
      forall r, c | 0 <= r < rows && 0 <= c < cols ensures g[r][c] != EMPTY {
        assert g[0][c] != EMPTY;
      }
    }
  }

  // ---- the object ----------------------------------------------------------------

  class Board {
    const rows: nat
    const cols: nat
    const m: int
    const grid: array2<Player>
    var lastMove: Option<Move>

    ghost function View(): (g: Grid)
      reads grid
      requires grid.Length0 == rows && grid.Length1 == cols
      ensures Rect(g, rows, cols)
    {
      seq(rows, r requires 0 <= r < rows reads grid => Row(r))
    }

    ghost function Row(r: nat): (s: seq<Player>)
      reads grid
      requires r < rows == grid.Length0 && grid.Length1 == cols
      ensures |s| == cols && forall c :: 0 <= c < cols ==> s[c] == grid[r, c]
    {
      seq(cols, c requires 0 <= c < cols reads grid => grid[r, c])
    }

    ghost predicate Valid()
      reads this, grid
    {
      && grid.Length0 == rows && grid.Length1 == cols
      && (lastMove.Some? ==>
            var mv := lastMove.value;
            && 0 <= mv.row < rows && 0 <= mv.col < cols && Piece(mv.player)
            && grid[mv.row, mv.col] == mv.player)
    }

    constructor (rows: nat, cols: nat, m: int)
      ensures Valid() && this.rows == rows && this.cols == cols && this.m == m && fresh(grid)
      ensures lastMove == None
      ensures forall r, c :: 0 <= r < rows && 0 <= c < cols ==> View()[r][c] == EMPTY
    {
      this.rows := rows;
      this.cols := cols;
      this.m := m;
      grid := new Player[rows, cols]((_, _) => EMPTY);
      lastMove := None;
    }

    predicate IsValid(row: int, col: int) {
      row >= 0 && row < rows && col >= 0 && col < cols
    }

    method MakeMove(col: int, player: Player) returns (result: MoveResult)
      requires Valid()
      modifies this, grid
      ensures Valid() && result == Drop(old(View()), rows, cols, col, player)
      ensures match result
              case Landed(row) =>
                View() == Put(old(View()), row, col, player) && lastMove == Some(Move(col, row, player))
              case Rejected(_) => View() == old(View()) && lastMove == old(lastMove)
    {
      if col < 0 || col >= cols {
        return Rejected(ColumnOutOfBounds);
      }
      if player != PLAYER1 && player != PLAYER2 {
        return Rejected(InvalidPlayer);
      }
      ghost var g := View();
      var row := rows - 1;
      while row >= 0
        invariant -1 <= row < rows && View() == g
        invariant LowestEmpty(g, rows, cols, col, rows - 1) == LowestEmpty(g, rows, cols, col, row)
      {
        assert g[row][col] == grid[row, col];
        if grid[row, col] == EMPTY {
          grid[row, col] := player;
          lastMove := Some(Move(col, row, player));
          forall r | 0 <= r < rows ensures View()[r] == Put(g, row, col, player)[r] {
            assert forall c :: 0 <= c < cols ==> View()[r][c] == Row(r)[c];
          }
          return Landed(row);
        }
        row := row - 1;
      }
      return Rejected(ColumnFull);
    }

    /** Counts outward from the cell, each way until the first miss and at most m - 1
        cells; m in all means a window of m through the cell. */
    method CheckDirection(row: int, col: int, player: Player, dRow: int, dCol: int) returns (won: bool)
      requires Valid() && m >= 1 && On(View(), row, col, player)
      ensures won <==> Window(View(), m, row, col, dRow, dCol, player)
    {
      ghost var g := View();
      assert Holds(g, row, col, dRow, dCol, 0, player);
      hide Holds, Window;
      var count := 1;
      for i := 1 to m
        invariant count == i
        invariant forall k :: 1 <= k < i ==> Holds(g, row, col, dRow, dCol, k, player)
      {
        var r := row + i * dRow;
        var c := col + i * dCol;
        HoldsAt(row, col, dRow, dCol, i, r, c, player);
        if !IsValid(r, c) || grid[r, c] != player {
          break;
        }
        count := count + 1;
      }
      ghost var ahead := count - 1;
      for i := 1 to m
        invariant count == ahead + i
        invariant forall k :: -i < k < 0 ==> Holds(g, row, col, dRow, dCol, k, player)
      {
        var r := row - i * dRow;
        var c := col - i * dCol;
        HoldsBehind(row, col, dRow, dCol, i, r, c, player);
        if !IsValid(r, c) || grid[r, c] != player {
          break;
        }
        count := count + 1;
      }
      WindowFromExtents(g, m, row, col, dRow, dCol, player, ahead, count - 1 - ahead);
      return count >= m;
    }

    lemma HoldsAt(row: int, col: int, dRow: int, dCol: int, k: int, r: int, c: int, player: Player)
      requires Valid() && r == row + k * dRow && c == col + k * dCol
      ensures Holds(View(), row, col, dRow, dCol, k, player) <==> IsValid(r, c) && grid[r, c] == player
    {
    }

    lemma HoldsBehind(row: int, col: int, dRow: int, dCol: int, k: int, r: int, c: int, player: Player)
      requires Valid() && r == row - k * dRow && c == col - k * dCol
      ensures Holds(View(), row, col, dRow, dCol, -k, player) <==> IsValid(r, c) && grid[r, c] == player
    {
      HoldsAt(row, col, dRow, dCol, -k, r, c, player);
    }

    method CheckWin() returns (won: bool)
      requires Valid() && m >= 1
      ensures won <==> lastMove.Some? && WinsThrough(View(), m, lastMove.value)
    {
      if lastMove.None? {
        return false;
      }
      var row := lastMove.value.row;
      var col := lastMove.value.col;
      var player := lastMove.value.player;
      var found := CheckDirection(row, col, player, 0, 1);
      if found {
        return true;
      }
      found := CheckDirection(row, col, player, 1, 0);
      if found {
        return true;
      }
      found := CheckDirection(row, col, player, 1, 1);
      if found {
        return true;
      }
      found := CheckDirection(row, col, player, 1, -1);
      return found;
    }

    method IsFull() returns (full: bool)
      requires Valid() && rows >= 1
      ensures full <==> TopFull(View(), rows, cols)
    {
      for col := 0 to cols
        invariant forall c :: 0 <= c < col ==> View()[0][c] != EMPTY
      {
        assert View()[0][col] == grid[0, col];
        if grid[0, col] == EMPTY {
          return false;
        }
      }
      return true;
    }
  }

  /** Two extents around a cell, each maximal below m, make room for a window of m
      exactly when they and the cell add up to m. */
  lemma WindowFromExtents(g: Grid, m: nat, r: int, c: int, dr: int, dc: int, p: Player, ahead: int, behind: int)
    requires m >= 1 && Holds(g, r, c, dr, dc, 0, p)
    requires 0 <= ahead < m && 0 <= behind < m
    requires forall k :: 1 <= k <= ahead ==> Holds(g, r, c, dr, dc, k, p)
    requires forall k :: -behind <= k < 0 ==> Holds(g, r, c, dr, dc, k, p)
    requires ahead < m - 1 ==> !Holds(g, r, c, dr, dc, ahead + 1, p)
    requires behind < m - 1 ==> !Holds(g, r, c, dr, dc, -behind - 1, p)
    ensures 1 + ahead + behind >= m <==> Window(g, m, r, c, dr, dc, p)
  {
    hide Holds;
    if 1 + ahead + behind >= m {
      assert WindowAt(g, m, r, c, dr, dc, p, behind);
    }
  }
}
