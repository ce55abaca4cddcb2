/** One game of Connect-M as its server sees it (hw1/server/main.go): players
    connect, move, disconnect and reconnect in any order. */
module Game {
  import opened Options
  import opened Board
  import opened Sets

  const X := "X"
  const O := "O"

  datatype Game = Game(
    rows: nat, cols: nat, m: nat,
    board: Option<Grid>,
    registry: map<string, string>,
    taken: set<string>,
    conns: map<string, int>,
    firstPlayer: string,
    currentTurn: string,
    gameOver: bool)

  datatype ConnectReply = InvalidPiece | PieceTaken | Connected(both: bool)

  datatype MoveReply =
    | NotRegistered | AlreadyOver | NotYourTurn | Illegal(error: MoveError)
    | Won(winner: string) | Drawn | Continue(next: string)

  function PieceToPlayer(piece: string): Player {
    if piece == X then PLAYER1 else PLAYER2
  }

  function Other(piece: string): string {
    if piece == X then O else X
  }

  function EmptyGrid(rows: nat, cols: nat): (g: Grid)
    ensures Rect(g, rows, cols)
    ensures forall r, c :: 0 <= r < rows && 0 <= c < cols ==> g[r][c] == EMPTY
  {
    seq(rows, _ => seq(cols, _ => EMPTY))
  }

  lemma EmptyGridIsUnique(g: Grid, rows: nat, cols: nat)
    requires Rect(g, rows, cols)
    requires forall r, c :: 0 <= r < rows && 0 <= c < cols ==> g[r][c] == EMPTY
    ensures g == EmptyGrid(rows, cols)
  {
    forall r | 0 <= r < rows ensures g[r] == EmptyGrid(rows, cols)[r] {
    }
  }

  function NewGame(rows: nat, cols: nat, m: nat): Game {
    Game(rows, cols, m, None, map[], {}, map[], "", "", false)
  }

  function OnConnect(s: Game, conn: int, piece: string, id: string): (Game, ConnectReply) {
    if piece != X && piece != O then (s, InvalidPiece)
    else if piece in s.taken then (s, PieceTaken)
    else
      var s1 := s.(registry := s.registry[id := piece], taken := s.taken + {piece}, conns := s.conns[piece := conn]);
      var s2 := if s.board.None?
                then s1.(board := Some(EmptyGrid(s.rows, s.cols)), firstPlayer := piece, currentTurn := piece)
                else s1;
      (s2, Connected(X in s2.taken && O in s2.taken))
  }

  /** The board the handlers dereference is there, and of the right shape. */
  predicate Playable(s: Game) {
    && s.rows >= 1
    && (s.registry != map[] ==> s.board.Some?)
    && (s.board.Some? ==> Rect(s.board.value, s.rows, s.cols))
  }

  ghost function OnMove(s: Game, id: string, column: int): (Game, MoveReply)
    requires Playable(s)
  {
    if id !in s.registry then (s, NotRegistered)
    else if s.gameOver then (s, AlreadyOver)
    else if s.registry[id] != s.currentTurn then (s, NotYourTurn)
    else
      var piece, g, col := s.registry[id], s.board.value, column - 1;
      match Drop(g, s.rows, s.cols, col, PieceToPlayer(piece))
      case Rejected(error) => (s, Illegal(error))
      case Landed(row) =>
        var g' := Put(g, row, col, PieceToPlayer(piece));
        var s1 := s.(board := Some(g'));
        if WinsThrough(g', s.m, Move(col, row, PieceToPlayer(piece))) then (s1.(gameOver := true), Won(piece))
        else if TopFull(g', s.rows, s.cols) then (s1.(gameOver := true), Drawn)
        else (s1.(currentTurn := Other(piece)), Continue(Other(piece)))
  }

  /** A closed connection releases one piece it holds, if it holds any. */
  function Release(s: Game, piece: string): Game {
    s.(conns := s.conns - {piece},
       taken := s.taken - {piece},
       registry := map id | id in s.registry && s.registry[id] != piece :: s.registry[id])
  }

  // ---- runs ------------------------------------------------------------------

  /** The game with the moves accepted so far. */
  datatype Played = Played(game: Game, moves: seq<Move>)

  datatype Event =
    | Connect(conn: int, piece: string, id: string)
    | MoveRequest(id: string, column: int)
    | Disconnect(conn: int, piece: string)

  /** The accepted moves, made on an empty board. */
  function Replay(rows: nat, cols: nat, moves: seq<Move>): (g: Grid)
    requires forall i :: 0 <= i < |moves| ==> 0 <= moves[i].row < rows && 0 <= moves[i].col < cols
    ensures Rect(g, rows, cols)
  {
    if moves == [] then EmptyGrid(rows, cols)
    else
      var last := moves[|moves| - 1];
      Put(Replay(rows, cols, moves[..|moves| - 1]), last.row, last.col, last.player)
  }

  ghost predicate Steps(x: Played, e: Event, x': Played)
    requires Playable(x.game)
  {
    match e
    case Connect(conn, piece, id) => x' == x.(game := OnConnect(x.game, conn, piece, id).0)
    case MoveRequest(id, column) =>
      var (game, reply) := OnMove(x.game, id, column);
      x' == Played(game,
                   if reply.Won? || reply.Drawn? || reply.Continue?
                   then x.moves + [Move(column - 1, Landing(x.game, id, column), PieceToPlayer(x.game.registry[id]))]
                   else x.moves)
    case Disconnect(conn, piece) =>
      x' == if piece in x.game.conns && x.game.conns[piece] == conn
            then x.(game := Release(x.game, piece)) else x
  }

  ghost function Landing(s: Game, id: string, column: int): int
    requires Playable(s) && id in s.registry
  {
    var drop := Drop(s.board.value, s.rows, s.cols, column - 1, PieceToPlayer(s.registry[id]));
    if drop.Landed? then drop.row else -1
  }

  ghost predicate PlayedNext(x: Played, x': Played) {
    exists e: Event :: Playable(x.game) && Steps(x, e, x')
  }

  ghost predicate IsGame(rows: nat, cols: nat, m: nat, run: seq<Played>) {
    && rows >= 1 && cols >= 1 && m >= 1
    && |run| > 0
    && run[0] == Played(NewGame(rows, cols, m), [])
    && forall i :: 0 <= i < |run| - 1 ==> PlayedNext(run[i], run[i + 1])
  }

  // ---- the invariant -----------------------------------------------------------

  predicate BoardFull(g: Grid, rows: nat, cols: nat)
    requires Rect(g, rows, cols)
  {
    forall r, c :: 0 <= r < rows && 0 <= c < cols ==> g[r][c] != EMPTY
  }

  /** Who makes the k-th accepted move. */
  function Due(first: string, k: int): string {
    if k % 2 == 0 then first else Other(first)
  }

  ghost function Filled(g: Grid): set<(int, int)> {
    set r, c | 0 <= r < |g| && 0 <= c < |g[r]| && g[r][c] != EMPTY :: (r, c)
  }

  ghost predicate PlayersOk(s: Game) {
    && s.taken == s.conns.Keys
    && s.taken <= {X, O}
    && (forall id :: id in s.registry ==> s.registry[id] in s.taken)
    && (s.board.None? ==> s.taken == {} && s.currentTurn == "" && !s.gameOver)
  }

  /** Neither side had won and there was room before every accepted move. */
  ghost predicate OpenBefore(rows: nat, cols: nat, m: nat, moves: seq<Move>)
    requires forall i :: 0 <= i < |moves| ==> 0 <= moves[i].row < rows && 0 <= moves[i].col < cols
  {
    forall k {:trigger moves[..k]} :: 0 <= k < |moves| ==>
      var g := Replay(rows, cols, moves[..k]);
      !HasRun(g, m) && !BoardFull(g, rows, cols)
  }

  ghost predicate BoardOk(s: Game, moves: seq<Move>) {
    && (forall i :: 0 <= i < |moves| ==> 0 <= moves[i].row < s.rows && 0 <= moves[i].col < s.cols)
    && (s.board.None? ==> moves == [])
    && (s.board.Some? ==>
          var g := s.board.value;
          && g == Replay(s.rows, s.cols, moves)
          && Stacked(g, s.rows, s.cols)
          && |Filled(g)| == |moves|
          && (s.gameOver <==> HasRun(g, s.m) || BoardFull(g, s.rows, s.cols))
          && OpenBefore(s.rows, s.cols, s.m, moves))
  }

  /** Moves alternate from the first player; the turn stays with whoever ended the game. */
  ghost predicate TurnsOk(s: Game, moves: seq<Move>) {
    s.board.Some? ==>
      && (s.firstPlayer == X || s.firstPlayer == O)
      && (forall k :: 0 <= k < |moves| ==> moves[k].player == PieceToPlayer(Due(s.firstPlayer, k)))
      && s.currentTurn == Due(s.firstPlayer, if s.gameOver then |moves| - 1 else |moves|)
  }

  ghost predicate PlayedOk(x: Played) {
    && x.game.rows >= 1 && x.game.cols >= 1 && x.game.m >= 1
    && PlayersOk(x.game)
    && BoardOk(x.game, x.moves)
    && TurnsOk(x.game, x.moves)
  }

  lemma PlayedOkIsPlayable(x: Played)
    requires PlayedOk(x)
    ensures Playable(x.game)
  {
    if x.game.registry != map[] {
      var id :| id in x.game.registry;
      assert x.game.registry[id] in x.game.taken;
    }
  }

  lemma ReplayOneMore(rows: nat, cols: nat, moves: seq<Move>, mv: Move)
    requires forall i :: 0 <= i < |moves| ==> 0 <= moves[i].row < rows && 0 <= moves[i].col < cols
    requires 0 <= mv.row < rows && 0 <= mv.col < cols
    ensures Replay(rows, cols, moves + [mv]) == Put(Replay(rows, cols, moves), mv.row, mv.col, mv.player)
  {
    assert (moves + [mv])[..|moves|] == moves;
  }

  lemma EmptyBoardIsOpen(rows: nat, cols: nat, m: nat)
    requires rows >= 1 && cols >= 1 && m >= 1
    ensures var g := EmptyGrid(rows, cols);
            !HasRun(g, m) && !BoardFull(g, rows, cols) && Stacked(g, rows, cols) && Filled(g) == {}
  {
    var g := EmptyGrid(rows, cols);
    forall r, c, dr, dc, p ensures !RunAt(g, m, r, c, dr, dc, p) {
      assert Holds(g, r, c, dr, dc, 0, p) ==> p == EMPTY;
    }
    assert g[0][0] == EMPTY;
  }

  lemma OneMoreFilled(g: Grid, row: int, col: int, p: Player)
    requires 0 <= row < |g| && 0 <= col < |g[row]| && g[row][col] == EMPTY && p != EMPTY
    ensures |Filled(Put(g, row, col, p))| == |Filled(g)| + 1
  {
    assert Filled(Put(g, row, col, p)) == Filled(g) + {(row, col)};
  }

  /** What an accepted move does to board and game end. */
  lemma AcceptedBoardOk(s: Game, s1: Game, moves: seq<Move>, mv: Move)
    requires s.rows >= 1 && s.cols >= 1 && s.m >= 1 && BoardOk(s, moves) && s.board.Some? && !s.gameOver
    requires Piece(mv.player) && Drop(s.board.value, s.rows, s.cols, mv.col, mv.player) == Landed(mv.row)
    requires var g' := Put(s.board.value, mv.row, mv.col, mv.player);
             && s1 == s.(board := Some(g'), gameOver := s1.gameOver, currentTurn := s1.currentTurn)
             && (s1.gameOver <==> WinsThrough(g', s.m, mv) || TopFull(g', s.rows, s.cols))
    ensures BoardOk(s1, moves + [mv])
  {
    var g, g', moves' := s.board.value, s1.board.value, moves + [mv];
    WinCheckIsGlobal(g, s.rows, s.cols, s.m, mv.col, mv.player);
    DropKeepsStacks(g, s.rows, s.cols, mv.col, mv.player);
    TopFullIsFull(g', s.rows, s.cols);
    ReplayOneMore(s.rows, s.cols, moves, mv);
    OneMoreFilled(g, mv.row, mv.col, mv.player);
    forall k {:trigger moves'[..k]} | 0 <= k < |moves'|
      ensures !HasRun(Replay(s.rows, s.cols, moves'[..k]), s.m)
              && !BoardFull(Replay(s.rows, s.cols, moves'[..k]), s.rows, s.cols)
    {
      assert moves'[..k] == moves[..k];
      assert moves[..|moves|] == moves;
    }
  }

  lemma AcceptedTurnsOk(s: Game, s1: Game, moves: seq<Move>, mv: Move)
    requires TurnsOk(s, moves) && s.board.Some? && s1.board.Some? && !s.gameOver
    requires s1.firstPlayer == s.firstPlayer && mv.player == PieceToPlayer(s.currentTurn)
    requires s1.currentTurn == if s1.gameOver then s.currentTurn else Other(s.currentTurn)
    ensures TurnsOk(s1, moves + [mv])
  {
  }

  /** The effect of a move request, read off the handler. */
  lemma MoveEffect(x: Played, id: string, column: int, x': Played)
    requires Playable(x.game) && Steps(x, MoveRequest(id, column), x')
    ensures x' == x || |x'.moves| == |x.moves| + 1
    ensures x' != x ==>
              var (s, s1, mv) := (x.game, x'.game, x'.moves[|x.moves|]);
              && x'.moves == x.moves + [mv]
              && s.board.Some? && !s.gameOver && id in s.registry && s.registry[id] == s.currentTurn
              && mv.player == PieceToPlayer(s.currentTurn)
              && Drop(s.board.value, s.rows, s.cols, mv.col, mv.player) == Landed(mv.row)
              && var g' := Put(s.board.value, mv.row, mv.col, mv.player);
                 && s1 == s.(board := Some(g'), gameOver := s1.gameOver, currentTurn := s1.currentTurn)
                 && (s1.gameOver <==> WinsThrough(g', s.m, mv) || TopFull(g', s.rows, s.cols))
                 && s1.currentTurn == if s1.gameOver then s.currentTurn else Other(s.currentTurn)
  {
  }

  lemma MoveOk(x: Played, id: string, column: int, x': Played)
    requires PlayedOk(x) && Playable(x.game) && Steps(x, MoveRequest(id, column), x')
    ensures PlayedOk(x')
  {
    MoveEffect(x, id, column, x');
    if x' != x {
      var mv := x'.moves[|x.moves|];
      AcceptedBoardOk(x.game, x'.game, x.moves, mv);
      AcceptedTurnsOk(x.game, x'.game, x.moves, mv);
    }
  }

  lemma ConnectOk(x: Played, conn: int, piece: string, id: string, x': Played)
    requires PlayedOk(x) && Playable(x.game) && Steps(x, Connect(conn, piece, id), x')
    ensures PlayedOk(x')
  {
    if x.game.board.None? && x'.game.board.Some? {
      EmptyBoardIsOpen(x.game.rows, x.game.cols, x.game.m);
    }
  }

  lemma DisconnectOk(x: Played, conn: int, piece: string, x': Played)
    requires PlayedOk(x) && Playable(x.game) && Steps(x, Disconnect(conn, piece), x')
    ensures PlayedOk(x')
  {
  }

  lemma EventOk(x: Played, x': Played)
    requires PlayedOk(x) && PlayedNext(x, x')
    ensures PlayedOk(x')
  {
    var e :| Playable(x.game) && Steps(x, e, x');
    match e
    case Connect(conn, piece, id) => ConnectOk(x, conn, piece, id, x');
    case MoveRequest(id, column) => MoveOk(x, id, column, x');
    case Disconnect(conn, piece) => DisconnectOk(x, conn, piece, x');
  }

  lemma EventKeepsSize(x: Played, x': Played)
    requires PlayedNext(x, x')
    ensures x'.game.rows == x.game.rows && x'.game.cols == x.game.cols && x'.game.m == x.game.m
  {
  }

  /** The invariant of every game, and with it: the handlers never dereference a
      missing board. */
  lemma {:induction false} GameOk(rows: nat, cols: nat, m: nat, run: seq<Played>, i: nat)
    requires IsGame(rows, cols, m, run) && i < |run|
    ensures PlayedOk(run[i]) && Playable(run[i].game)
    ensures run[i].game.rows == rows && run[i].game.cols == cols && run[i].game.m == m
  {
    if i > 0 {
      GameOk(rows, cols, m, run, i - 1);
      EventOk(run[i - 1], run[i]);
      EventKeepsSize(run[i - 1], run[i]);
    }
    PlayedOkIsPlayable(run[i]);
  }

  // ---- theorems ------------------------------------------------------------------

  function Cells(rows: nat, cols: nat): (s: set<(int, int)>)
    ensures forall x :: x in s <==> 0 <= x.0 < rows && 0 <= x.1 < cols
    ensures |s| == rows * cols
  {
    if rows == 0 then {} else
    var (above, row) := (Cells(rows - 1, cols), CellsOfRow(rows - 1, cols));
    assert above !! row && (rows - 1) * cols + cols == rows * cols;
    above + row
  }

  function CellsOfRow(row: int, cols: nat): (s: set<(int, int)>)
    ensures forall x :: x in s <==> x.0 == row && 0 <= x.1 < cols
    ensures |s| == cols
  {
    if cols == 0 then {} else CellsOfRow(row, cols - 1) + {(row, cols - 1)}
  }

  lemma FilledFits(g: Grid, rows: nat, cols: nat)
    requires Rect(g, rows, cols)
    ensures |Filled(g)| <= rows * cols
  {
    assert Filled(g) <= Cells(rows, cols);
    SubsetIsNoLarger(Filled(g), Cells(rows, cols));
  }

  /** At most rows * cols moves are ever accepted. */
  lemma MovesAreBounded(rows: nat, cols: nat, m: nat, run: seq<Played>, i: nat)
    requires IsGame(rows, cols, m, run) && i < |run|
    ensures |run[i].moves| <= rows * cols
  {
    GameOk(rows, cols, m, run, i);
    hide IsGame, Cells;
    if run[i].game.board.Some? {
      FilledFits(run[i].game.board.value, rows, cols);
    }
  }

  /** One event after the first connect either accepts a move or leaves the game alone. */
  lemma EventEffect(x: Played, x': Played)
    requires PlayedNext(x, x') && x.game.board.Some?
    ensures x.moves <= x'.moves && x'.game.board.Some?
    ensures x.game.gameOver ==> x'.moves == x.moves
    ensures x'.moves == x.moves ==>
              && x'.game.board == x.game.board
              && x'.game.currentTurn == x.game.currentTurn
              && x'.game.gameOver == x.game.gameOver
  {
  }

  lemma {:induction false} MovesGrow(rows: nat, cols: nat, m: nat, run: seq<Played>, i: nat, j: nat)
    requires IsGame(rows, cols, m, run) && i <= j < |run| && run[i].game.board.Some?
    ensures run[i].moves <= run[j].moves && run[j].game.board.Some?
  {
    hide PlayedNext, PlayedOk;
    if i < j {
      MovesGrow(rows, cols, m, run, i, j - 1);
      GameOk(rows, cols, m, run, j - 1);
      EventEffect(run[j - 1], run[j]);
    }
  }

  /** However many refusals, connects, disconnects and reconnects come between two
      accepted moves, they leave board, turn and verdict alone. */
  lemma {:induction false} OnlyMovesMatter(rows: nat, cols: nat, m: nat, run: seq<Played>, i: nat, j: nat)
    requires IsGame(rows, cols, m, run) && i <= j < |run| && run[i].game.board.Some?
    requires run[j].moves == run[i].moves
    ensures run[j].game.board == run[i].game.board
    ensures run[j].game.currentTurn == run[i].game.currentTurn
    ensures run[j].game.gameOver == run[i].game.gameOver
  {
    hide PlayedNext, PlayedOk;
    if i < j {
      MovesGrow(rows, cols, m, run, i, j - 1);
      MovesGrow(rows, cols, m, run, j - 1, j);
      OnlyMovesMatter(rows, cols, m, run, i, j - 1);
      GameOk(rows, cols, m, run, j - 1);
      EventEffect(run[j - 1], run[j]);
    }
  }

  lemma OverHasBoard(x: Played)
    requires PlayedOk(x) && x.game.gameOver
    ensures x.game.board.Some?
  {
  }

  /** A finished game takes no move ever after. */
  lemma {:induction false} OverIsOver(rows: nat, cols: nat, m: nat, run: seq<Played>, i: nat, j: nat)
    requires IsGame(rows, cols, m, run) && i <= j < |run| && run[i].game.gameOver
    ensures run[j].moves == run[i].moves && run[j].game.gameOver && run[j].game.board == run[i].game.board
  {
    hide PlayedNext, PlayedOk;
    GameOk(rows, cols, m, run, i);
    OverHasBoard(run[i]);
    if i < j {
      OverIsOver(rows, cols, m, run, i, j - 1);
      GameOk(rows, cols, m, run, j - 1);
      EventEffect(run[j - 1], run[j]);
    }
  }

  // ---- what the server answers, exactly ------------------------------------------

  /** The id is registered, the game is on and it is the turn of the id's piece. */
  predicate OnTurn(s: Game, id: string) {
    id in s.registry && !s.gameOver && s.registry[id] == s.currentTurn
  }

  predicate Accepted(reply: MoveReply) {
    reply.Won? || reply.Drawn? || reply.Continue?
  }

  /** The column, counted from one, has room. */
  predicate IsOpen(s: Game, column: int)
    requires s.board.Some? && Rect(s.board.value, s.rows, s.cols)
  {
    HasRoom(s.board.value, s.rows, s.cols, column - 1)
  }

  /** Each refusal has exactly its own cause, in the source's order; a request is
      accepted exactly if none of them holds. A refusal changes nothing. */
  lemma RefusedIff(s: Game, id: string, column: int, s1: Game, reply: MoveReply)
    requires Playable(s) && (s1, reply) == OnMove(s, id, column)
    ensures reply == NotRegistered <==> id !in s.registry
    ensures reply == AlreadyOver <==> id in s.registry && s.gameOver
    ensures reply == NotYourTurn <==> id in s.registry && !s.gameOver && s.registry[id] != s.currentTurn
    ensures OnTurn(s, id) ==> s.board.Some?
    ensures reply == Illegal(ColumnOutOfBounds) <==> OnTurn(s, id) && !(1 <= column <= s.cols)
    ensures reply == Illegal(ColumnFull) <==> OnTurn(s, id) && 1 <= column <= s.cols && !IsOpen(s, column)
    ensures reply != Illegal(InvalidPlayer)
    ensures Accepted(reply) <==> OnTurn(s, id) && IsOpen(s, column)
    ensures !Accepted(reply) ==> s1 == s
  {
    if OnTurn(s, id) {
      DropIff(s.board.value, s.rows, s.cols, column - 1, PieceToPlayer(s.registry[id]), 0);
    }
  }

  /** What the server checks on a new board is how the board stands as a whole. */
  lemma NewBoardStands(x: Played, g1: Grid, mv: Move)
    requires PlayedOk(x) && x.game.board.Some? && !x.game.gameOver && Piece(mv.player)
    requires Rect(x.game.board.value, x.game.rows, x.game.cols) && 0 <= mv.row < x.game.rows && 0 <= mv.col < x.game.cols
    requires Drop(x.game.board.value, x.game.rows, x.game.cols, mv.col, mv.player) == Landed(mv.row)
    requires g1 == Put(x.game.board.value, mv.row, mv.col, mv.player)
    ensures Rect(g1, x.game.rows, x.game.cols) && x.game.rows >= 1
    ensures WinsThrough(g1, x.game.m, mv) <==> HasRun(g1, x.game.m)
    ensures TopFull(g1, x.game.rows, x.game.cols) <==> BoardFull(g1, x.game.rows, x.game.cols)
  {
    var s := x.game;
    WinCheckIsGlobal(s.board.value, s.rows, s.cols, s.m, mv.col, mv.player);
    DropKeepsStacks(s.board.value, s.rows, s.cols, mv.col, mv.player);
    TopFullIsFull(g1, s.rows, s.cols);
  }

  /** What an accepted request does, and that its answer tells how the new board
      stands: the piece of the id that moved has won exactly if there is a run anywhere,
      the game is drawn exactly if there is none and the board is full, and otherwise
      the other piece is next. */
  lemma AcceptedIff(x: Played, id: string, column: int, row: int, s1: Game, reply: MoveReply)
    requires PlayedOk(x) && Playable(x.game) && (s1, reply) == OnMove(x.game, id, column) && Accepted(reply)
    requires x.game.board.Some? && FreeCell(x.game.board.value, x.game.rows, x.game.cols, column - 1, row)
    requires forall r :: row < r < x.game.rows ==> x.game.board.value[r][column - 1] != EMPTY
    ensures var s, g1 := x.game, s1.board;
            && id in s.registry
            && g1 == Some(Put(s.board.value, row, column - 1, if s.registry[id] == "X" then PLAYER1 else PLAYER2))
            && Rect(g1.value, s.rows, s.cols)
            && (forall w :: reply == Won(w) <==> HasRun(g1.value, s.m) && w == s.registry[id])
            && (reply == Drawn <==> !HasRun(g1.value, s.m) && BoardFull(g1.value, s.rows, s.cols))
            && (forall next :: reply == Continue(next) <==>
                  && !HasRun(g1.value, s.m) && !BoardFull(g1.value, s.rows, s.cols)
                  && next == if s.registry[id] == "X" then "O" else "X")
            && (s1.gameOver <==> HasRun(g1.value, s.m) || BoardFull(g1.value, s.rows, s.cols))
            && s1.currentTurn == (if reply.Continue? then reply.next else s.currentTurn)
            && s1 == s.(board := g1, gameOver := s1.gameOver, currentTurn := s1.currentTurn)
  {
    hide PlayedOk, HasRun, BoardFull, WinsThrough, TopFull, Put;
    var s := x.game;
    var p := PieceToPlayer(s.registry[id]);
    DropIff(s.board.value, s.rows, s.cols, column - 1, p, row);
    NewBoardStands(x, Put(s.board.value, row, column - 1, p), Move(column - 1, row, p));
  }

  /** Both, for every request in every state of every game. */
  lemma EveryAnswerIsExact(rows: nat, cols: nat, m: nat, run: seq<Played>, i: nat, id: string, column: int,
                           s1: Game, reply: MoveReply)
    requires IsGame(rows, cols, m, run) && i < |run| && Playable(run[i].game)
    requires (s1, reply) == OnMove(run[i].game, id, column)
    ensures run[i].game.board.Some? ==> Rect(run[i].game.board.value, run[i].game.rows, run[i].game.cols)
    ensures Accepted(reply) <==> OnTurn(run[i].game, id) && run[i].game.board.Some? && IsOpen(run[i].game, column)
    ensures Accepted(reply) ==> s1.board.Some? && Rect(s1.board.value, rows, cols)
    ensures forall w :: reply == Won(w) <==>
              Accepted(reply) && HasRun(s1.board.value, m) && w == run[i].game.registry[id]
    ensures reply == Drawn <==>
              Accepted(reply) && !HasRun(s1.board.value, m) && BoardFull(s1.board.value, rows, cols)
    ensures forall next :: reply == Continue(next) <==>
              && Accepted(reply) && !HasRun(s1.board.value, m) && !BoardFull(s1.board.value, rows, cols)
              && next == if run[i].game.registry[id] == "X" then "O" else "X"
    ensures !Accepted(reply) ==> s1 == run[i].game
  {
    GameOk(rows, cols, m, run, i);
    var s := run[i].game;
    RefusedIff(s, id, column, s1, reply);
    if Accepted(reply) {
      var row := LowestEmpty(s.board.value, s.rows, s.cols, column - 1, s.rows - 1);
      assert FreeCell(s.board.value, s.rows, s.cols, column - 1, row);
      AcceptedIff(run[i], id, column, row, s1, reply);
    }
  }

  /** A game that is not over never runs dry: some column is open to whoever has the
      turn. */
  lemma SomeMoveIsAccepted(rows: nat, cols: nat, m: nat, run: seq<Played>, i: nat) returns (column: int)
    requires IsGame(rows, cols, m, run) && i < |run| && run[i].game.board.Some? && !run[i].game.gameOver
    ensures Playable(run[i].game) && 1 <= column <= cols
    ensures forall id :: id in run[i].game.registry && run[i].game.registry[id] == run[i].game.currentTurn ==>
              Accepted(OnMove(run[i].game, id, column).1)
  {
    GameOk(rows, cols, m, run, i);
    var s := run[i].game;
    assert !BoardFull(s.board.value, s.rows, s.cols);
    var r, c :| 0 <= r < s.rows && 0 <= c < s.cols && s.board.value[r][c] == EMPTY;
    column := c + 1;
    assert FreeCell(s.board.value, s.rows, s.cols, column - 1, r);
    forall id | id in s.registry && s.registry[id] == s.currentTurn
      ensures Accepted(OnMove(s, id, column).1)
    {
      RefusedIff(s, id, column, OnMove(s, id, column).0, OnMove(s, id, column).1);
    }
  }

  /** Each answer to a connect has its own cause; a piece that is free is given to the
      id and the connection, nothing is taken from anyone else, and only the very first
      connect sets up board and turn. */
  lemma ConnectIff(s: Game, conn: int, piece: string, id: string, s1: Game, reply: ConnectReply)
    requires (s1, reply) == OnConnect(s, conn, piece, id)
    ensures reply == InvalidPiece <==> piece != "X" && piece != "O"
    ensures reply == PieceTaken <==> (piece == "X" || piece == "O") && piece in s.taken
    ensures reply.Connected? <==> (piece == "X" || piece == "O") && piece !in s.taken
    ensures !reply.Connected? ==> s1 == s
    ensures reply.Connected? ==>
              && (reply.both <==> (if piece == "X" then "O" else "X") in s.taken)
              && id in s1.registry && s1.registry[id] == piece && s1.registry - {id} == s.registry - {id}
              && piece in s1.taken && s1.taken - {piece} == s.taken - {piece}
              && piece in s1.conns && s1.conns[piece] == conn && s1.conns - {piece} == s.conns - {piece}
              && s1.gameOver == s.gameOver && s1.board.Some?
              && (s.board.Some? ==> s1.board == s.board && s1.currentTurn == s.currentTurn
                                    && s1.firstPlayer == s.firstPlayer)
              && (s.board.None? ==>
                    && s1.firstPlayer == piece && s1.currentTurn == piece && Rect(s1.board.value, s.rows, s.cols)
                    && forall r, c :: 0 <= r < s.rows && 0 <= c < s.cols ==> s1.board.value[r][c] == EMPTY)
  {
  }

  /** Whoever has just connected with the piece that is due may move. */
  lemma ConnectedMayMove(rows: nat, cols: nat, m: nat, run: seq<Played>, i: nat, conn: int, piece: string, id: string)
    returns (column: int)
    requires IsGame(rows, cols, m, run) && i + 1 < |run|
    requires run[i + 1].game == OnConnect(run[i].game, conn, piece, id).0
    requires OnConnect(run[i].game, conn, piece, id).1.Connected?
    requires run[i + 1].game.currentTurn == piece && !run[i + 1].game.gameOver
    ensures Playable(run[i + 1].game) && Accepted(OnMove(run[i + 1].game, id, column).1)
  {
    var (s1, reply) := OnConnect(run[i].game, conn, piece, id);
    ConnectIff(run[i].game, conn, piece, id, s1, reply);
    column := SomeMoveIsAccepted(rows, cols, m, run, i + 1);
  }

  /** A closed connection takes from the game its piece's slot, connection and ids, and
      nothing of the other piece's; the piece is free for the next connect. */
  lemma ReleaseIsExact(s: Game, piece: string, s1: Game)
    requires s1 == Release(s, piece)
    ensures piece !in s1.taken && s1.taken + {piece} == s.taken + {piece}
    ensures piece !in s1.conns && s1.conns == s.conns - {piece}
    ensures forall id :: id in s1.registry <==> id in s.registry && s.registry[id] != piece
    ensures forall id :: id in s1.registry ==> s1.registry[id] == s.registry[id]
    ensures s1 == s.(registry := s1.registry, taken := s1.taken, conns := s1.conns)
    ensures forall conn, id :: (piece == "X" || piece == "O") ==> OnConnect(s1, conn, piece, id).1.Connected?
  {
  }
}
