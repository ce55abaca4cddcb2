/** The globals of hw1/server/main.go as one object, and what its handlers do to
    them under the mutex. */
module GameServer {
  import opened Options
  import opened Board
  import opened Game

  class Server {
    const boardRows: nat
    const boardCols: nat
    const boardM: nat

    var board: Board?
    var playerRegistry: map<string, string>
    var takenPieces: set<string>
    var playerConns: map<string, int>
    var firstPlayer: string
    var currentTurn: string
    var gameOver: bool

    ghost predicate Valid()
      reads this, board, if board != null then {board.grid} else {}
    {
      && boardRows >= 1 && boardCols >= 1 && boardM >= 1
      && (board != null ==>
            board.Valid() && board.rows == boardRows && board.cols == boardCols && board.m == boardM)
    }

    ghost function View(): (s: Game)
      requires Valid()
      reads this, board, if board != null then {board.grid} else {}
      ensures s.board.Some? ==> Rect(s.board.value, s.rows, s.cols)
    {
      Game(boardRows, boardCols, boardM, if board == null then None else Some(board.View()),
           playerRegistry, takenPieces, playerConns, firstPlayer, currentTurn, gameOver)
    }

    constructor (rows: nat, cols: nat, m: nat)
      requires rows >= 1 && cols >= 1 && m >= 1
      ensures Valid() && View() == NewGame(rows, cols, m)
    {
      boardRows, boardCols, boardM := rows, cols, m;
      board := null;
      playerRegistry, takenPieces, playerConns := map[], {}, map[];
      firstPlayer, currentTurn, gameOver := "", "", false;
    }

    method HandleConnect(conn: int, piece: string, id: string) returns (reply: ConnectReply)
      requires Valid()
      modifies this
      ensures Valid() && (View(), reply) == OnConnect(old(View()), conn, piece, id)
      ensures board != old(board) ==> old(board) == null && fresh(board) && fresh(board.grid)
    {
      if piece != X && piece != O {
        return InvalidPiece;
      }
      if piece in takenPieces {
        return PieceTaken;
      }
      playerRegistry := playerRegistry[id := piece];
      takenPieces := takenPieces + {piece};
      playerConns := playerConns[piece := conn];
      if board == null {
        board := new Board(boardRows, boardCols, boardM);
        EmptyGridIsUnique(board.View(), boardRows, boardCols);
        firstPlayer := piece;
        currentTurn := piece;
      }
      return Connected(X in takenPieces && O in takenPieces);
    }

    method HandleMove(id: string, column: int) returns (reply: MoveReply)
      requires Valid() && Playable(View())
      modifies this, board, if board != null then {board.grid} else {}
      ensures Valid() && (View(), reply) == OnMove(old(View()), id, column)
      ensures board == old(board)
    {
      if id !in playerRegistry {
        return NotRegistered;
      }
      var piece := playerRegistry[id];
      if gameOver {
        return AlreadyOver;
      }
      if piece != currentTurn {
        return NotYourTurn;
      }
      var col0 := column - 1;
      var result := board.MakeMove(col0, PieceToPlayer(piece));
      if result.Rejected? {
        return Illegal(result.error);
      }
      var won := board.CheckWin();
      if won {
        gameOver := true;
        return Won(piece);
      }
      var full := board.IsFull();
      if full {
        gameOver := true;
        return Drawn;
      }
      if currentTurn == X {
        currentTurn := O;
      } else {
        currentTurn := X;
      }
      return Continue(currentTurn);
    }

    /** A connection closes: the first piece found on it, in whatever order the map
        is walked, becomes free, and every id registered for that piece is dropped. */
    method Disconnect(conn: int) returns (released: Option<string>)
      requires Valid()
      modifies this
      ensures Valid() && board == old(board)
      ensures match released
              case Some(piece) =>
                && piece in old(playerConns) && old(playerConns)[piece] == conn
                && View() == Release(old(View()), piece)
              case None => conn !in old(playerConns).Values && View() == old(View())
    {
      var pieces := playerConns.Keys;
      while pieces != {}
        invariant pieces <= playerConns.Keys && Valid() && View() == old(View()) && board == old(board)
        invariant forall p :: p in playerConns && p !in pieces ==> playerConns[p] != conn
      {
        var piece :| piece in pieces;
        if playerConns[piece] == conn {
          playerConns := playerConns - {piece};
          takenPieces := takenPieces - {piece};
          Unregister(piece);
          return Some(piece);
        }
        pieces := pieces - {piece};
      }
      return None;
    }

    method Unregister(piece: string)
      modifies this`playerRegistry
      ensures playerRegistry
           == map id | id in old(playerRegistry) && old(playerRegistry)[id] != piece :: old(playerRegistry)[id]
    {
      ghost var before := playerRegistry;
      var ids := playerRegistry.Keys;
      while ids != {}
        invariant ids <= playerRegistry.Keys <= before.Keys
        invariant forall id :: id in playerRegistry ==> playerRegistry[id] == before[id]
        invariant forall id :: id in playerRegistry && id !in ids ==> before[id] != piece
        invariant forall id :: id in before && id !in playerRegistry ==> before[id] == piece
      {
        var id :| id in ids;
        ids := ids - {id};
        if playerRegistry[id] == piece {
          playerRegistry := playerRegistry - {id};
        }
      }
    }
  }
}
