/** The chess rules shared by the text and the graphical chess games
    (freeos.py:1188-1201, 1221-1290): the start position, square names, and the
    move check that also plays the move on the board. No castling, en passant or
    promotion, and no check detection. */
module Chess {
  import opened Text

  /** A board as a value: eight rows of eight cells, rank 8 first. Upper-case
      letters are white, lower-case letters black, '.' is an empty cell. */
  type Board = seq<string>

  predicate WellShaped(b: Board)
  {
    |b| == 8 && forall i :: 0 <= i < 8 ==> |b[i]| == 8
  }

  predicate OnBoard(r: int, c: int)
  {
    0 <= r < 8 && 0 <= c < 8
  }

  const Files: string := "abcdefgh"

  /** _chess_start_board */
  function StartPosition(): (b: Board)
    ensures WellShaped(b)
  {
    ["rnbqkbnr", "pppppppp", "........", "........", "........", "........", "PPPPPPPP", "RNBQKBNR"]
  }

  /** A fresh 8x8 board holding the start position. */
  method StartBoard() returns (board: array2<char>)
    ensures fresh(board) && board.Length0 == 8 && board.Length1 == 8
    ensures forall i, j :: 0 <= i < 8 && 0 <= j < 8 ==> board[i, j] == StartPosition()[i][j]
  {
    board := new char[8, 8]((i, j) => if 0 <= i < 8 && 0 <= j < 8 then StartPosition()[i][j] else '.');
  }

  // ---- Square names ----

  /** `"abcdefgh".find(f)`: the column of file letter f, -1 for any other character. */
  function FileIndex(f: char): (i: int)
    ensures -1 <= i < 8
    ensures i == -1 <==> f !in Files
    ensures i >= 0 ==> Files[i] == f
  {
    match f
    case 'a' => 0 case 'b' => 1 case 'c' => 2 case 'd' => 3
    case 'e' => 4 case 'f' => 5 case 'g' => 6 case 'h' => 7
    case _ => -1
  }

  /** FileIndex is str.find on the file letters. */
  lemma FileIndexIsFind(f: char)
    ensures FileIndex(f) == Find(Files, f)
  {
    var i := Find(Files, f);
    if i >= 0 {
      assert forall j :: 0 <= j < 8 && Files[j] == f ==> j == i;
    }
  }

  /** _chess_sq_to_idx as written: (8 - rank, "abcdefgh".find(file)); None where
      it raises, i.e. with fewer than two characters or a second character that
      is no digit. A letter outside a-h gives column -1; ranks 0 and 9 give rows
      8 and -1. */
  function SqToIdx(sq: string): (r: Option<(int, int)>)
    ensures r.Some? <==> |sq| >= 2 && IsDigit(sq[1])
    ensures r.Some? ==> -1 <= r.value.0 <= 8 && -1 <= r.value.1 < 8
  {
    if |sq| < 2 || !IsDigit(sq[1]) then None
    else Some((8 - (sq[1] as int - '0' as int), FileIndex(sq[0])))
  }

  /** Python's `xs[i]` on a list of length n: negative indices count from the
      end; None where it raises IndexError. */
  function PyIndex(i: int, n: nat): (r: Option<nat>)
    ensures r.Some? <==> -(n as int) <= i < n
    ensures r.Some? ==> r.value < n && (r.value == i || r.value == i + n)
  {
    if 0 <= i < n then Some(i) else if -(n as int) <= i < 0 then Some(i + n) else None
  }

  /** The guard of _chess_try_move lets off-board names through: `z9` parses to
      (-1, -1), which Python's negative indexing sends to the cell of h1, and
      `a0` parses to row 8, on which `board[8]` raises outside the guard. */
  lemma OffBoardNamesPass()
    ensures SqToIdx("z9") == Some((-1, -1)) && PyIndex(-1, 8) == Some(7) && SqToIdx("h1") == Some((7, 7))
    ensures SqToIdx("a0") == Some((8, 0)) && PyIndex(8, 8).None?
  {
  }

  /** The square names the move check accepts: a file a-h and a rank 1-8
      (characters after them are ignored, as in the source); the result is
      (row, column), row 0 being rank 8. */
  function ParseSquare(sq: string): (r: Option<(nat, nat)>)
    ensures r.Some? <==> |sq| >= 2 && sq[0] in Files && '1' <= sq[1] <= '8'
    ensures r.Some? ==> OnBoard(r.value.0, r.value.1)
                        && SqToIdx(sq) == Some((r.value.0 as int, r.value.1 as int))
  {
    match SqToIdx(sq)
    case Some((r, c)) => if OnBoard(r, c) then Some((r as nat, c as nat)) else None
    case None => None
  }

  /** _chess_idx_to_sq */
  function IdxToSq(r: int, c: int): string
    requires 0 <= c < 8
  {
    [Files[c]] + IntToStr(8 - r)
  }

  /** Every cell's name parses back to the cell. */
  lemma SquareRoundTrip(r: nat, c: nat)
    requires OnBoard(r, c)
    ensures |IdxToSq(r, c)| == 2
    ensures ParseSquare(IdxToSq(r, c)) == Some((r, c))
  {
    var sq := IdxToSq(r, c);
    assert IntToStr(8 - r) == [DigitChar(8 - r)];
    assert sq[0] == Files[c] && sq[1] == DigitChar(8 - r);
  }

  /** Every accepted name is the name of the cell it parses to (its first two characters). */
  lemma NameRoundTrip(sq: string)
    requires ParseSquare(sq).Some?
    ensures IdxToSq(ParseSquare(sq).value.0, ParseSquare(sq).value.1) == sq[..2]
  {
    var (r, c) := ParseSquare(sq).value;
    assert IntToStr(8 - r) == [DigitChar(8 - r)];
    assert [Files[c]] + [DigitChar(8 - r)] == sq[..2];
  }

  // ---- Pieces and geometry ----

  /** The letter `pc.upper()` gives for the piece letters; other characters are
      left as they are, which names no piece either way. */
  function Kind(pc: char): (k: char)
    ensures IsLowerAscii(pc) ==> k as int == pc as int - 32
  {
    if IsLowerAscii(pc) then (pc as int - 32) as char else pc
  }

  function Abs(n: int): nat { if n < 0 then -n else n }

  function Max(a: nat, b: nat): nat { if a < b then b else a }

  /** Coordinate a after k unit steps towards b (a stays put when it equals b). */
  function Toward(a: int, b: int, k: nat): int
  {
    if b > a then a + k else if b < a then a - k else a
  }

  /** Same row, same column or same diagonal. */
  predicate Line(r0: int, c0: int, r1: int, c1: int)
  {
    r0 == r1 || c0 == c1 || Abs(r1 - r0) == Abs(c1 - c0)
  }

  function Dist(r0: int, c0: int, r1: int, c1: int): nat
  {
    Max(Abs(r1 - r0), Abs(c1 - c0))
  }

  /** Walking from one cell towards another on a line stays on the board,
      reaches the target after Dist steps and not before. */
  lemma PathStaysOnBoard(r0: int, c0: int, r1: int, c1: int)
    requires OnBoard(r0, c0) && OnBoard(r1, c1) && Line(r0, c0, r1, c1)
    ensures forall k: nat :: k <= Dist(r0, c0, r1, c1) ==>
              OnBoard(Toward(r0, r1, k), Toward(c0, c1, k))
    ensures Toward(r0, r1, Dist(r0, c0, r1, c1)) == r1
    ensures Toward(c0, c1, Dist(r0, c0, r1, c1)) == c1
    ensures forall k: nat :: k < Dist(r0, c0, r1, c1) ==>
              Toward(r0, r1, k) != r1 || Toward(c0, c1, k) != c1
  {
  }

  /** path_clear: the two cells differ and every cell strictly between them is empty. */
  predicate PathClearSpec(b: Board, r0: int, c0: int, r1: int, c1: int)
    requires WellShaped(b) && OnBoard(r0, c0) && OnBoard(r1, c1) && Line(r0, c0, r1, c1)
  {
    PathStaysOnBoard(r0, c0, r1, c1);
    !(r0 == r1 && c0 == c1)
    && forall k: nat :: 1 <= k < Dist(r0, c0, r1, c1) ==>
         b[Toward(r0, r1, k)][Toward(c0, c1, k)] == '.'
  }

  /** The movement rule of the piece on (r0, c0) for a move to (r1, c1). */
  predicate Legal(b: Board, r0: nat, c0: nat, r1: nat, c1: nat)
    requires WellShaped(b) && OnBoard(r0, c0) && OnBoard(r1, c1)
  {
    var pc := b[r0][c0];
    var target := b[r1][c1];
    var dr := r1 - r0;
    var dc := c1 - c0;
    var name := Kind(pc);
    if name == 'P' then
      var dir := if IsUpperLetter(pc) then -1 else 1;
      var startRow := if IsUpperLetter(pc) then 6 else 1;
      if dc == 0 && target == '.' then
        dr == dir || (dr == 2 * dir && r0 == startRow && b[r0 + dir][c0] == '.' && b[r1][c1] == '.')
      else
        Abs(dc) == 1 && dr == dir && target != '.' && IsUpperLetter(target) != IsUpperLetter(pc)
    else if name == 'N' then (Abs(dr) == 1 && Abs(dc) == 2) || (Abs(dr) == 2 && Abs(dc) == 1)
    else if name == 'B' then Abs(dr) == Abs(dc) && PathClearSpec(b, r0, c0, r1, c1)
    else if name == 'R' then (dr == 0 || dc == 0) && PathClearSpec(b, r0, c0, r1, c1)
    else if name == 'Q' then ((dr == 0 || dc == 0) || Abs(dr) == Abs(dc)) && PathClearSpec(b, r0, c0, r1, c1)
    else if name == 'K' then Max(Abs(dr), Abs(dc)) == 1
    else false
  }

  /** The answer of _chess_try_move and the board after it. */
  datatype Move = Move(ok: bool, msg: string, board: Board)

  /** The piece moves to the target cell and its source cell becomes empty. */
  function Apply(b: Board, r0: nat, c0: nat, r1: nat, c1: nat): (a: Board)
    requires WellShaped(b) && OnBoard(r0, c0) && OnBoard(r1, c1)
    ensures WellShaped(a)
    ensures a[r0][c0] == '.'
    ensures !(r0 == r1 && c0 == c1) ==> a[r1][c1] == b[r0][c0]
    ensures forall i, j :: OnBoard(i, j) && !(i == r0 && j == c0) && !(i == r1 && j == c1) ==> a[i][j] == b[i][j]
  {
    var b1 := b[r1 := b[r1][c1 := b[r0][c0]]];
    b1[r0 := b1[r0][c0 := '.']]
  }

  /** The checks of _chess_try_move on two parsed cells, in their order. */
  function Judge(b: Board, turn: string, r0: nat, c0: nat, r1: nat, c1: nat): (m: Move)
    requires WellShaped(b) && OnBoard(r0, c0) && OnBoard(r1, c1)
  {
    var pc := b[r0][c0];
    var target := b[r1][c1];
    if pc == '.' then Move(false, "Case source vide.", b)
    else if turn == "w" && !IsUpperLetter(pc) then Move(false, "C’est aux blancs.", b)
    else if turn == "b" && !IsLowerLetter(pc) then Move(false, "C’est aux noirs.", b)
    else if target != '.' && IsUpperLetter(target) == IsUpperLetter(pc) then
      Move(false, "Case occupée par une pièce alliée.", b)
    else if !Legal(b, r0, c0, r1, c1) then Move(false, "Coup illégal.", b)
    else Move(true, "ok", Apply(b, r0, c0, r1, c1))
  }

  /** _chess_try_move on a board value, with the checked square names. */
  function Attempt(b: Board, turn: string, src: string, dst: string): (m: Move)
    requires WellShaped(b)
  {
    match (ParseSquare(src), ParseSquare(dst))
    case (Some((r0, c0)), Some((r1, c1))) => Judge(b, turn, r0, c0, r1, c1)
    case _ => Move(false, "Coordonnées invalides.", b)
  }

  /** The source piece exists, belongs to the side to move (when the turn is "w"
      or "b"), and the target is not occupied by its own side. */
  predicate Preliminary(b: Board, turn: string, r0: nat, c0: nat, r1: nat, c1: nat)
    requires WellShaped(b) && OnBoard(r0, c0) && OnBoard(r1, c1)
  {
    var pc := b[r0][c0];
    var target := b[r1][c1];
    pc != '.' && !(turn == "w" && !IsUpperLetter(pc)) && !(turn == "b" && !IsLowerLetter(pc))
    && !(target != '.' && IsUpperLetter(target) == IsUpperLetter(pc))
  }

  // ---- Properties of the move check ----

  /** A move is played exactly when the answer is "ok"; every refused move leaves
      the board as it was; a played move changes the source cell (now empty) and
      the target cell (now holding the piece) and nothing else. */
  lemma MoveOutcome(b: Board, turn: string, src: string, dst: string)
    requires WellShaped(b)
    ensures var m := Attempt(b, turn, src, dst);
            WellShaped(m.board) && (m.ok <==> m.msg == "ok") && (!m.ok ==> m.board == b)
    ensures var m := Attempt(b, turn, src, dst);
            m.ok ==> ParseSquare(src).Some? && ParseSquare(dst).Some?
                     && var (r0, c0) := ParseSquare(src).value;
                        var (r1, c1) := ParseSquare(dst).value;
                        !(r0 == r1 && c0 == c1) && m.board[r1][c1] == b[r0][c0] && m.board[r0][c0] == '.'
                        && forall i, j :: OnBoard(i, j) && !(i == r0 && j == c0) && !(i == r1 && j == c1)
                                          ==> m.board[i][j] == b[i][j]
  {
  }

  /** The refusals, in the order the checks run. */
  lemma MoveRefusals(b: Board, turn: string, r0: nat, c0: nat, r1: nat, c1: nat)
    requires WellShaped(b) && OnBoard(r0, c0) && OnBoard(r1, c1)
    ensures var m := Judge(b, turn, r0, c0, r1, c1);
            (b[r0][c0] == '.' ==> m.msg == "Case source vide.")
            && (b[r0][c0] != '.' && turn == "w" && !IsUpperLetter(b[r0][c0]) ==> m.msg == "C’est aux blancs.")
            && (b[r0][c0] != '.' && turn == "b" && !IsLowerLetter(b[r0][c0]) ==> m.msg == "C’est aux noirs.")
            && (b[r0][c0] != '.' && !(turn == "w" && !IsUpperLetter(b[r0][c0]))
                && !(turn == "b" && !IsLowerLetter(b[r0][c0]))
                && b[r1][c1] != '.' && IsUpperLetter(b[r1][c1]) == IsUpperLetter(b[r0][c0])
                ==> m.msg == "Case occupée par une pièce alliée.")
            && (m.ok <==> Preliminary(b, turn, r0, c0, r1, c1) && Legal(b, r0, c0, r1, c1))
            && (Preliminary(b, turn, r0, c0, r1, c1) && !Legal(b, r0, c0, r1, c1) ==> m.msg == "Coup illégal.")
  {
  }

  /** A played move moves a piece of the side to move and never lands on a
      piece of its own colour. */
  lemma PlayedMoveRespectsSides(b: Board, turn: string, r0: nat, c0: nat, r1: nat, c1: nat)
    requires WellShaped(b) && OnBoard(r0, c0) && OnBoard(r1, c1)
    requires Judge(b, turn, r0, c0, r1, c1).ok
    ensures b[r0][c0] != '.'
    ensures turn == "w" ==> IsUpperLetter(b[r0][c0])
    ensures turn == "b" ==> IsLowerLetter(b[r0][c0])
    ensures b[r1][c1] == '.' || IsUpperLetter(b[r1][c1]) != IsUpperLetter(b[r0][c0])
  {
  }

  /** Knights move in an L: (|dr|, |dc|) is (1, 2) or (2, 1). */
  lemma KnightRule(b: Board, turn: string, r0: nat, c0: nat, r1: nat, c1: nat)
    requires WellShaped(b) && OnBoard(r0, c0) && OnBoard(r1, c1)
    requires Kind(b[r0][c0]) == 'N' && Preliminary(b, turn, r0, c0, r1, c1)
    ensures Judge(b, turn, r0, c0, r1, c1).ok
            <==> (Abs(r1 - r0) == 1 && Abs(c1 - c0) == 2) || (Abs(r1 - r0) == 2 && Abs(c1 - c0) == 1)
  {
  }

  /** Kings move to one of the eight neighbouring cells. */
  lemma KingRule(b: Board, turn: string, r0: nat, c0: nat, r1: nat, c1: nat)
    requires WellShaped(b) && OnBoard(r0, c0) && OnBoard(r1, c1)
    requires Kind(b[r0][c0]) == 'K' && Preliminary(b, turn, r0, c0, r1, c1)
    ensures Judge(b, turn, r0, c0, r1, c1).ok <==> Max(Abs(r1 - r0), Abs(c1 - c0)) == 1
  {
  }

  /** Bishops, rooks and queens move along their lines, and only when every cell
      passed over is empty. */
  lemma SliderRule(b: Board, turn: string, r0: nat, c0: nat, r1: nat, c1: nat)
    requires WellShaped(b) && OnBoard(r0, c0) && OnBoard(r1, c1)
    requires Kind(b[r0][c0]) in "BRQ" && Preliminary(b, turn, r0, c0, r1, c1)
    ensures Judge(b, turn, r0, c0, r1, c1).ok <==>
              (Kind(b[r0][c0]) == 'B' ==> Abs(r1 - r0) == Abs(c1 - c0))
              && (Kind(b[r0][c0]) == 'R' ==> r0 == r1 || c0 == c1)
              && Line(r0, c0, r1, c1)
              && !(r0 == r1 && c0 == c1)
              && forall k: nat :: 1 <= k < Dist(r0, c0, r1, c1) ==>
                   OnBoard(Toward(r0, r1, k), Toward(c0, c1, k))
                   && b[Toward(r0, r1, k)][Toward(c0, c1, k)] == '.'
  {
    if Line(r0, c0, r1, c1) {
      PathStaysOnBoard(r0, c0, r1, c1);
    }
  }

  /** Pawns go one cell forward onto an empty cell, two from their start row
      over an empty cell, or one cell diagonally forward onto an enemy piece. */
  lemma PawnRule(b: Board, turn: string, r0: nat, c0: nat, r1: nat, c1: nat)
    requires WellShaped(b) && OnBoard(r0, c0) && OnBoard(r1, c1)
    requires Kind(b[r0][c0]) == 'P' && Preliminary(b, turn, r0, c0, r1, c1)
    ensures var white := IsUpperLetter(b[r0][c0]);
            var dir := if white then -1 else 1;
            Judge(b, turn, r0, c0, r1, c1).ok <==>
              (c1 == c0 && b[r1][c1] == '.' && r1 - r0 == dir)
              || (c1 == c0 && b[r1][c1] == '.' && r1 - r0 == 2 * dir && r0 == (if white then 6 else 1)
                  && b[r0 + dir][c0] == '.')
              || (Abs(c1 - c0) == 1 && r1 - r0 == dir && b[r1][c1] != '.')
  {
  }

  /** e2-e4 is played for white from the start position. */
  lemma OpeningPawnDoubleStep()
    ensures Attempt(StartPosition(), "w", "e2", "e4").ok
  {
    assert ParseSquare("e2") == Some((6, 4)) by { SquareRoundTrip(6, 4); assert IdxToSq(6, 4) == "e2"; }
    assert ParseSquare("e4") == Some((4, 4)) by { SquareRoundTrip(4, 4); assert IdxToSq(4, 4) == "e4"; }
    assert Legal(StartPosition(), 6, 4, 4, 4);
  }

  /** g1-f3 is played for white: a knight jumps over the pawns. */
  lemma OpeningKnightJump()
    ensures Attempt(StartPosition(), "w", "g1", "f3").ok
  {
    assert ParseSquare("g1") == Some((7, 6)) by { SquareRoundTrip(7, 6); assert IdxToSq(7, 6) == "g1"; }
    assert ParseSquare("f3") == Some((5, 5)) by { SquareRoundTrip(5, 5); assert IdxToSq(5, 5) == "f3"; }
    assert Legal(StartPosition(), 7, 6, 5, 5);
  }

  /** f1-c4 is refused: the pawn on e2 stands in the bishop's way. */
  lemma OpeningBishopBlocked()
    ensures Attempt(StartPosition(), "w", "f1", "c4").msg == "Coup illégal."
  {
    assert ParseSquare("f1") == Some((7, 5)) by { SquareRoundTrip(7, 5); assert IdxToSq(7, 5) == "f1"; }
    assert ParseSquare("c4") == Some((4, 2)) by { SquareRoundTrip(4, 2); assert IdxToSq(4, 2) == "c4"; }
    PathStaysOnBoard(7, 5, 4, 2);
    assert Toward(7, 4, 1) == 6 && Toward(5, 2, 1) == 4;
    assert !PathClearSpec(StartPosition(), 7, 5, 4, 2);
  }

  /** e7-e5 is refused while it is white's turn. */
  lemma OpeningWrongSide()
    ensures Attempt(StartPosition(), "w", "e7", "e5").msg == "C’est aux blancs."
  {
    assert ParseSquare("e7") == Some((1, 4)) by { SquareRoundTrip(1, 4); assert IdxToSq(1, 4) == "e7"; }
    assert ParseSquare("e5") == Some((3, 4)) by { SquareRoundTrip(3, 4); assert IdxToSq(3, 4) == "e5"; }
  }

  /** e3-e4 is refused: there is no piece on e3. */
  lemma OpeningEmptySource()
    ensures Attempt(StartPosition(), "w", "e3", "e4").msg == "Case source vide."
  {
    assert ParseSquare("e3") == Some((5, 4)) by { SquareRoundTrip(5, 4); assert IdxToSq(5, 4) == "e3"; }
    assert ParseSquare("e4") == Some((4, 4)) by { SquareRoundTrip(4, 4); assert IdxToSq(4, 4) == "e4"; }
  }

  /** a1-a2 is refused: a white pawn stands on a2. */
  lemma OpeningAllyTarget()
    ensures Attempt(StartPosition(), "w", "a1", "a2").msg == "Case occupée par une pièce alliée."
  {
    assert ParseSquare("a1") == Some((7, 0)) by { SquareRoundTrip(7, 0); assert IdxToSq(7, 0) == "a1"; }
    assert ParseSquare("a2") == Some((6, 0)) by { SquareRoundTrip(6, 0); assert IdxToSq(6, 0) == "a2"; }
  }

  // ---- The move check on the board array ----

  /** The contents of the board array as a value. */
  ghost function Cells(board: array2<char>): (b: Board)
    requires board.Length0 == 8 && board.Length1 == 8
    reads board
    ensures WellShaped(b)
    ensures forall i, j :: 0 <= i < 8 && 0 <= j < 8 ==> b[i][j] == board[i, j]
  {
    seq(8, i requires 0 <= i < 8 reads board => seq(8, j requires 0 <= j < 8 reads board => board[i, j]))
  }

  lemma CellsAre(board: array2<char>, b: Board)
    requires board.Length0 == 8 && board.Length1 == 8 && WellShaped(b)
    requires forall i, j :: 0 <= i < 8 && 0 <= j < 8 ==> board[i, j] == b[i][j]
    ensures Cells(board) == b
  {
    var cs := Cells(board);
    forall i | 0 <= i < 8 ensures cs[i] == b[i] {
      assert forall j :: 0 <= j < 8 ==> cs[i][j] == b[i][j];
    }
  }

  /** The path_clear walk from (r0, c0) towards (r1, c1). */
  method PathClear(board: array2<char>, r0: int, c0: int, r1: int, c1: int) returns (clear: bool)
    requires board.Length0 == 8 && board.Length1 == 8
    requires OnBoard(r0, c0) && OnBoard(r1, c1) && Line(r0, c0, r1, c1)
    ensures clear == PathClearSpec(Cells(board), r0, c0, r1, c1)
  {
    if r1 - r0 == 0 && c1 - c0 == 0 {
      return false;
    }
    var stepr := if r1 - r0 == 0 then 0 else if r1 - r0 > 0 then 1 else -1;
    var stepc := if c1 - c0 == 0 then 0 else if c1 - c0 > 0 then 1 else -1;
    PathStaysOnBoard(r0, c0, r1, c1);
    ghost var n := Dist(r0, c0, r1, c1);
    ghost var k: nat := 1;
    var r, c := r0 + stepr, c0 + stepc;
    while (r, c) != (r1, c1)
      invariant 1 <= k <= n
      invariant r == Toward(r0, r1, k) && c == Toward(c0, c1, k)
      invariant forall j: nat :: 1 <= j < k ==> board[Toward(r0, r1, j), Toward(c0, c1, j)] == '.'
      decreases n - k
    {
      if board[r, c] != '.' {
        return false;
      }
      r, c := r + stepr, c + stepc;
      k := k + 1;
    }
    return true;
  }

  /** The movement rules of _chess_try_move for the piece on (r0, c0). */
  method CheckRule(board: array2<char>, r0: nat, c0: nat, r1: nat, c1: nat) returns (legal: bool)
    requires board.Length0 == 8 && board.Length1 == 8 && OnBoard(r0, c0) && OnBoard(r1, c1)
    ensures legal == Legal(Cells(board), r0, c0, r1, c1)
  {
    var dr, dc := r1 - r0, c1 - c0;
    var absdr, absdc := Abs(dr), Abs(dc);
    var name := Kind(board[r0, c0]);
    legal := false;
    if name == 'P' {
      var dir := if IsUpperLetter(board[r0, c0]) then -1 else 1;
      var startRow := if IsUpperLetter(board[r0, c0]) then 6 else 1;
      if dc == 0 && board[r1, c1] == '.' {
        if dr == dir {
          legal := true;
        } else if dr == 2 * dir && r0 == startRow && board[r0 + dir, c0] == '.' && board[r1, c1] == '.' {
          legal := true;
        }
      } else if absdc == 1 && dr == dir && board[r1, c1] != '.' && IsUpperLetter(board[r1, c1]) != IsUpperLetter(board[r0, c0]) {
        legal := true;
      }
    } else if name == 'N' {
      legal := (absdr == 1 && absdc == 2) || (absdr == 2 && absdc == 1);
    } else if name == 'B' {
      if absdr == absdc {
        legal := PathClear(board, r0, c0, r1, c1);
      }
    } else if name == 'R' {
      if dr == 0 || dc == 0 {
        legal := PathClear(board, r0, c0, r1, c1);
      }
    } else if name == 'Q' {
      if (dr == 0 || dc == 0) || absdr == absdc {
        legal := PathClear(board, r0, c0, r1, c1);
      }
    } else if name == 'K' {
      legal := Max(absdr, absdc) == 1;
    }
  }

  /** _chess_try_move: checks the move in order and plays it when legal. */
  method TryMove(board: array2<char>, turn: string, src: string, dst: string) returns (ok: bool, msg: string)
    requires board.Length0 == 8 && board.Length1 == 8
    modifies board
    ensures var m := Attempt(old(Cells(board)), turn, src, dst);
            ok == m.ok && msg == m.msg && Cells(board) == m.board
  {
    ghost var b := Cells(board);
    var p0 := ParseSquare(src);
    var p1 := ParseSquare(dst);
    if p0.None? || p1.None? {
      return false, "Coordonnées invalides.";
    }
    var r0, c0 := p0.value.0, p0.value.1;
    var r1, c1 := p1.value.0, p1.value.1;
    var pc := board[r0, c0];
    if pc == '.' {
      return false, "Case source vide.";
    }
    if turn == "w" && !IsUpperLetter(pc) {
      return false, "C’est aux blancs.";
    }
    if turn == "b" && !IsLowerLetter(pc) {
      return false, "C’est aux noirs.";
    }
    var target := board[r1, c1];
    if target != '.' && IsUpperLetter(target) == IsUpperLetter(pc) {
      return false, "Case occupée par une pièce alliée.";
    }
    var legal := CheckRule(board, r0, c0, r1, c1);
    if !legal {
      return false, "Coup illégal.";
    }
    board[r1, c1] := pc;
    board[r0, c0] := '.';
    CellsAre(board, Apply(b, r0, c0, r1, c1));
    return true, "ok";
  }
}
