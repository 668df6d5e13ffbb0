/** The two-player tic-tac-toe game ("morpion", freeos.py:1055-1107): the
    winner rule over the eight lines and the move handler that fills the nine
    cells in place. */
module Morpion {
  import opened Text

  /** The cells of the eight lines, rows first, then columns, then diagonals. */
  function LineCells(j: nat): (l: (nat, nat, nat))
    requires j < 8
    ensures l.0 < 9 && l.1 < 9 && l.2 < 9
    ensures l.0 != l.1 && l.1 != l.2 && l.0 != l.2
  {
    match j
    case 0 => (0, 1, 2) case 1 => (3, 4, 5) case 2 => (6, 7, 8)
    case 3 => (0, 3, 6) case 4 => (1, 4, 7) case 5 => (2, 5, 8)
    case 6 => (0, 4, 8) case _ => (2, 4, 6)
  }

  /** Line j holds three equal marks. */
  predicate Complete(bd: seq<char>, j: nat)
    requires |bd| == 9 && j < 8
  {
    var l := LineCells(j);
    bd[l.0] != ' ' && bd[l.0] == bd[l.1] && bd[l.1] == bd[l.2]
  }

  predicate Full(bd: seq<char>)
  {
    forall k :: 0 <= k < |bd| ==> bd[k] != ' '
  }

  /** What winner() answers: the mark of a completed line, "egal", or None. */
  datatype Verdict = Won(mark: char) | Draw | Open

  /** The mark of the first completed line among lines j..7. */
  function FirstWin(bd: seq<char>, j: nat): (w: Option<char>)
    requires |bd| == 9 && j <= 8
    ensures w.Some? <==> exists i :: j <= i < 8 && Complete(bd, i)
    ensures w.Some? ==> exists i :: j <= i < 8 && Complete(bd, i) && w.value == bd[LineCells(i).0]
                                    && forall h :: j <= h < i ==> !Complete(bd, h)
    decreases 8 - j
  {
    if j == 8 then None
    else if Complete(bd, j) then Some(bd[LineCells(j).0])
    else FirstWin(bd, j + 1)
  }

  /** winner(bd): the first completed line in order decides; otherwise a full
      board is a draw. */
  function Winner(bd: seq<char>): (v: Verdict)
    requires |bd| == 9
    ensures v.Won? <==> exists i :: 0 <= i < 8 && Complete(bd, i)
    ensures v.Won? ==> v.mark != ' ' && exists i :: 0 <= i < 8 && Complete(bd, i) && v.mark == bd[LineCells(i).0]
    ensures v == Draw <==> (forall i :: 0 <= i < 8 ==> !Complete(bd, i)) && Full(bd)
  {
    match FirstWin(bd, 0)
    case Some(m) => Won(m)
    case None => if Full(bd) then Draw else Open
  }

  /** A line completed by a move is completed with the mark just played: if no
      line was complete before a mark went into the empty cell k, any winner
      afterwards is that mark. */
  lemma NewWinIsMover(bd: seq<char>, k: nat, m: char)
    requires |bd| == 9 && k < 9 && bd[k] == ' '
    requires !Winner(bd).Won?
    ensures Winner(bd[k := m]).Won? ==> Winner(bd[k := m]).mark == m
  {
    var nb := bd[k := m];
    if Winner(nb).Won? {
      var i :| 0 <= i < 8 && Complete(nb, i) && Winner(nb).mark == nb[LineCells(i).0];
      assert !Complete(bd, i);
      var l := LineCells(i);
      assert l.0 == k || l.1 == k || l.2 == k;
    }
  }

  /** Where cell k appears in the board label. */
  function CellPos(k: nat): nat
    requires k < 9
  {
    match k
    case 0 => 1 case 1 => 5 case 2 => 9
    case 3 => 24 case 4 => 28 case 5 => 32
    case 6 => 47 case 7 => 51 case _ => 55
  }

  /** The board label, three rows of " a | b | c" with "---+---+---" between. */
  function Render(bd: seq<char>): (s: string)
    requires |bd| == 9
    ensures |s| == 57
    ensures forall k :: 0 <= k < 9 ==> CellPos(k) < |s| && s[CellPos(k)] == bd[k]
  {
    var row := (a: char, b: char, c: char) => [' ', a, ' ', '|', ' ', b, ' ', '|', ' ', c, '\n'];
    var rule := "---+---+---\n";
    var s := row(bd[0], bd[1], bd[2]) + rule + row(bd[3], bd[4], bd[5]) + rule + row(bd[6], bd[7], bd[8]);
    assert |row(bd[0], bd[1], bd[2])| == 11;
    s
  }

  /** Two boards with the same label are the same board. */
  lemma RenderInjective(a: seq<char>, b: seq<char>)
    requires |a| == 9 && |b| == 9 && Render(a) == Render(b)
    ensures a == b
  {
    forall k | 0 <= k < 9 ensures a[k] == b[k] {
      assert Render(a)[CellPos(k)] == a[k];
    }
  }

  function TurnLine(p: char): string
  {
    "Au tour de " + [p] + ". Entrez 1..9."
  }

  const TypeCellLine := "Entrez 1..9."
  const TakenLine := "Case déjà prise."
  const DrawNotice := "Égalité."

  function WinNotice(w: char): string
  {
    "Victoire de " + [w] + "."
  }

  function Other(p: char): char
  {
    if p == 'X' then 'O' else 'X'
  }

  /** The cell a stripped entry names: exactly one of "1".."9". */
  function CellOf(v: string): (k: Option<nat>)
    ensures k.Some? <==> |v| == 1 && '1' <= v[0] <= '9'
    ensures k.Some? ==> k.value < 9 && IntToStr(k.value + 1) == v
  {
    if |v| == 1 && '1' <= v[0] <= '9' then
      var k := v[0] as int - '1' as int;
      assert IntToStr(k + 1) == [DigitChar(k + 1)];
      Some(k as nat)
    else None
  }

  /** The state of one game window: cells, side to move, the info line, the
      board label and the message boxes shown so far. */
  datatype Game = Game(board: seq<char>, player: char, info: string, shown: string, notices: seq<string>)

  predicate Marks(bd: seq<char>)
  {
    |bd| == 9 && forall k :: 0 <= k < 9 ==> bd[k] == ' ' || bd[k] == 'X' || bd[k] == 'O'
  }

  predicate Sound(g: Game)
  {
    Marks(g.board) && (g.player == 'X' || g.player == 'O')
  }

  /** The window as it opens: an empty board with X to move. */
  function Start(): (g: Game)
    ensures Sound(g)
  {
    var bd := seq(9, _ => ' ');
    Game(bd, 'X', TurnLine('X'), Render(bd), [])
  }

  /** The mover's mark goes into the empty cell k; render() runs before the
      turn passes, so the info line names the mover. */
  function Place(g: Game, k: nat): (h: Game)
    requires |g.board| == 9 && k < 9
  {
    var bd := g.board[k := g.player];
    var shownNow := g.(board := bd, shown := Render(bd), info := TurnLine(g.player));
    match Winner(bd)
    case Draw => shownNow.(notices := g.notices + [DrawNotice])
    case Won(w) =>
      if w == 'X' || w == 'O' then shownNow.(notices := g.notices + [WinNotice(w)])
      else shownNow.(player := Other(g.player))
    case Open => shownNow.(player := Other(g.player))
  }

  /** play() on a game value. */
  function Play(g: Game, raw: string): (h: Game)
    requires |g.board| == 9
  {
    match CellOf(Strip(raw))
    case None => g.(info := TypeCellLine)
    case Some(k) => if g.board[k] != ' ' then g.(info := TakenLine) else Place(g, k)
  }

  /** Cells only ever hold ' ', 'X' or 'O', and the side to move is X or O. */
  lemma PlaceKeepsSound(g: Game, k: nat)
    requires Sound(g) && k < 9
    ensures Sound(Place(g, k))
  {
    var bd := g.board[k := g.player];
    forall i | 0 <= i < 9 ensures bd[i] == ' ' || bd[i] == 'X' || bd[i] == 'O' {
      if i != k {
        assert bd[i] == g.board[i];
      }
    }
    assert Marks(bd);
    var h := Place(g, k);
    assert h.board == bd && (h.player == g.player || h.player == Other(g.player));
  }

  lemma PlayKeepsSound(g: Game, raw: string)
    requires Sound(g)
    ensures Sound(Play(g, raw))
  {
    if CellOf(Strip(raw)).Some? {
      var k := CellOf(Strip(raw)).value;
      if g.board[k] == ' ' {
        PlaceKeepsSound(g, k);
      }
    }
  }

  /** An entry that is not one of "1".."9", or that names a taken cell, only
      changes the info line. */
  lemma PlayRefusals(g: Game, raw: string)
    requires |g.board| == 9
    ensures CellOf(Strip(raw)).None? ==> Play(g, raw) == g.(info := TypeCellLine)
    ensures CellOf(Strip(raw)).Some? && g.board[CellOf(Strip(raw)).value] != ' ' ==>
              Play(g, raw) == g.(info := TakenLine)
  {
  }

  /** An entry naming an empty cell places the mark there. */
  lemma PlayAccepted(g: Game, raw: string, k: nat)
    requires |g.board| == 9 && CellOf(Strip(raw)) == Some(k) && g.board[k] == ' '
    ensures Play(g, raw) == Place(g, k)
  {
  }

  /** A placed mark is the mover's and goes into the chosen cell, and nothing
      else on the board changes; the label shows the new board and the info
      line names the mover; the turn passes exactly when the game is still
      open, and a draw or a win adds its message box. */
  lemma PlaceOutcome(g: Game, k: nat)
    requires Sound(g) && k < 9
    ensures var h := Place(g, k);
            h.board == g.board[k := g.player]
            && h.shown == Render(h.board) && h.info == TurnLine(g.player)
            && (h.player != g.player <==> Winner(h.board) == Open)
            && (Winner(h.board) == Open ==> h.player == Other(g.player) && h.notices == g.notices)
            && (Winner(h.board) == Draw ==> h.notices == g.notices + [DrawNotice])
            && (Winner(h.board).Won? ==> h.notices == g.notices + [WinNotice(Winner(h.board).mark)])
  {
    var bd := g.board[k := g.player];
    var shownNow := g.(board := bd, shown := Render(bd), info := TurnLine(g.player));
    match Winner(bd)
    case Won(w) =>
      var i :| 0 <= i < 8 && Complete(bd, i) && w == bd[LineCells(i).0];
      assert w == 'X' || w == 'O' by {
        var c := LineCells(i).0;
        assert bd[c] == g.board[c] || bd[c] == g.player;
      }
      assert Place(g, k) == shownNow.(notices := g.notices + [WinNotice(w)]);
    case Draw =>
      assert Place(g, k) == shownNow.(notices := g.notices + [DrawNotice]);
    case Open =>
      assert Place(g, k) == shownNow.(player := Other(g.player));
  }

  /** The game window: the nine cells are a list the moves fill in place. */
  class Window {
    const board: array<char>
    var player: char
    var info: string
    var shown: string
    var notices: seq<string>

    ghost function State(): Game
      reads this, board
    {
      Game(board[..], player, info, shown, notices)
    }

    ghost predicate Valid()
      reads this, board
    {
      board.Length == 9 && Sound(State())
    }

    /** _game_morpion: an empty board, X to move, then render(). */
    constructor()
      ensures Valid() && State() == Start() && fresh(board)
    {
      board := new char[9](_ => ' ');
      player := 'X';
      info := "";
      shown := "";
      notices := [];
      new;
      assert board[..] == seq(9, _ => ' ');
      RenderBoard();
    }

    /** render(): the board label and the turn line. */
    method RenderBoard()
      requires board.Length == 9
      modifies this`shown, this`info
      ensures shown == Render(board[..]) && info == TurnLine(player)
    {
      shown := Render(board[..]);
      info := TurnLine(player);
    }

    /** The accepted branch of play(). */
    method PlaceMark(k: nat)
      requires board.Length == 9 && k < 9
      modifies this, board
      ensures State() == Place(old(State()), k)
    {
      board[k] := player;
      var w := Winner(board[..]);
      RenderBoard();
      match w
      case Draw => notices := notices + [DrawNotice];
      case Won(m) =>
        if m == 'X' || m == 'O' {
          notices := notices + [WinNotice(m)];
        } else {
          player := Other(player);
        }
      case Open => player := Other(player);
    }

    /** play(): reads the entry, fills the cell and looks for a winner. */
    method PlayEntry(raw: string)
      requires Valid()
      modifies this, board
      ensures Valid() && State() == Play(old(State()), raw)
    {
      var v := Strip(raw);
      var cell := CellOf(v);
      if cell.None? {
        info := TypeCellLine;
        return;
      }
      var k := cell.value;
      if board[k] != ' ' {
        info := TakenLine;
        return;
      }
      PlaceMark(k);
      PlaceKeepsSound(old(State()), k);
    }
  }
}
