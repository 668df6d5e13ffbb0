/** The command-history browse cursor of the console entry (freeos.py:340-359):
    `history_index` is None while not browsing, else an index into
    `cmd_history`. These functions say where the Up and Down keys move it and
    which line they put into the entry. */
module History {
  import opened Text

  predicate CursorOk(n: nat, i: Option<nat>)
  {
    i.None? || i.value < n
  }

  /** The new cursor, and the index of the line copied into the entry (None when
      the entry is left alone). */
  datatype Browse = Browse(cursor: Option<nat>, shown: Option<nat>)

  /** on_history_up, on a history of n lines. */
  function Up(n: nat, i: Option<nat>): (r: Browse)
    requires CursorOk(n, i)
    ensures CursorOk(n, r.cursor)
    ensures n == 0 <==> r.shown.None?
    ensures n == 0 ==> r.cursor == i
    ensures n > 0 ==> r.cursor == r.shown && r.cursor.Some?
  {
    if n == 0 then Browse(i, None)
    else
      var j := if i.None? then n - 1 else if i.value >= 1 then i.value - 1 else 0;
      Browse(Some(j), Some(j))
  }

  /** on_history_down, on a history of n lines: a no-op while not browsing; the
      call that reaches the last line also stops browsing. */
  function Down(n: nat, i: Option<nat>): (r: Browse)
    requires CursorOk(n, i)
    ensures CursorOk(n, r.cursor)
    ensures i.None? <==> r.shown.None?
    ensures i.None? ==> r.cursor.None?
    ensures r.cursor.Some? ==> r.cursor.value + 1 < n
    ensures r.shown.Some? ==> r.shown.value < n
  {
    if i.None? then Browse(None, None)
    else
      var j := if i.value + 1 <= n - 1 then i.value + 1 else n - 1;
      Browse(if j == n - 1 then None else Some(j), Some(j))
  }

  /** Up goes to the most recent line from "not browsing", otherwise one line
      back, and stays on the first line. */
  lemma UpMoves(n: nat, i: Option<nat>)
    requires n > 0 && CursorOk(n, i)
    ensures i.None? ==> Up(n, i).cursor == Some(n - 1)
    ensures i.Some? && i.value > 0 ==> Up(n, i).cursor == Some(i.value - 1)
    ensures i == Some(0) ==> Up(n, i).cursor == Some(0)
  {
  }

  /** Down from line i shows line min(n - 1, i + 1), and stops browsing exactly
      when that is the last line. */
  lemma DownMoves(n: nat, i: nat)
    requires i < n
    ensures Down(n, Some(i)).shown == Some(if i + 1 < n then i + 1 else n - 1)
    ensures Down(n, Some(i)).cursor.None? <==> i + 2 >= n
  {
  }

  /** k presses of Up. */
  function Ups(n: nat, i: Option<nat>, k: nat): (r: Option<nat>)
    requires CursorOk(n, i)
    ensures CursorOk(n, r)
    decreases k
  {
    if k == 0 then i else Ups(n, Up(n, i).cursor, k - 1)
  }

  /** From "not browsing", k >= 1 presses of Up land on line max(0, n - k). */
  lemma {:induction false} UpsFromTop(n: nat, k: nat)
    requires n > 0 && k > 0
    ensures Ups(n, None, k) == Some(if k <= n then n - k else 0)
  {
    if k > 1 {
      UpsFromLine(n, n - 1, k - 1);
    }
  }

  lemma {:induction false} UpsFromLine(n: nat, i: nat, k: nat)
    requires i < n
    ensures Ups(n, Some(i), k) == Some(if k <= i then i - k else 0)
  {
    if k > 0 {
      UpsFromLine(n, if i > 0 then i - 1 else 0, k - 1);
    }
  }

  /** With history [a, b, c]: Up shows c, b, a and then stays on a; Down from a
      shows b, then c and stops browsing, after which Down does nothing. */
  lemma ThreeLineScenario()
    ensures Up(3, None) == Browse(Some(2), Some(2))
    ensures Up(3, Some(2)) == Browse(Some(1), Some(1))
    ensures Up(3, Some(1)) == Browse(Some(0), Some(0))
    ensures Up(3, Some(0)) == Browse(Some(0), Some(0))
    ensures Down(3, Some(0)) == Browse(Some(1), Some(1))
    ensures Down(3, Some(1)) == Browse(None, Some(2))
    ensures Down(3, None) == Browse(None, None)
  {
  }
}
