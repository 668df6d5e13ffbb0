/** The countdown ("minuteur") started by cmd_minuteur: its remaining seconds,
    the label text, the per-second `countdown` callback and the entry into the
    alarm (freeos.py:1340-1376). */
module Timers {
  import opened Clock
  import opened Resources

  /** The state one run of `countdown` depends on and changes: the remaining
      seconds, whether a further run is scheduled (root.after), and whether the
      alarm loop has been entered. */
  datatype TickState = TickState(total: int, due: bool, alarming: bool)

  /** One run of the `countdown` callback. A set stop flag ends the chain of
      runs and changes nothing else; otherwise a positive total goes down by one
      and the next run is scheduled; a total of zero or less enters the alarm
      and schedules nothing. The window is not consulted. */
  function TickStep(s: TickState, stopped: bool): (r: TickState)
    ensures stopped ==> r.total == s.total && r.alarming == s.alarming && !r.due
    ensures !stopped && s.total > 0 ==> r.total == s.total - 1 && r.due && r.alarming == s.alarming
    ensures !stopped && s.total <= 0 ==> r.total == s.total && !r.due && r.alarming
    ensures s.total >= 0 ==> r.total >= 0
  {
    if stopped then s.(due := false)
    else if s.total > 0 then TickState(s.total - 1, true, s.alarming)
    else s.(due := false, alarming := true)
  }

  /** What the scheduler does with up to n runs: it stops calling once no run is due. */
  function Run(s: TickState, n: nat, stopped: bool): TickState
    decreases n
  {
    if n == 0 || !s.due then s else Run(TickStep(s, stopped), n - 1, stopped)
  }

  /** A countdown of t >= 0 seconds: after n calls of `countdown` (the first one is
      the direct call in cmd_minuteur), t - n seconds remain while n <= t, and
      from call t + 1 on the total stays at 0 and the alarm has been entered. */
  lemma {:induction false} CountdownRun(t: nat, n: nat)
    ensures Run(TickState(t, true, false), n, false)
            == if n <= t then TickState(t - n, true, false) else TickState(0, false, true)
  {
    if n > 0 {
      if t > 0 {
        CountdownRun(t - 1, n - 1);
      } else {
        assert Run(TickState(0, true, false), n, false) == Run(TickState(0, false, true), n - 1, false);
        if n > 1 {
          assert Run(TickState(0, false, true), n - 1, false) == TickState(0, false, true);
        }
      }
    }
  }

  /** Once the stop flag is set, the next call ends the chain: the total and the
      alarm are frozen, however many calls the scheduler is given. */
  lemma {:induction false} StoppedRunFreezes(s: TickState, n: nat)
    requires s.due && n > 0
    ensures Run(s, n, true) == s.(due := false)
  {
    assert Run(s, n, true) == Run(s.(due := false), n - 1, true);
    if n > 1 {
      assert Run(s.(due := false), n - 1, true) == s.(due := false);
    }
  }

  /** The remaining time never goes below zero from a non-negative start and
      never increases, whatever the flag. */
  lemma {:induction false} RunBounds(s: TickState, n: nat, stopped: bool)
    decreases n
    ensures Run(s, n, stopped).total <= s.total
    ensures s.total >= 0 ==> Run(s, n, stopped).total >= 0
  {
    if n > 0 && s.due {
      RunBounds(TickStep(s, stopped), n - 1, stopped);
    }
  }

  /** The tracker object cmd_minuteur appends to active_countdowns, together with
      the state its `countdown` closure keeps: `total`, the label's StringVar,
      and whether a next run is scheduled or the alarm entered. */
  class Countdown {
    const token: CancelToken
    const win: Window
    var total: int
    var display: string
    var due: bool
    var alarming: bool

    /** The label always shows the remaining time. */
    ghost predicate Valid()
      reads this
    {
      display == FmtHhmmss(total)
    }

    function State(): TickState
      reads this
    {
      TickState(total, due, alarming)
    }

    /** A countdown of t seconds whose first `countdown` call is due. */
    constructor (t: int, token: CancelToken, win: Window)
      ensures Valid() && State() == TickState(t, true, false)
      ensures this.token == token && this.win == win
    {
      this.token := token;
      this.win := win;
      total := t;
      display := FmtHhmmss(t);
      due := true;
      alarming := false;
    }

    /** `countdown`: guarded only by the stop flag. */
    method Tick()
      requires Valid()
      modifies this
      ensures Valid()
      ensures State() == TickStep(old(State()), token.isSet)
    {
      if token.isSet {
        due := false;
        return;
      }
      if total > 0 {
        total := total - 1;
        display := FmtHhmmss(total);
        due := true;
      } else {
        due := false;
        alarming := true;
      }
    }

    /** A click on the label sets the stop flag. */
    method ClickLabel()
      modifies token
      ensures token.isSet
    {
      token.Set();
    }

    /** The alarm loop keeps cueing after it was entered until it sees the stop
        flag set or the label (inside the window) gone. */
    predicate Ringing()
      reads this, token, win
    {
      alarming && !token.isSet && win.alive
    }
  }
}
