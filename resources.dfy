/** The two run-time resources a countdown is tied to: the Tk window that shows
    it and the threading.Event used as its stop flag (freeos.py). */
module Resources {

  /** A Tk toplevel window; only whether it still exists is modelled. */
  class Window {
    var alive: bool

    constructor ()
      ensures alive
    {
      alive := true;
    }

    /** destroy(): the window is gone afterwards, also when it already was. */
    method Destroy()
      modifies this
      ensures !alive
    {
      alive := false;
    }
  }

  /** threading.Event used as a cancellation flag: created clear, it can be set
      (idempotently) and is never cleared again, since no method clears it. */
  class CancelToken {
    var isSet: bool

    constructor ()
      ensures !isSet
    {
      isSet := false;
    }

    method Set()
      modifies this
      ensures isSet
    {
      isSet := true;
    }
  }

  /** Setting a flag twice has the same effect as setting it once. */
  method SetTwice(t: CancelToken)
    modifies t
    ensures t.isSet
  {
    t.Set();
    t.Set();
  }
}
