/**
 * The control state shared by the output loop and the console. In the
 * program every accessor takes one re-entrant lock; here each accessor
 * is one atomic step, and the interleaving of the two threads is the
 * order in which their steps are called.
 *
 * The property getters are the fields themselves. The program's
 * `voltage_limit` and `skipped_row` getters read attributes that do not
 * exist; the fields here are what those getters evidently mean to
 * return.
 */
module AppState {
  import opened Wrappers

  class ControlState {
    var paused: bool
    var interval: real
    /** Fixed when the state is built: the program gives it no setter. */
    const voltageLimit: real
    var stop: bool
    var currentRow: int
    var taskActive: bool
    /** The pending jump target; `None` when there is none. */
    var skippedRow: Option<int>

    constructor (interval: real, voltageLimit: real)
      ensures this.interval == interval && this.voltageLimit == voltageLimit
      ensures !paused && !stop && !taskActive
      ensures currentRow == 0
      ensures skippedRow == Some(0)
    {
      this.paused := false;
      this.interval := interval;
      this.voltageLimit := voltageLimit;
      this.stop := false;
      this.currentRow := 0;
      this.taskActive := false;
      this.skippedRow := Some(0);
    }

    method SetPaused(value: bool)
      modifies this`paused
      ensures paused == value
    {
      paused := value;
    }

    method SetInterval(value: real)
      modifies this`interval
      ensures interval == value
    {
      interval := value;
    }

    method SetStop(value: bool)
      modifies this`stop
      ensures stop == value
    {
      stop := value;
    }

    method SetCurrentRow(value: int)
      modifies this`currentRow
      ensures currentRow == value
    {
      currentRow := value;
    }

    method SetTaskActive(value: bool)
      modifies this`taskActive
      ensures taskActive == value
    {
      taskActive := value;
    }

    method SetSkippedRow(value: Option<int>)
      modifies this`skippedRow
      ensures skippedRow == value
    {
      skippedRow := value;
    }
  }

  /** `with_lock(f)`: a wrapper that returns what `f` returns for the same argument. */
  function WithLock<A(!new), R>(f: A -> R): (g: A -> R)
    ensures forall a :: g(a) == f(a)
  {
    a => f(a)
  }
}
