/**
 * Supervision of the CAN controller: naming of controller states, the
 * polling thread's change detector, and the hand-off from the state-change
 * interrupt to the deferred handler that decides on bus-off recovery.
 */
module BusHealth {
  import opened ByteOrder

  /**
   * `enum can_state`. `Unknown` stands for every value other than the three
   * named ones (the driver's "unknown" state included).
   */
  datatype CanState = ErrorActive | ErrorPassive | BusOff | Unknown

  /** `struct can_bus_err_cnt`: the two 8-bit error counters. */
  datatype ErrCnt = ErrCnt(tx: byte, rx: byte)

  /** `state_to_str`: the label printed for a controller state. */
  function StateToStr(state: CanState): (r: string)
    ensures r == "error-active" <==> state == ErrorActive
    ensures r == "error-passive" <==> state == ErrorPassive
    ensures r == "bus-off" <==> state == BusOff
    ensures r == "unknown" <==> state == Unknown
  {
    match state
    case ErrorActive => "error-active"
    case ErrorPassive => "error-passive"
    case BusOff => "bus-off"
    case _ => "unknown"
  }

  /** No two states share a label. */
  lemma StateToStrInjective(s: CanState, t: CanState)
    requires StateToStr(s) == StateToStr(t)
    ensures s == t
  {
  }

  /** One reading of `can_get_state`: the state and both error counters. */
  datatype Sample = Sample(state: CanState, errCnt: ErrCnt)

  /** The poller's snapshot before its first reading. */
  const INITIAL_SNAPSHOT: Sample := Sample(ErrorActive, ErrCnt(0, 0))

  /**
   * The poller's comparison of a reading against its snapshot: the
   * transmit counter, the receive counter, then the state.
   */
  predicate Changed(cur: Sample, prev: Sample)
    ensures Changed(cur, prev) <==> cur != prev
  {
    cur.errCnt.tx != prev.errCnt.tx || cur.errCnt.rx != prev.errCnt.rx || prev.state != cur.state
  }

  /**
   * What one run of the poll loop reports, starting from snapshot `prev`:
   * every reading that differs from the reading before it.
   */
  function Reports(prev: Sample, samples: seq<Sample>): (r: seq<Sample>)
    ensures |r| <= |samples|
    decreases |samples|
  {
    if samples == [] then []
    else (if samples[0] != prev then [samples[0]] else []) + Reports(samples[0], samples[1..])
  }

  /**
   * `poll_state_thread`, run for as many iterations as there are readings
   * in `samples` (`can_get_state`'s results, in order). Returns what was
   * reported, how often the loop backed off, and the final snapshot.
   */
  method PollStateThread(samples: seq<Sample>) returns (reports: seq<Sample>, backoffs: nat, snapshot: Sample)
    ensures reports == Reports(INITIAL_SNAPSHOT, samples)
    ensures |reports| + backoffs == |samples|
    ensures snapshot == if samples == [] then INITIAL_SNAPSHOT else samples[|samples| - 1]
  {
    var errCntPrev := ErrCnt(0, 0);
    var statePrev := ErrorActive;
    reports, backoffs := [], 0;
    for i := 0 to |samples|
      invariant reports + Reports(Sample(statePrev, errCntPrev), samples[i..]) == Reports(INITIAL_SNAPSHOT, samples)
      invariant |reports| + backoffs == i
      invariant Sample(statePrev, errCntPrev) == if i == 0 then INITIAL_SNAPSHOT else samples[i - 1]
    {
      assert samples[i..][1..] == samples[i + 1..];
      var state := samples[i].state;
      var errCnt := samples[i].errCnt;
      if Changed(Sample(state, errCnt), Sample(statePrev, errCntPrev)) {
        errCntPrev := ErrCnt(errCnt.tx, errCnt.rx);
        statePrev := state;
        reports := reports + [Sample(state, errCnt)];
      } else {
        backoffs := backoffs + 1;
      }
    }
    snapshot := Sample(statePrev, errCntPrev);
  }

  /** The poller never reports the same reading twice in a row, nor its starting snapshot first. */
  lemma {:induction false} ReportsChangeEveryTime(prev: Sample, samples: seq<Sample>)
    ensures Reports(prev, samples) != [] ==> Reports(prev, samples)[0] != prev
    ensures forall k :: 0 <= k < |Reports(prev, samples)| - 1 ==>
      Reports(prev, samples)[k] != Reports(prev, samples)[k + 1]
    decreases |samples|
  {
    if samples != [] {
      ReportsChangeEveryTime(samples[0], samples[1..]);
    }
  }

  /**
   * The poller's report stream is never stale: its last entry is the
   * latest reading, and when it reported nothing every reading equalled the
   * starting snapshot.
   */
  lemma {:induction false} ReportsEndAtLatest(prev: Sample, samples: seq<Sample>)
    requires samples != []
    ensures Reports(prev, samples) != [] ==>
      Reports(prev, samples)[|Reports(prev, samples)| - 1] == samples[|samples| - 1]
    ensures Reports(prev, samples) == [] ==> forall k :: 0 <= k < |samples| ==> samples[k] == prev
    decreases |samples|
  {
    if |samples| > 1 {
      ReportsEndAtLatest(samples[0], samples[1..]);
    }
  }

  /** Every reported reading is one of the readings taken. */
  lemma {:induction false} ReportsAreReadings(prev: Sample, samples: seq<Sample>)
    ensures forall x :: x in Reports(prev, samples) ==> x in samples
    decreases |samples|
  {
    if samples != [] {
      ReportsAreReadings(samples[0], samples[1..]);
    }
  }

  /**
   * The pair of globals `current_state` / `current_err_cnt` written by the
   * state-change interrupt and read by the deferred work handler.
   */
  class StateChangeMonitor {
    var currentState: CanState
    var currentErrCnt: ErrCnt

    /** Zero-initialised globals: the first enumerator and zero counters. */
    constructor ()
      ensures currentState == ErrorActive && currentErrCnt == ErrCnt(0, 0)
    {
      currentState := ErrorActive;
      currentErrCnt := ErrCnt(0, 0);
    }

    /** `state_change_isr`: records the new state and counters together. */
    method StateChangeIsr(state: CanState, errCnt: ErrCnt)
      modifies this
      ensures currentState == state && currentErrCnt == errCnt
    {
      currentState := state;
      currentErrCnt := errCnt;
    }

    /**
     * `state_change_work_handler`: without automatic bus-off recovery,
     * requests recovery exactly once when the recorded state is bus-off and
     * never otherwise. `recoverResult` is the driver's answer to that
     * request; a non-zero answer is reported as a time-out and not retried.
     */
    method StateChangeWorkHandler(autoRecovery: bool, recoverResult: int) returns (attempts: nat, timedOut: bool)
      ensures attempts == (if !autoRecovery && currentState == BusOff then 1 else 0)
      ensures timedOut <==> attempts == 1 && recoverResult != 0
    {
      attempts, timedOut := 0, false;
      if !autoRecovery {
        if currentState == BusOff {
          attempts := attempts + 1;
          if recoverResult != 0 {
            timedOut := true;
          }
        }
      }
    }
  }

  /**
   * Two notifications before the handler runs: the handler acts on the
   * second, whatever the first was.
   */
  method LastNotificationWins(m: StateChangeMonitor, s1: CanState, e1: ErrCnt, s2: CanState, e2: ErrCnt,
                              autoRecovery: bool, recoverResult: int)
    returns (attempts: nat)
    modifies m
    ensures m.currentState == s2 && m.currentErrCnt == e2
    ensures attempts == (if !autoRecovery && s2 == BusOff then 1 else 0)
  {
    m.StateChangeIsr(s1, e1);
    m.StateChangeIsr(s2, e2);
    var timedOut;
    attempts, timedOut := m.StateChangeWorkHandler(autoRecovery, recoverResult);
  }
}
