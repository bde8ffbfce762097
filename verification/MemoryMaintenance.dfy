/** Scheduling of memory maintenance: one worker per runtime, requests coalesced.

    The worker is an async function. A call runs it up to its first wait; what
    follows a maintenance run is `RunEnded`, and the `finally` callback, which runs
    later, is `Settled`. Other calls may come between any two of these. */
module MemoryMaintenance {
  import opened Prelude

  datatype Worker = Absent | Running | LoopLeft

  /** What is observable from outside, in order. */
  datatype Happening = Called | RunStarted | RunFinished

  datatype State = State(requested: bool, inFlight: bool, worker: Worker, log: seq<Happening>)

  const FRESH := State(false, false, Absent, [])

  datatype Op = Call | RunEnds | FinallyRuns

  function StartRun(s: State): State {
    s.(requested := false, worker := Running, log := s.log + [RunStarted])
  }

  function Next(s: State, op: Op): State {
    match op
    case Call =>
      var t := s.(requested := true, log := s.log + [Called]);
      if s.inFlight then t else StartRun(t).(inFlight := true)
    case RunEnds =>
      if s.worker != Running then s
      else
        var t := s.(log := s.log + [RunFinished]);
        if s.requested then StartRun(t) else t.(worker := LoopLeft)
    case FinallyRuns =>
      if s.worker != LoopLeft then s
      else
        var t := s.(inFlight := false, worker := Absent);
        if s.requested then StartRun(t).(inFlight := true) else t
  }

  function Replay(ops: seq<Op>): State {
    if ops == [] then FRESH else Next(Replay(Init(ops)), Last(ops))
  }

  class ProjectRuntime {
    const hasMemoryService: bool
    var requested: bool
    var inFlight: bool
    var worker: Worker
    ghost var log: seq<Happening>

    ghost function View(): State
      reads this
    {
      State(requested, inFlight, worker, log)
    }

    constructor (hasMemoryService: bool)
      ensures View() == FRESH && this.hasMemoryService == hasMemoryService
    {
      this.hasMemoryService := hasMemoryService;
      requested, inFlight, worker, log := false, false, Absent, [];
    }

    method ScheduleMemoryMaintenance()
      modifies this
      ensures View() == if hasMemoryService then Next(old(View()), Call) else old(View())
    {
      if !hasMemoryService {
        return;
      }
      log := log + [Called];
      RequestRun();
    }

    method RequestRun()
      requires hasMemoryService
      modifies this
      ensures
        var t := old(View()).(requested := true);
        View() == if t.inFlight then t else StartRun(t).(inFlight := true)
    {
      requested := true;
      if inFlight {
        return;
      }
      EnterLoop();
      inFlight := true;
    }

    /** The test of the worker's loop, and the start of a run if it passes. */
    method EnterLoop()
      modifies this
      ensures View() == if old(requested) then StartRun(old(View())) else old(View()).(worker := LoopLeft)
    {
      if requested {
        requested := false;
        worker := Running;
        log := log + [RunStarted];
      } else {
        worker := LoopLeft;
      }
    }

    /** A maintenance run has finished or failed; the loop goes round. */
    method RunEnded()
      requires worker == Running
      modifies this
      ensures View() == Next(old(View()), RunEnds)
    {
      log := log + [RunFinished];
      EnterLoop();
    }

    method Settled()
      requires worker == LoopLeft && hasMemoryService
      modifies this
      ensures View() == Next(old(View()), FinallyRuns)
    {
      inFlight := false;
      worker := Absent;
      if requested {
        RequestRun();
      }
    }
  }

  // Over every interleaving -----------------------------------------------------------

  function Count(log: seq<Happening>, h: Happening): nat {
    if log == [] then 0 else Count(Init(log), h) + (if Last(log) == h then 1 else 0)
  }

  lemma {:induction false} CountOneMore(log: seq<Happening>, h: Happening, k: Happening)
    ensures Count(log + [h], k) == Count(log, k) + (if h == k then 1 else 0)
  {
    assert Init(log + [h]) == log;
  }

  ghost predicate Served(log: seq<Happening>, requested: bool) {
    forall i :: 0 <= i < |log| && log[i] == Called ==> requested || exists j :: i < j < |log| && log[j] == RunStarted
  }

  ghost predicate Consistent(s: State) {
    && (s.inFlight <==> s.worker != Absent)
    && (s.requested ==> s.inFlight)
    && Count(s.log, RunStarted) == Count(s.log, RunFinished) + (if s.worker == Running then 1 else 0)
    && Count(s.log, RunStarted) + (if s.requested then 1 else 0) <= Count(s.log, Called)
    && Served(s.log, s.requested)
  }

  lemma {:induction false} Logged(log: seq<Happening>, h: Happening)
    ensures forall k: Happening :: Count(log + [h], k) == Count(log, k) + (if h == k then 1 else 0)
    ensures h == RunStarted ==> Served(log + [h], false)
    ensures forall requested: bool :: h == RunFinished && Served(log, requested) ==> Served(log + [h], requested)
  {
    forall k: Happening ensures Count(log + [h], k) == Count(log, k) + (if h == k then 1 else 0) {
      CountOneMore(log, h, k);
    }
    if h == RunStarted {
      var all := log + [h];
      forall i | 0 <= i < |all| && all[i] == Called ensures exists j :: i < j < |all| && all[j] == RunStarted {
        assert i < |log| < |all| && all[|log|] == RunStarted;
      }
    }
    forall requested: bool | h == RunFinished && Served(log, requested) ensures Served(log + [h], requested) {
      var all := log + [h];
      forall i | 0 <= i < |all| && all[i] == Called
        ensures requested || exists j :: i < j < |all| && all[j] == RunStarted
      {
        assert log[i] == Called;
        if !requested {
          var j :| i < j < |log| && log[j] == RunStarted;
          assert all[j] == RunStarted;
        }
      }
    }
  }

  lemma {:induction false} StepKeepsConsistent(s: State, op: Op)
    requires Consistent(s)
    ensures Consistent(Next(s, op))
  {
    match op
    case Call =>
      Logged(s.log, Called);
      Logged(s.log + [Called], RunStarted);
    case RunEnds =>
      Logged(s.log, RunFinished);
      Logged(s.log + [RunFinished], RunStarted);
    case FinallyRuns =>
      Logged(s.log, RunStarted);
  }

  lemma {:induction false} AlwaysConsistent(ops: seq<Op>)
    ensures Consistent(Replay(ops))
  {
    if ops != [] {
      AlwaysConsistent(Init(ops));
      StepKeepsConsistent(Replay(Init(ops)), Last(ops));
    }
  }

  /** At most one maintenance run is active, runs never outnumber calls, and a
      cleared in-flight marker means that every call so far was followed by a run. */
  lemma {:induction false} RunsServeCalls(ops: seq<Op>)
    ensures
      var s := Replay(ops);
      && Count(s.log, RunFinished) <= Count(s.log, RunStarted) <= Count(s.log, RunFinished) + 1
      && Count(s.log, RunStarted) <= Count(s.log, Called)
      && (!s.inFlight ==> !s.requested && Served(s.log, false))
  {
    AlwaysConsistent(ops);
  }

  function WorkerStep(s: State): Op {
    if s.worker == Running then RunEnds else FinallyRuns
  }

  /** No call is lost: as long as a call has not been followed by a run, the worker
      is there and its very next step starts one, even in the window between the
      loop's last test and the `finally` callback. */
  lemma {:induction false} NextWorkerStepServes(ops: seq<Op>, i: nat)
    requires
      var log := Replay(ops).log;
      i < |log| && log[i] == Called && !exists j :: i < j < |log| && log[j] == RunStarted
    ensures
      var s := Replay(ops);
      var next := Replay(ops + [WorkerStep(s)]);
      s.worker != Absent && s.log < next.log && Last(next.log) == RunStarted
  {
    AlwaysConsistent(ops);
    assert Init(ops + [WorkerStep(Replay(ops))]) == ops;
    assert Replay(ops).requested;
  }
}
