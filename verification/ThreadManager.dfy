/** The shared objects of a benchmark run, as classes whose methods are the critical
    sections of mutex.h, thread_manager.h and RunInThread. Each method is proved against
    the function on values that the interleaved protocol (ThreadProtocol.dfy) steps with. */
module ThreadManager {
  import opened Basics
  import opened Counters

  /** The fields of `Barrier` that `lock_` protects. */
  datatype BarrierData = BarrierData(running: int, phase: nat, entered: int)
  {
    /** `entered_++` */
    function Enter(): BarrierData {
      this.(entered := entered + 1)
    }

    /** The condition-variable predicate of a thread that entered in phase cp. */
    predicate Open(cp: nat) {
      phase > cp || entered == running
    }

    /** `phase_number_++; entered_ = 0` */
    function Advance(): BarrierData {
      this.(phase := phase + 1, entered := 0)
    }

    /** `--running_threads_` */
    function Leave(): BarrierData {
      this.(running := running - 1)
    }
  }

  class Barrier {
    var runningThreads: int
    var phaseNumber: nat
    var entered: int

    function Data(): BarrierData
      reads this
    {
      BarrierData(runningThreads, phaseNumber, entered)
    }

    constructor (numThreads: int)
      ensures Data() == BarrierData(numThreads, 0, 0)
    {
      runningThreads, phaseNumber, entered := numThreads, 0, 0;
    }

    /** The first half of `createBarrier`, up to the wait. */
    method EnterPhase() returns (last: bool, cp: nat)
      requires entered < runningThreads
      modifies this
      ensures Data() == old(Data()).Enter()
      ensures last <==> !(Data().entered < Data().running)
      ensures cp == Data().phase
    {
      entered := entered + 1;
      last, cp := !(entered < runningThreads), phaseNumber;
    }

    /** One evaluation of the wait predicate, and line 143 when it holds. */
    method Recheck(cp: nat) returns (open: bool, overtaken: bool)
      ensures open <==> Data().Open(cp)
      ensures overtaken <==> Data().phase > cp
    {
      open := phaseNumber > cp || entered == runningThreads;
      overtaken := phaseNumber > cp;
    }

    /** The last thread to arrive opens the next phase. */
    method FinishPhase()
      modifies this
      ensures Data() == old(Data()).Advance()
    {
      phaseNumber := phaseNumber + 1;
      entered := 0;
    }

    /** `removeThread`, its first line. */
    method LowerCount()
      modifies this
      ensures Data() == old(Data()).Leave()
    {
      runningThreads := runningThreads - 1;
    }
  }

  class Manager {
    var aliveThreads: int
    var results: Stats
    /** `has_error_` and `error_message_` of the results. */
    var hasError: bool
    var errorMessage: string
    const startStopBarrier: Barrier

    constructor (numThreads: int)
      ensures aliveThreads == numThreads && results == EmptyStats && Failure() == None
      ensures fresh(startStopBarrier) && startStopBarrier.Data() == BarrierData(numThreads, 0, 0)
    {
      aliveThreads, results, hasError, errorMessage := numThreads, EmptyStats, false, "";
      startStopBarrier := new Barrier(numThreads);
    }

    function Failure(): Option<string>
      reads this
    {
      if hasError then Some(errorMessage) else None
    }

    /** The block of `SkipWithError` under the benchmark mutex. */
    method RecordError(msg: string)
      modifies this`hasError, this`errorMessage
      ensures Failure() == if old(Failure()).Some? then old(Failure()) else Some(msg)
    {
      if !hasError {
        errorMessage := msg;
        hasError := true;
      }
    }

    /** The block of `RunInThread` under the benchmark mutex. */
    method AddShare(st: Stats)
      modifies this`results
      ensures results == Merge(old(results), st)
    {
      var merged := Increment(results.counters, st.counters);
      results := Stats(results.iterations + st.iterations, results.cpuTime + st.cpuTime,
                       results.realTime + st.realTime, results.manualTime + st.manualTime,
                       results.complexityN + st.complexityN, merged);
    }

    /** `--alive_threads_ == 0`, one atomic operation. */
    method ThreadGone() returns (wasLast: bool)
      modifies this`aliveThreads
      ensures aliveThreads == old(aliveThreads) - 1
      ensures wasLast <==> aliveThreads == 0
    {
      aliveThreads := aliveThreads - 1;
      wasLast := aliveThreads == 0;
    }
  }
}
