/**
 Cancellation of running work (src/safety.rs, src/command_executor.rs) and the
 STOP_ALL lifecycle (src/stop_core.rs).
 */
module Cancellation {
  import opened Types
  import opened Coordinator

  // ---- Generations ----

  /** Length of the generation cycle: every u32 value but zero. */
  const GENERATIONS := 0xFFFF_FFFF

  /** Advances once and skips zero; also advance_session_generation of src/coordinator.rs. */
  function NextGeneration(generation: U32): U32 {
    var next := (generation + 1) % U32_LIMIT;
    if next == 0 then 1 else next
  }

  /** The generation after n advances of the initial one. */
  function Generation(n: nat): U32 {
    n % GENERATIONS + 1
  }

  lemma GenerationAdvances(n: nat)
    ensures Generation(0) == 1 && NextGeneration(Generation(n)) == Generation(n + 1)
  {
  }

  /** Two snapshots fewer than a full cycle apart are equal only if nothing happened in between. */
  lemma GenerationsDistinct(m: nat, n: nat)
    requires m <= n < m + GENERATIONS
    ensures Generation(m) == Generation(n) <==> m == n
  {
    var turns := n / GENERATIONS - m / GENERATIONS;
    assert n - m == turns * GENERATIONS + n % GENERATIONS - m % GENERATIONS;
  }

  /** The limit is real: after a full cycle an old snapshot looks current again. */
  lemma FullCycleRepeats(m: nat)
    ensures Generation(m + GENERATIONS) == Generation(m)
  {
  }

  class CancellationGeneration {
    var generation: U32

    constructor ()
      ensures generation == Generation(0)
    {
      generation := 1;
    }

    method Cancel() returns (published: U32)
      modifies this
      ensures generation == published == NextGeneration(old(generation))
    {
      var next := (generation + 1) % U32_LIMIT;
      generation := if next == 0 then 1 else next;
      published := generation;
    }
  }

  // ---- Observing a last-value signal ----

  /** One job's view: the generation it was dispatched under, and whether it has seen another. */
  datatype Observation = Observation(baseline: U32, cancelled: bool)

  function Observe(o: Observation, generation: U32): Observation {
    o.(cancelled := o.cancelled || generation != o.baseline)
  }

  /** What a job and the overwriting signal look like together. */
  datatype Watch = Watch(signal: Option<U32>, seen: Observation)

  /** A nonblocking check: sticky, and otherwise consumes whatever the signal holds. */
  function CheckOnce(w: Watch): Watch {
    if w.seen.cancelled then w
    else if w.signal.None? then w
    else Watch(None, Observe(w.seen, w.signal.value))
  }

  datatype WaitEvent = Publish(generation: U32) | Poll

  /** A wait: publications overwrite the signal; each poll consumes it and ends the wait if it is another generation. */
  function Wait(w: Watch, events: seq<WaitEvent>): Watch
    decreases |events|
  {
    if events == [] then CheckOnce(w)
    else
      match events[0]
      case Publish(generation) => Wait(w.(signal := Some(generation)), events[1..])
      case Poll =>
        var after := CheckOnce(w);
        if after.seen.cancelled then AfterPublications(after, events[1..]) else Wait(after, events[1..])
  }

  /** Nobody polls any more; publications keep arriving. */
  function AfterPublications(w: Watch, events: seq<WaitEvent>): Watch
    decreases |events|
  {
    if events == [] then w
    else if events[0].Publish? then AfterPublications(w.(signal := Some(events[0].generation)), events[1..])
    else AfterPublications(w, events[1..])
  }

  function DelayWatch(w: Watch, events: seq<WaitEvent>): Watch {
    var before := CheckOnce(w);
    if before.seen.cancelled then AfterPublications(before, events) else Wait(before, events)
  }

  class CancelSignal {
    var value: Option<U32>

    constructor ()
      ensures value == None
    {
      value := None;
    }

    method Signal(generation: U32)
      modifies this
      ensures value == Some(generation)
    {
      value := Some(generation);
    }

    method TryTake() returns (taken: Option<U32>)
      modifies this
      ensures taken == old(value) && value == None
    {
      taken := value;
      value := None;
    }
  }

  class CancelWait {
    const signal: CancelSignal
    const baseline: U32
    var cancelled: bool

    ghost function View(): Watch
      reads this, signal
    {
      Watch(signal.value, Observation(baseline, cancelled))
    }

    constructor (signal: CancelSignal, baseline: U32)
      ensures this.signal == signal && View() == Watch(signal.value, Observation(baseline, false))
    {
      this.signal := signal;
      this.baseline := baseline;
      cancelled := false;
    }

    method Check() returns (failure: Option<ErrorCode>)
      modifies this, signal
      ensures View() == CheckOnce(old(View()))
      ensures failure == if View().seen.cancelled then Some(Cancelled) else None
    {
      if cancelled {
        return Some(Cancelled);
      }
      var generation := signal.TryTake();
      if generation.Some? && generation.value != baseline {
        cancelled := true;
        return Some(Cancelled);
      }
      failure := None;
    }

    /** The environment publishes and the executor polls in whatever order events says. */
    method Delay(events: seq<WaitEvent>) returns (failure: Option<ErrorCode>)
      modifies this, signal
      ensures View() == DelayWatch(old(View()), events)
      ensures failure == if View().seen.cancelled then Some(Cancelled) else None
    {
      failure := Check();
      var i := 0;
      ghost var start := View();
      while i < |events| && !cancelled
        invariant 0 <= i <= |events| && start.seen.baseline == baseline
        invariant (if start.seen.cancelled then AfterPublications(start, events) else Wait(start, events))
               == (if cancelled then AfterPublications(View(), events[i..]) else Wait(View(), events[i..]))
      {
        assert events[i..][0] == events[i] && events[i..][1..] == events[i + 1..];
        match events[i] {
          case Publish(generation) => signal.Signal(generation);
          case Poll => failure := Check();
        }
        i := i + 1;
      }
      if cancelled {
        failure := Some(Cancelled);
        while i < |events|
          invariant 0 <= i <= |events| && cancelled
          invariant (if start.seen.cancelled then AfterPublications(start, events) else Wait(start, events))
                 == AfterPublications(View(), events[i..])
        {
          assert events[i..][0] == events[i] && events[i..][1..] == events[i + 1..];
          if events[i].Publish? {
            signal.Signal(events[i].generation);
          }
          i := i + 1;
        }
      } else {
        failure := Check();
      }
    }
  }

  /** Every publication in a stretch of waiting is one of these generations. */
  ghost predicate PublishesOnly(events: seq<WaitEvent>, generations: set<U32>) {
    forall e :: e in events && e.Publish? ==> e.generation in generations
  }

  lemma {:induction false} WaitUndisturbed(w: Watch, events: seq<WaitEvent>)
    requires !w.seen.cancelled && w.signal in {None, Some(w.seen.baseline)} && PublishesOnly(events, {w.seen.baseline})
    ensures !Wait(w, events).seen.cancelled
    decreases |events|
  {
    if events != [] {
      match events[0]
      case Publish(generation) =>
        assert events[0] in events;
        WaitUndisturbed(w.(signal := Some(generation)), events[1..]);
      case Poll => WaitUndisturbed(CheckOnce(w), events[1..]);
    }
  }

  /** No false cancellation: while only the baseline itself is about, stale copies of it included, no delay fails. */
  lemma BaselineNeverCancels(w: Watch, events: seq<WaitEvent>)
    requires !w.seen.cancelled && w.signal in {None, Some(w.seen.baseline)} && PublishesOnly(events, {w.seen.baseline})
    ensures !CheckOnce(w).seen.cancelled && !DelayWatch(w, events).seen.cancelled
  {
    WaitUndisturbed(CheckOnce(w), events);
  }

  /** The job has seen another generation, or the signal holds one for its next look. */
  predicate Doomed(w: Watch) {
    w.seen.cancelled || (w.signal.Some? && w.signal.value != w.seen.baseline)
  }

  ghost predicate PublishesOthers(events: seq<WaitEvent>, baseline: U32) {
    forall e :: e in events && e.Publish? ==> e.generation != baseline
  }

  lemma {:induction false} WaitDoomed(w: Watch, events: seq<WaitEvent>)
    requires PublishesOthers(events, w.seen.baseline)
    requires Doomed(w) || exists e :: e in events && e.Publish?
    ensures !w.seen.cancelled ==> Wait(w, events).seen.cancelled
    ensures w.seen.cancelled ==> AfterPublications(w, events).seen.cancelled
    decreases |events|
  {
    if events != [] {
      assert forall e :: e in events[1..] ==> e in events;
      match events[0]
      case Publish(generation) =>
        assert events[0] in events;
        WaitDoomed(w.(signal := Some(generation)), events[1..]);
      case Poll =>
        if !Doomed(w) {
          var e :| e in events && e.Publish?;
          assert e in events[1..];
        }
        WaitDoomed(CheckOnce(w), events[1..]);
        if w.seen.cancelled {
          WaitDoomed(w, events[1..]);
        }
    }
  }

  /** No lost cancellation: with another generation in the signal, or published while waiting, the delay fails. */
  lemma OthersAlwaysCancel(w: Watch, events: seq<WaitEvent>)
    requires PublishesOthers(events, w.seen.baseline)
    requires Doomed(w) || exists e :: e in events && e.Publish?
    ensures DelayWatch(w, events).seen.cancelled
    ensures Doomed(w) ==> CheckOnce(w).seen.cancelled
  {
    WaitDoomed(CheckOnce(w), events);
  }

  // ---- STOP_ALL and emergencies ----

  /** The generation, the STOP_ALLs waiting for a release, and whether one is under way. */
  datatype StopState = StopState(generation: U32, pending: seq<CompletionToken>, inFlight: bool)

  const NO_STOPS := StopState(1, [], false)

  datatype EmergencyAction = EmergencyAction(cancelGeneration: U32, enqueue: bool)

  /** One cancellation per request, one reset for all requests that arrive before it is done. */
  function ScheduleEmergency(s: StopState): (StopState, EmergencyAction) {
    var generation := NextGeneration(s.generation);
    (s.(generation := generation, inFlight := true), EmergencyAction(generation, !s.inFlight))
  }

  /** A full list would drop the token; the runtime invariant is what keeps it from filling up. */
  function HandleStop(s: StopState, token: CompletionToken): (StopState, EmergencyAction) {
    ScheduleEmergency(if |s.pending| < RESPONSE_CACHE_SIZE then s.(pending := s.pending + [token]) else s)
  }

  class StopCore {
    const cancellation: CancellationGeneration
    var pending: seq<CompletionToken>
    var inFlight: bool

    ghost function View(): StopState
      reads this, cancellation
    {
      StopState(cancellation.generation, pending, inFlight)
    }

    constructor ()
      ensures View() == NO_STOPS && fresh(cancellation)
    {
      cancellation := new CancellationGeneration();
      pending := [];
      inFlight := false;
    }

    method Schedule() returns (action: EmergencyAction)
      modifies this, cancellation
      ensures (View(), action) == ScheduleEmergency(old(View()))
    {
      var published := cancellation.Cancel();
      action := EmergencyAction(published, !inFlight);
      inFlight := true;
    }

    method Stop(token: CompletionToken) returns (action: EmergencyAction)
      modifies this, cancellation
      ensures (View(), action) == HandleStop(old(View()), token)
    {
      if |pending| < RESPONSE_CACHE_SIZE {
        pending := pending + [token];
      }
      action := Schedule();
    }

    method CompleteEmergency() returns (tokens: seq<CompletionToken>)
      modifies this
      ensures tokens == old(View()).pending && View() == old(View()).(pending := [], inFlight := false)
    {
      inFlight := false;
      tokens := pending;
      pending := [];
    }

    method ClearPendingStops()
      modifies this
      ensures View() == old(View()).(pending := [])
    {
      pending := [];
    }
  }
}
