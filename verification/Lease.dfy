/**
 The controller lease and the partial-frame timer (src/safety.rs, src/runtime_safety.rs,
 src/frame_stream.rs): deadlines in wrapping 64-bit milliseconds, refined to a clock
 that never wraps.
 */
module Lease {
  import opened Types

  const HALF := 0x8000_0000_0000_0000

  function Clock(t: nat): U64 {
    t % U64_LIMIT
  }

  function WrappingSub(a: U64, b: U64): U64 {
    (a - b) % U64_LIMIT
  }

  function WrappingAdd(a: U64, b: U64): U64 {
    (a + b) % U64_LIMIT
  }

  predicate DeadlineReached(now: U64, deadline: U64) {
    WrappingSub(now, deadline) < HALF
  }

  lemma ClockDifference(a: nat, b: nat)
    ensures WrappingSub(Clock(a), Clock(b)) == (a - b) % U64_LIMIT
    ensures WrappingAdd(Clock(a), Clock(b)) == Clock(a + b)
  {
    var k := b / U64_LIMIT - a / U64_LIMIT;
    assert Clock(a) - Clock(b) == a - b + k * U64_LIMIT;
  }

  /** Within half the range on either side the wrapped comparison tells the true order. */
  lemma ReachedTruly(now: nat, deadline: nat)
    requires deadline <= now + HALF && now < deadline + HALF
    ensures DeadlineReached(Clock(now), Clock(deadline)) <==> now >= deadline
  {
    ClockDifference(now, deadline);
    hide WrappingSub, Clock;
  }

  // ---- The lease ----

  datatype Refresh = Refresh(session: U32, observedAt: U64)

  /** armed_session is set exactly while the lease is armed. */
  datatype LeaseState = LeaseState(duration: U64, deadline: U64, armed: bool, armedSession: Option<U32>)

  datatype Decision = Decision(next: LeaseState, release: bool)

  function Cleared(l: LeaseState): LeaseState {
    l.(deadline := 0, armed := false, armedSession := None)
  }

  predicate Overdue(l: LeaseState, now: U64) {
    l.armed && DeadlineReached(now, l.deadline)
  }

  function AfterRefresh(l: LeaseState, session: U32, now: U64, guarded: bool): Decision {
    if Overdue(l, now) then Decision(Cleared(l), guarded) else Decision(l, false)
  }

  /** RuntimeLease::transition. */
  function Transition(lease: LeaseState, session: U32, now: U64, guarded: bool, pending: Option<Refresh>): Decision {
    var l := if lease.armedSession.Some? && lease.armedSession.value != session then Cleared(lease) else lease;
    if pending.Some? && pending.value.session == session then
      if l.armedSession == Some(session) && Overdue(l, pending.value.observedAt) then Decision(Cleared(l), guarded)
      else
        var refreshed := l.(deadline := WrappingAdd(pending.value.observedAt, l.duration), armed := true, armedSession := Some(session));
        AfterRefresh(refreshed, session, now, guarded)
    else AfterRefresh(l, session, now, guarded)
  }

  class RuntimeLease {
    const duration: U64
    var deadline: U64
    var armed: bool
    var armedSession: Option<U32>

    ghost function View(): LeaseState
      reads this
    {
      LeaseState(duration, deadline, armed, armedSession)
    }

    constructor (duration: U64)
      requires 0 < duration < HALF
      ensures View() == LeaseState(duration, 0, false, None)
    {
      this.duration := duration;
      deadline, armed, armedSession := 0, false, None;
    }

    method Clear()
      modifies this
      ensures View() == Cleared(old(View()))
    {
      deadline, armed, armedSession := 0, false, None;
    }

    method ShouldRelease(now: U64, guarded: bool) returns (release: bool)
      ensures release == (guarded && Overdue(View(), now))
    {
      release := guarded && armed && DeadlineReached(now, deadline);
    }

    method Expire(guarded: bool) returns (release: bool)
      modifies this
      ensures Decision(View(), release) == Decision(Cleared(old(View())), guarded)
    {
      Clear();
      release := guarded;
    }

    method Wake(session: U32, now: U64, guarded: bool, pending: Option<Refresh>) returns (release: bool)
      modifies this
      ensures Decision(View(), release) == Transition(old(View()), session, now, guarded, pending)
    {
      if armedSession.Some? && armedSession.value != session {
        Clear();
      }
      if pending.Some? && pending.value.session == session {
        if armedSession == Some(session) {
          var late := ShouldRelease(pending.value.observedAt, true);
          if late {
            release := Expire(guarded);
            return;
          }
        }
        deadline := WrappingAdd(pending.value.observedAt, duration);
        armed := true;
        armedSession := Some(session);
      }
      var due := ShouldRelease(now, true);
      if due {
        release := Expire(guarded);
        return;
      }
      release := false;
    }
  }

  // ---- The same lease on a clock that never wraps ----

  /** A consumed refresh: its session and when it was really observed. */
  datatype TrueRefresh = TrueRefresh(session: U32, observedAt: nat)

  /** One call of transition: the session of the moment, the true time, and what was pending. */
  datatype Wake = Wake(session: U32, now: nat, guarded: bool, pending: Option<TrueRefresh>)

  datatype TrueDecision = TrueDecision(next: Option<TrueRefresh>, release: bool)

  /** The last consumed refresh of the current session, if it has not lapsed. */
  function TrueTransition(last: Option<TrueRefresh>, duration: nat, wake: Wake): TrueDecision {
    var current := if last.Some? && last.value.session != wake.session then None else last;
    var refreshed := wake.pending.Some? && wake.pending.value.session == wake.session;
    if refreshed && current.Some? && wake.pending.value.observedAt >= current.value.observedAt + duration then
      TrueDecision(None, wake.guarded)
    else
      var newest := if refreshed then wake.pending else current;
      if newest.Some? && wake.now >= newest.value.observedAt + duration then TrueDecision(None, wake.guarded)
      else TrueDecision(newest, false)
  }

  function Wrapped(pending: Option<TrueRefresh>): Option<Refresh> {
    if pending.None? then None else Some(Refresh(pending.value.session, Clock(pending.value.observedAt)))
  }

  function WakeLease(l: LeaseState, wake: Wake): Decision {
    Transition(l, wake.session, Clock(wake.now), wake.guarded, Wrapped(wake.pending))
  }

  /** The wrapped lease represents this true one, last woken at the previous time. */
  predicate Represents(l: LeaseState, last: Option<TrueRefresh>, previous: nat) {
    && 0 < l.duration < HALF
    && match last
       case None => !l.armed && l.armedSession.None?
       case Some(r) =>
         && l.armed && l.armedSession == Some(r.session) && l.deadline == Clock(r.observedAt + l.duration)
         && r.observedAt <= previous < r.observedAt + l.duration
  }

  /** Time does not run backwards or jump half a range, and a refresh is consumed within half a range of being observed. */
  predicate Timely(last: Option<TrueRefresh>, previous: nat, wake: Wake) {
    && previous <= wake.now < previous + HALF
    && (wake.pending.Some? ==>
          && wake.pending.value.observedAt <= wake.now < wake.pending.value.observedAt + HALF
          && (last.Some? ==> last.value.observedAt <= wake.pending.value.observedAt))
  }

  lemma OverdueTruly(l: LeaseState, r: TrueRefresh, now: nat)
    requires l.armed && l.deadline == Clock(r.observedAt + l.duration) && l.duration < HALF
    requires r.observedAt <= now < r.observedAt + l.duration + HALF
    ensures Overdue(l, Clock(now)) <==> now >= r.observedAt + l.duration
  {
    ReachedTruly(now, r.observedAt + l.duration);
    hide DeadlineReached, Clock;
  }

  lemma RefreshedDeadline(r: TrueRefresh, duration: U64)
    ensures WrappingAdd(Clock(r.observedAt), duration) == Clock(r.observedAt + duration)
  {
    ClockDifference(r.observedAt, duration);
  }

  /** One wake of the wrapped lease is one wake of the true one: same release, and still in step. */
  lemma WakeRefines(l: LeaseState, last: Option<TrueRefresh>, previous: nat, wake: Wake)
    requires Represents(l, last, previous) && Timely(last, previous, wake)
    ensures var t := TrueTransition(last, l.duration, wake);
            && WakeLease(l, wake).release == t.release
            && WakeLease(l, wake).next.duration == l.duration
            && Represents(WakeLease(l, wake).next, t.next, wake.now)
  {
    hide Clock, DeadlineReached, WrappingAdd;
    var current := if last.Some? && last.value.session != wake.session then None else last;
    if current.Some? {
      OverdueTruly(l, current.value, wake.now);
    }
    if wake.pending.Some? && wake.pending.value.session == wake.session {
      var r := wake.pending.value;
      RefreshedDeadline(r, l.duration);
      if current.Some? {
        OverdueTruly(l, current.value, r.observedAt);
      }
      var refreshed := LeaseState(l.duration, Clock(r.observedAt + l.duration), true, Some(wake.session));
      OverdueTruly(refreshed, r, wake.now);
    }
    hide Overdue;
  }

  function Releases(l: LeaseState, wakes: seq<Wake>): seq<bool>
    decreases |wakes|
  {
    if wakes == [] then [] else [WakeLease(l, wakes[0]).release] + Releases(WakeLease(l, wakes[0]).next, wakes[1..])
  }

  function TrueReleases(last: Option<TrueRefresh>, duration: nat, wakes: seq<Wake>): seq<bool>
    decreases |wakes|
  {
    if wakes == [] then []
    else
      var t := TrueTransition(last, duration, wakes[0]);
      [t.release] + TrueReleases(t.next, duration, wakes[1..])
  }

  predicate AllTimely(last: Option<TrueRefresh>, duration: nat, previous: nat, wakes: seq<Wake>)
    decreases |wakes|
  {
    wakes != [] ==>
      Timely(last, previous, wakes[0]) && AllTimely(TrueTransition(last, duration, wakes[0]).next, duration, wakes[0].now, wakes[1..])
  }

  /** Over every timely run the wrapping lease releases exactly when the true one does. */
  lemma {:induction false} LeaseRefines(l: LeaseState, last: Option<TrueRefresh>, previous: nat, wakes: seq<Wake>)
    requires Represents(l, last, previous) && AllTimely(last, l.duration, previous, wakes)
    ensures Releases(l, wakes) == TrueReleases(last, l.duration, wakes)
    decreases |wakes|
  {
    if wakes != [] {
      WakeRefines(l, last, previous, wakes[0]);
      hide WakeLease, TrueTransition, Represents, Timely;
      LeaseRefines(WakeLease(l, wakes[0]).next, TrueTransition(last, l.duration, wakes[0]).next, wakes[0].now, wakes[1..]);
    }
  }

  // ---- When the true lease releases ----

  /** When the newest refresh of this session before wake i was observed; start is the one before the run. */
  function Newest(wakes: seq<Wake>, i: nat, session: U32, start: nat): nat
    requires i <= |wakes|
  {
    if i == 0 then start
    else if wakes[i - 1].pending.Some? && wakes[i - 1].pending.value.session == session then wakes[i - 1].pending.value.observedAt
    else Newest(wakes, i - 1, session, start)
  }

  /** A full duration without a refresh: between two consecutive ones, or from the newest one to now. */
  predicate Lapses(wakes: seq<Wake>, i: nat, session: U32, start: nat, duration: nat)
    requires i < |wakes|
  {
    || Newest(wakes, i + 1, session, start) >= Newest(wakes, i, session, start) + duration
    || wakes[i].now >= Newest(wakes, i + 1, session, start) + duration
  }

  function TrueState(last: Option<TrueRefresh>, duration: nat, wakes: seq<Wake>, i: nat): Option<TrueRefresh>
    requires i <= |wakes|
  {
    if i == 0 then last else TrueTransition(TrueState(last, duration, wakes, i - 1), duration, wakes[i - 1]).next
  }

  lemma {:induction false} StillArmed(session: U32, start: nat, duration: nat, wakes: seq<Wake>, i: nat)
    requires duration > 0 && i <= |wakes| && (forall w :: w in wakes ==> w.session == session)
    requires forall j :: 0 <= j < i ==> !Lapses(wakes, j, session, start, duration)
    ensures TrueState(Some(TrueRefresh(session, start)), duration, wakes, i) == Some(TrueRefresh(session, Newest(wakes, i, session, start)))
  {
    if i > 0 {
      assert wakes[i - 1] in wakes;
      assert !Lapses(wakes, i - 1, session, start, duration);
      StillArmed(session, start, duration, wakes, i - 1);
    }
  }

  /**
   Within a session, from an armed lease: up to the first lapse nothing is released, and there release is
   requested exactly if work is guarded.
   */
  lemma ReleasesAtTheFirstLapse(session: U32, start: nat, duration: nat, wakes: seq<Wake>, i: nat)
    requires duration > 0 && i < |wakes| && (forall w :: w in wakes ==> w.session == session)
    requires forall j :: 0 <= j < i ==> !Lapses(wakes, j, session, start, duration)
    ensures TrueTransition(TrueState(Some(TrueRefresh(session, start)), duration, wakes, i), duration, wakes[i]).release
         <==> wakes[i].guarded && Lapses(wakes, i, session, start, duration)
  {
    StillArmed(session, start, duration, wakes, i);
    assert wakes[i] in wakes;
  }

  /** A refresh observed in time wins over a wake that runs late, and other sessions never release anything. */
  lemma LateWakesAndStrangers(last: Option<TrueRefresh>, duration: nat, wake: Wake)
    ensures wake.pending.Some? && wake.pending.value.session == wake.session
              && (last.Some? && last.value.session == wake.session ==> wake.pending.value.observedAt < last.value.observedAt + duration)
              && wake.now < wake.pending.value.observedAt + duration
            ==> TrueTransition(last, duration, wake) == TrueDecision(wake.pending, false)
    ensures (last.Some? ==> last.value.session != wake.session) && (wake.pending.Some? ==> wake.pending.value.session != wake.session)
            ==> TrueTransition(last, duration, wake) == TrueDecision(None, false)
  {
  }

  // ---- The partial-frame timer ----

  datatype PartialState = PartialState(timeout: U64, deadline: U64, active: bool)

  class PartialFrameTimeout {
    const timeout: U64
    var deadline: U64
    var active: bool

    ghost function View(): PartialState
      reads this
    {
      PartialState(timeout, deadline, active)
    }

    constructor (timeout: U64)
      requires 0 < timeout < HALF
      ensures View() == PartialState(timeout, 0, false)
    {
      this.timeout := timeout;
      deadline, active := 0, false;
    }

    method NoteProgress(now: U64, buffered: nat)
      modifies this
      ensures View() == if buffered == 0 then PartialState(timeout, 0, false)
                        else PartialState(timeout, WrappingAdd(now, timeout), true)
    {
      if buffered == 0 {
        deadline, active := 0, false;
      } else {
        deadline, active := WrappingAdd(now, timeout), true;
      }
    }

    /** A timer firing drops the whole buffer, or nothing. */
    method Expire(now: U64, buffered: nat) returns (expired: bool, left: nat)
      modifies this
      ensures expired == (old(active) && DeadlineReached(now, old(deadline)))
      ensures left == (if expired then 0 else buffered)
      ensures View() == if expired then PartialState(timeout, 0, false) else old(View())
    {
      if !active || !DeadlineReached(now, deadline) {
        return false, buffered;
      }
      deadline, active := 0, false;
      expired, left := true, 0;
    }

    method RemainingMs(now: U64) returns (remaining: Option<U64>)
      ensures remaining == Remaining(View(), now)
    {
      if !active {
        return None;
      }
      remaining := Some(if DeadlineReached(now, deadline) then 0 else WrappingSub(deadline, now));
    }
  }

  function Remaining(p: PartialState, now: U64): Option<U64> {
    if !p.active then None
    else if DeadlineReached(now, p.deadline) then Some(0)
    else Some(WrappingSub(p.deadline, now))
  }

  /** Armed by progress at one true time and asked at another: expired after exactly the timeout, and the remainder is the rest of it. */
  lemma PartialTimesOutTruly(timeout: U64, progress: nat, now: nat)
    requires 0 < timeout < HALF && progress <= now < progress + timeout + HALF
    ensures var p := PartialState(timeout, WrappingAdd(Clock(progress), timeout), true);
            && (DeadlineReached(Clock(now), p.deadline) <==> now >= progress + timeout)
            && Remaining(p, Clock(now)) == Some(if now >= progress + timeout then 0 else progress + timeout - now)
  {
    hide Clock, DeadlineReached, WrappingAdd, WrappingSub, Remaining;
    var deadline := progress + timeout;
    RefreshedDeadline(TrueRefresh(0, progress), timeout);
    ReachedTruly(now, deadline);
    RemainingTruly(timeout, deadline, now);
  }

  lemma RemainingTruly(timeout: U64, deadline: nat, now: nat)
    requires DeadlineReached(Clock(now), Clock(deadline)) <==> now >= deadline
    requires deadline <= now + timeout
    ensures Remaining(PartialState(timeout, Clock(deadline), true), Clock(now)) == Some(if now >= deadline then 0 else deadline - now)
  {
    ClockDifference(deadline, now);
    hide Clock, DeadlineReached, WrappingSub;
  }
}
