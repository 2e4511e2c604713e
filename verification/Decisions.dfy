/**
 When a request is admitted: for every state the coordinator can be in, exactly which
 decision a request with each command type gets, and exactly when it is refused and how.
 */
module Decisions {
  import opened Types
  import opened Protocol
  import opened Commands
  import opened Coordinator
  import opened CoordinatorHistory

  // ---- Room in the cache ----

  /** Cache slots whose request is still unanswered. */
  ghost function ActiveSlots(cache: seq<CacheEntry>): set<nat> {
    set i: nat | i < |cache| && cache[i].state == Active
  }

  /** A slot nobody is waiting on: an unused one, or an answered one. */
  ghost predicate SlotLeft(s: CoordState) {
    |s.cache| < 64 || exists i :: 0 <= i < |s.cache| && s.cache[i].state.Completed?
  }

  /** Room for anything but a STOP_ALL, for which the last slot is kept. */
  ghost predicate Room(s: CoordState) {
    |ActiveSlots(s.cache)| < 63
  }

  lemma {:induction false} CountIsSlots(cache: seq<CacheEntry>)
    ensures ActiveCount(cache) == |ActiveSlots(cache)|
  {
    if cache == [] {
      assert ActiveSlots(cache) == {};
    } else {
      var n := |cache| - 1;
      CountIsSlots(cache[..n]);
      var last: set<nat> := if cache[n].state == Active then {n} else {};
      assert ActiveSlots(cache) == ActiveSlots(cache[..n]) + last;
    }
  }

  lemma {:induction false} AllWaiting(cache: seq<CacheEntry>)
    requires forall i :: 0 <= i < |cache| ==> cache[i].state == Active
    ensures |ActiveSlots(cache)| == |cache|
  {
    if cache == [] {
      assert ActiveSlots(cache) == {};
    } else {
      var n := |cache| - 1;
      AllWaiting(cache[..n]);
      assert ActiveSlots(cache) == ActiveSlots(cache[..n]) + {n};
    }
  }

  /** With fewer than 63 waiting, some slot is left. */
  lemma RoomLeavesSlot(s: CoordState)
    requires Room(s)
    ensures SlotLeft(s)
  {
    if forall i :: 0 <= i < |s.cache| ==> s.cache[i].state == Active {
      AllWaiting(s.cache);
    }
  }

  lemma RingReaches(start: nat, i: nat)
    requires i < 64
    ensures exists k :: 0 <= k < 64 && RingIndex(start, k) == i
  {
    var k := (i + 64 - start % 64) % 64;
    assert RingIndex(start, k) == i;
  }

  /** The scan finds a slot exactly if one is left. */
  lemma SlotFound(s: CoordState, urgent: bool)
    requires |s.cache| <= 64
    ensures ChooseSlot(s, urgent) != NoSlot <==> SlotLeft(s) && (urgent || Room(s))
  {
    CountIsSlots(s.cache);
    hide ActiveCount, RingIndex;
    if |s.cache| == 64 {
      var found := FirstCompleted(s.cache, s.nextEvict, 0);
      if i :| 0 <= i < 64 && s.cache[i].state.Completed? {
        RingReaches(s.nextEvict, i);
        assert found.Some?;
      }
      hide FirstCompleted;
    }
  }

  /** There is a slot, and an identifier, for a STOP_ALL. */
  ghost predicate TakesStop(s: CoordState) {
    SlotLeft(s) && s.nextId + 1 < U64_LIMIT
  }

  /** There is a slot, and an identifier, for anything else. */
  ghost predicate TakesMore(s: CoordState) {
    Room(s) && s.nextId + 1 < U64_LIMIT
  }

  /** An insertion succeeds exactly if there is room for it. */
  lemma Inserts(s: CoordState, r: OwnedRequest, urgent: bool)
    requires Inv(s)
    ensures InsertActive(s, r, urgent).Inserted? <==> (if urgent then TakesStop(s) else TakesMore(s))
  {
    SlotFound(s, urgent);
    if Room(s) {
      RoomLeavesSlot(s);
    }
    hide ChooseSlot, Room, SlotLeft, NewToken;
  }

  // ---- Decisions ----

  /** A request the cache does not know. */
  ghost predicate New(s: CoordState, r: OwnedRequest) {
    && Inv(s) && WellFormed(r)
    && (r.kind == ResponseExpected ==> Absent(s.cache, r.sequence))
  }

  predicate IsQuery(t: CommandType) {
    t == Ping || t == GetInfo || t == GetCaps || t == Heartbeat
  }

  /** Everything that needs the executor for itself: keys, text, mouse and waits. */
  predicate IsMutating(t: CommandType) {
    || t == KeyDown || t == KeyUp || t == KeyTap || t == TypeAscii || t == WaitMs
    || t == MouseMoveRel || t == MouseButtonDown || t == MouseButtonUp || t == MouseClick || t == MouseWheel
  }

  lemma ClassOf(r: OwnedRequest)
    requires r.body.Raw? && Decoded(r).Ok?
    ensures Classify(Decoded(r).value) ==
              if r.commandType == BatchBegin then ClassBatchBegin
              else if r.commandType == BatchEnd then ClassBatchEnd
              else if r.commandType == StopAll then ClassStopAll
              else if IsQuery(r.commandType) then ClassBypass
              else ClassMutating
    ensures r.commandType == BatchBegin || r.commandType == BatchEnd || r.commandType == StopAll
            || IsQuery(r.commandType) || IsMutating(r.commandType)
  {
    hide FromBe16, FromBe32, BitsI16, BitsI8;
  }

  /** What an unknown request meets: its class's own checks, on the decoded request. */
  lemma MeetsClass(s: CoordState, r: OwnedRequest, externalBusy: bool)
    requires New(s, r) && Decoded(r).Ok?
    ensures var requestClass := Classify(Decoded(r).value);
            var request := r.(body := Decoded(r).value);
            Admit(s, r, externalBusy) ==
              if externalBusy && requestClass != ClassStopAll && requestClass != ClassBypass then Admitted(s, BusyNow(ExecutorOccupied))
              else AdmitClass(s, request, requestClass)
  {
    hide AdmitClass, Decoded, Classify, Inv, WellFormed;
  }

  /** STOP_ALL is accepted whenever any slot and an identifier are left, whoever is busy, and refused with BUSY otherwise. */
  lemma StopDecision(s: CoordState, r: OwnedRequest, externalBusy: bool)
    requires New(s, r) && r.commandType == StopAll && Decoded(r).Ok?
    ensures var a := Admit(s, r, externalBusy);
            && (a.admission.Stop? <==> TakesStop(s))
            && (!TakesStop(s) ==> a == Admitted(s, BusyNow(ExecutorOccupied)))
  {
    ClassOf(r);
    MeetsClass(s, r, externalBusy);
    hide Admit, Decoded, Classify, Inv, WellFormed, InsertActive, TakesStop;
    Inserts(s, r.(body := Decoded(r).value), true);
  }

  /**
   A mutating command runs alone when nothing else owns the executor, joins an open batch, and is otherwise
   told why not.
   */
  lemma MutatingDecision(s: CoordState, r: OwnedRequest, externalBusy: bool)
    requires New(s, r) && IsMutating(r.commandType) && Decoded(r).Ok?
    ensures var a := Admit(s, r, externalBusy);
            && (a.admission.ExecuteRequest? <==> !externalBusy && s.batch == Idle && s.owner.None? && TakesMore(s))
            && (a.admission.Collect? <==> !externalBusy && s.batch == Collecting && TakesMore(s))
            && (a.admission == BusyNow(BatchExecuting) <==> !externalBusy && s.batch.Executing?)
            && (a.admission.ExecuteRequest? || a.admission.Collect? || a == Admitted(s, BusyNow(BatchExecuting))
                || a == Admitted(s, BusyNow(ExecutorOccupied)))
  {
    ClassOf(r);
    MeetsClass(s, r, externalBusy);
    hide Admit, Decoded, Classify, Inv, WellFormed, InsertActive, TakesMore;
    Inserts(s, r.(body := Decoded(r).value), false);
  }

  /** A batch opens only over an idle executor, and not inside another batch. */
  lemma BeginDecision(s: CoordState, r: OwnedRequest, externalBusy: bool)
    requires New(s, r) && r.commandType == BatchBegin && Decoded(r).Ok?
    ensures var a := Admit(s, r, externalBusy);
            && (a.admission == Immediate(AckResponse(r.version, r.sequence))
                <==> !externalBusy && s.batch == Idle && s.owner.None? && TakesMore(s))
            && (a.admission == Reject(BatchState) <==> !externalBusy && s.batch != Idle)
            && (a.admission.Immediate? || a == Admitted(s, Reject(BatchState)) || a == Admitted(s, BusyNow(ExecutorOccupied)))
  {
    ClassOf(r);
    MeetsClass(s, r, externalBusy);
    hide Admit, Decoded, Classify, Inv, WellFormed, InsertActive, TakesMore, Complete;
    var request := r.(body := Decoded(r).value);
    Inserts(s, request, false);
    if InsertActive(s, request, false).Inserted? {
      TokenOf(s, request);
    }
  }

  lemma TokenOf(s: CoordState, r: OwnedRequest)
    requires InsertActive(s, r, false).Inserted?
    ensures InsertActive(s, r, false).token == NewToken(s, r)
  {
    hide ChooseSlot;
  }

  /** A batch ends only if one is open. */
  lemma EndDecision(s: CoordState, r: OwnedRequest, externalBusy: bool)
    requires New(s, r) && r.commandType == BatchEnd && Decoded(r).Ok?
    ensures var a := Admit(s, r, externalBusy);
            && (a.admission.ExecuteRequest? <==> !externalBusy && s.batch == Collecting && TakesMore(s))
            && (a.admission == Reject(BatchState) <==> !externalBusy && s.batch != Collecting)
            && (a.admission.ExecuteRequest? || a == Admitted(s, Reject(BatchState)) || a == Admitted(s, BusyNow(ExecutorOccupied)))
  {
    ClassOf(r);
    MeetsClass(s, r, externalBusy);
    hide Admit, Decoded, Classify, Inv, WellFormed, InsertActive, TakesMore;
    Inserts(s, r.(body := Decoded(r).value), false);
  }

  /** Queries are answered whoever is busy; only the heartbeat that wants no answer needs no room. */
  lemma QueryDecision(s: CoordState, r: OwnedRequest, externalBusy: bool)
    requires New(s, r) && IsQuery(r.commandType) && Decoded(r).Ok?
    ensures var a := Admit(s, r, externalBusy);
            && (a.admission.NoResponse? <==> r.kind == NoResponseHeartbeat) && (a.admission.NoResponse? ==> a.state == s)
            && (a.admission.Bypass? <==> r.kind == ResponseExpected && TakesMore(s))
            && (a.admission.NoResponse? || a.admission.Bypass? || a == Admitted(s, BusyNow(ExecutorOccupied)))
  {
    ClassOf(r);
    MeetsClass(s, r, externalBusy);
    hide Admit, Decoded, Classify, Inv, WellFormed, InsertActive, TakesMore;
    Inserts(s, r.(body := Decoded(r).value), false);
  }

  /** A request that does not decode is rejected with the reason, whatever the state. */
  lemma UndecodableDecision(s: CoordState, r: OwnedRequest, externalBusy: bool)
    requires New(s, r) && Decoded(r).Err?
    ensures Admit(s, r, externalBusy) ==
              Admitted(s, Reject(if Decoded(r).error == CommandError.WaitTooLong then ErrorCode.WaitTooLong else BadCommand))
  {
    hide Decoded, Inv, WellFormed;
  }

  /** A request whose sequence is cached, and the entry that has it. */
  ghost predicate KnownAt(s: CoordState, r: OwnedRequest, i: nat) {
    r.kind == ResponseExpected && i < |s.cache| && s.cache[i].sequence == r.sequence
  }

  /** A retry is answered from its entry alone. */
  lemma KnownDecision(s: CoordState, r: OwnedRequest, externalBusy: bool, i: nat)
    requires Inv(s) && KnownAt(s, r, i)
    ensures Admit(s, r, externalBusy) ==
              Admitted(s, if s.cache[i].fingerprint != r.fingerprint then Reject(SequenceConflict)
                          else if s.cache[i].state == Active then BusyNow(ActiveDuplicate)
                          else Replay(s.cache[i].state.response))
  {
    assert FindSequence(s.cache, r.sequence, 0) == Some(i);
    hide AdmitFresh;
  }

  /**
   Every rejection, for every state and request: a conflict exactly for a retry with another fingerprint, a
   batch error exactly for a BATCH_BEGIN inside a batch or a BATCH_END outside one, the decoder's errors
   exactly for what does not decode, and no other.
   */
  lemma RejectedExactly(s: CoordState, r: OwnedRequest, externalBusy: bool, error: ErrorCode)
    requires Inv(s) && WellFormed(r)
    ensures Admit(s, r, externalBusy).admission == Reject(error) <==>
              || (error == SequenceConflict && exists i: nat :: KnownAt(s, r, i) && s.cache[i].fingerprint != r.fingerprint)
              || (New(s, r) && Decoded(r).Err?
                  && error == if Decoded(r).error == CommandError.WaitTooLong then ErrorCode.WaitTooLong else BadCommand)
              || (New(s, r) && Decoded(r).Ok? && !externalBusy && error == BatchState
                  && ((r.commandType == BatchBegin && s.batch != Idle) || (r.commandType == BatchEnd && s.batch != Collecting)))
  {
    if i: nat :| KnownAt(s, r, i) {
      KnownDecision(s, r, externalBusy, i);
      OnlyOneKnown(s, r, i);
      hide Inv, Admit, Decoded, WellFormed;
    } else {
      NotKnown(s, r);
      if Decoded(r).Err? {
        UndecodableDecision(s, r, externalBusy);
        hide Inv, Admit, Decoded, WellFormed, New;
      } else {
        UnknownRejected(s, r, externalBusy);
        hide Inv, Admit, Decoded, WellFormed, New;
      }
    }
  }

  lemma OnlyOneKnown(s: CoordState, r: OwnedRequest, i: nat)
    requires Inv(s) && KnownAt(s, r, i)
    ensures !New(s, r) && forall j: nat :: KnownAt(s, r, j) ==> j == i
  {
    hide WellFormed;
  }

  lemma NotKnown(s: CoordState, r: OwnedRequest)
    requires Inv(s) && WellFormed(r) && forall i: nat :: !KnownAt(s, r, i)
    ensures New(s, r)
  {
    hide Inv, WellFormed;
    forall i | 0 <= i < |s.cache| && r.kind == ResponseExpected
      ensures s.cache[i].sequence != r.sequence
    {
      assert !KnownAt(s, r, i);
    }
  }

  lemma UnknownRejected(s: CoordState, r: OwnedRequest, externalBusy: bool)
    requires New(s, r) && Decoded(r).Ok?
    ensures Admit(s, r, externalBusy).admission.Reject? <==>
              !externalBusy && ((r.commandType == BatchBegin && s.batch != Idle) || (r.commandType == BatchEnd && s.batch != Collecting))
    ensures Admit(s, r, externalBusy).admission.Reject? ==> Admit(s, r, externalBusy).admission == Reject(BatchState)
  {
    ClassOf(r) by {
      hide Inv, Decoded;
    }
    hide Inv, Admit, Decoded, TakesMore, TakesStop, New;
    if r.commandType == BatchBegin {
      BeginDecision(s, r, externalBusy);
    } else if r.commandType == BatchEnd {
      EndDecision(s, r, externalBusy);
    } else if r.commandType == StopAll {
      StopDecision(s, r, externalBusy);
    } else if IsQuery(r.commandType) {
      QueryDecision(s, r, externalBusy);
    } else {
      MutatingDecision(s, r, externalBusy);
    }
  }

  // ---- The lease ----

  /** refreshes_v2_lease */
  predicate RefreshesLease(version: Byte, admission: Admission) {
    && version == PROTOCOL_VERSION
    && !(admission.Reject? && admission.error in {BadCommand, FrameTooLong, ErrorCode.UnsupportedVersion,
                                                  ErrorCode.UnsupportedFlags, ErrorCode.InvalidSequence, ErrorCode.WaitTooLong})
  }

  /**
   A request keeps the lease alive exactly if it is of version 2 and either a retry or one that decodes:
   duplicates, conflicts, BUSYs and batch errors count as signs of life, garbage does not.
   */
  lemma LeaseRefreshedExactly(s: CoordState, r: OwnedRequest, externalBusy: bool)
    requires Inv(s) && WellFormed(r)
    ensures RefreshesLease(r.version, Admit(s, r, externalBusy).admission) <==>
              r.version == 2 && ((exists i: nat :: KnownAt(s, r, i)) || Decoded(r).Ok?)
  {
    if i: nat :| KnownAt(s, r, i) {
      KnownDecision(s, r, externalBusy, i);
      hide Inv, Admit, Decoded, WellFormed;
    } else {
      NotKnown(s, r);
      if Decoded(r).Err? {
        UndecodableDecision(s, r, externalBusy);
      } else {
        UnknownRejected(s, r, externalBusy);
      }
      hide Inv, Admit, Decoded, WellFormed, New;
    }
  }
}
