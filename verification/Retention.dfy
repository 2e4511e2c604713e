/**
 How long the response cache remembers: a floor and a ceiling on the life of an entry,
 and the slot the cache always keeps for STOP_ALL.
 */
module Retention {
  import opened Types
  import opened Protocol
  import opened Coordinator
  import opened CoordinatorHistory
  import opened Replay

  // ---- Ring positions ----

  /** The slot a ring position stands for. */
  function Turn(position: nat): (slot: nat)
    ensures slot < RESPONSE_CACHE_SIZE
  {
    position % RESPONSE_CACHE_SIZE
  }

  lemma TurnSmall(n: nat)
    requires n <= RESPONSE_CACHE_SIZE
    ensures Turn(n) == if n == RESPONSE_CACHE_SIZE then 0 else n
  {
  }

  lemma TurnAdds(x: nat, y: nat, k: nat)
    requires Turn(x) == Turn(y)
    ensures Turn(x + k) == Turn(y + k) && RingIndex(x, k) == Turn(y + k) && Turn(Turn(x)) == Turn(x)
  {
  }

  lemma Elsewhere(base: nat, j: nat)
    requires base < j < base + RESPONSE_CACHE_SIZE
    ensures Turn(j) != Turn(base)
  {
  }

  // ---- Where an admission lands ----

  /** Exactly one slot is rewritten, with a new identifier: the next unused one, or the first completed one after the pointer. */
  ghost predicate InsertsAt(s: CoordState, next: CoordState, at: nat) {
    && at < |next.cache| && next.cache[at].token.admissionId == s.nextId
    && next.nextId == s.nextId + 1 && |s.cache| <= |next.cache|
    && (forall i :: 0 <= i < |s.cache| && i != at ==> next.cache[i] == s.cache[i])
    && if |s.cache| < RESPONSE_CACHE_SIZE
       then at == |s.cache| && |next.cache| == |s.cache| + 1 && next.nextEvict == s.nextEvict
       else
         && |next.cache| == |s.cache| == RESPONSE_CACHE_SIZE && FirstCompleted(s.cache, s.nextEvict, 0).Some?
         && at == RingIndex(s.nextEvict, FirstCompleted(s.cache, s.nextEvict, 0).value)
         && next.nextEvict == Turn(at + 1)
  }

  /** A call either leaves the slots alone or is an insertion, and only STOP_ALL may take the last free slot. */
  ghost predicate Placement(s: CoordState, next: CoordState, admission: Admission) {
    || (next.cache == s.cache && next.nextEvict == s.nextEvict && next.nextId == s.nextId)
    || ((exists at :: InsertsAt(s, next, at)) && (admission.Stop? || ActiveCount(s.cache) < RESPONSE_CACHE_SIZE - 1))
  }

  lemma SlotChoice(s: CoordState, urgent: bool)
    requires |s.cache| <= RESPONSE_CACHE_SIZE && ChooseSlot(s, urgent) != NoSlot
    ensures urgent || ActiveCount(s.cache) < RESPONSE_CACHE_SIZE - 1
    ensures ChooseSlot(s, urgent) ==
              if |s.cache| < RESPONSE_CACHE_SIZE then Append
              else Slot.Replace(RingIndex(s.nextEvict, FirstCompleted(s.cache, s.nextEvict, 0).value))
    ensures |s.cache| < RESPONSE_CACHE_SIZE || FirstCompleted(s.cache, s.nextEvict, 0).Some?
  {
    hide ActiveCount, RingIndex;
  }

  lemma InsertPlaces(s: CoordState, r: OwnedRequest, urgent: bool)
    requires |s.cache| <= RESPONSE_CACHE_SIZE && InsertActive(s, r, urgent).Inserted?
    ensures exists at :: InsertsAt(s, InsertActive(s, r, urgent).state, at)
    ensures urgent || ActiveCount(s.cache) < RESPONSE_CACHE_SIZE - 1
  {
    SlotChoice(s, urgent);
    var slot := ChooseSlot(s, urgent);
    hide FirstCompleted, ActiveCount, ChooseSlot, RingIndex, ExpectedFor;
    var at := if slot == Append then |s.cache| else slot.index;
    assert InsertsAt(s, InsertActive(s, r, urgent).state, at);
  }

  lemma CompletedPlaces(s: CoordState, collecting: CoordState, token: CompletionToken, response: CachedResponse)
    requires CacheOk(collecting) && token.admissionId == s.nextId
    requires exists at :: InsertsAt(s, collecting, at)
    requires forall i :: 0 <= i < |s.cache| ==> s.cache[i].token.admissionId < s.nextId
    requires Complete(collecting, token, response).Ok?
    ensures exists at :: InsertsAt(s, Complete(collecting, token, response).value, at)
  {
    var at :| InsertsAt(s, collecting, at);
    var i := CompleteEffect(collecting, token, response);
    var next := Complete(collecting, token, response).value;
    assert next.nextEvict == collecting.nextEvict;
    hide Complete, FirstCompleted;
    assert i == at;
    assert InsertsAt(s, next, at);
  }

  lemma BeginPlaces(s: CoordState, r: OwnedRequest)
    requires Inv(s) && Insertable(s, r)
    ensures Placement(s, AdmitBatchBegin(s, r).state, AdmitBatchBegin(s, r).admission)
  {
    hide InsertActive, Complete, FirstCompleted, ActiveCount, EntryOk;
    if InsertActive(s, r, false).Inserted? && s.batch == Idle && s.owner.None? {
      InsertPlaces(s, r, false);
      InsertMeaning(s, r, false);
      InsertKeepsInv(s, r, false);
      var inserted := InsertActive(s, r, false).state;
      var at :| InsertsAt(s, inserted, at);
      var collecting := inserted.(batch := Collecting);
      assert InsertsAt(s, collecting, at);
      var response := AckResponse(r.version, r.sequence);
      if Complete(collecting, NewToken(s, r), response).Ok? {
        IdsBelow(s);
        CompletedPlaces(s, collecting, NewToken(s, r), response);
      }
    }
  }

  lemma IdsBelow(s: CoordState)
    requires CacheOk(s)
    ensures forall i :: 0 <= i < |s.cache| ==> s.cache[i].token.admissionId < s.nextId
  {
    forall i | 0 <= i < |s.cache|
      ensures s.cache[i].token.admissionId < s.nextId
    {
      assert EntryOk(s.cache[i], s.session, s.nextId);
    }
  }

  /** Batch and owner fields play no part in where an entry goes. */
  lemma SamePlace(s: CoordState, inserted: CoordState, next: CoordState)
    requires exists at :: InsertsAt(s, inserted, at)
    requires next.cache == inserted.cache && next.nextEvict == inserted.nextEvict && next.nextId == inserted.nextId
    ensures exists at :: InsertsAt(s, next, at)
  {
    var at :| InsertsAt(s, inserted, at);
    hide FirstCompleted;
    assert InsertsAt(s, next, at);
  }

  lemma ClassPlaces(s: CoordState, r: OwnedRequest, requestClass: RequestClass)
    requires Inv(s) && Insertable(s, r)
    ensures Placement(s, AdmitClass(s, r, requestClass).state, AdmitClass(s, r, requestClass).admission)
  {
    if requestClass == ClassBatchBegin {
      BeginPlaces(s, r);
    } else {
      hide InsertActive, AdmitBatchBegin, InsertsAt, ActiveCount;
      var urgent := requestClass == ClassStopAll;
      if InsertActive(s, r, urgent).Inserted? {
        InsertPlaces(s, r, urgent);
        var next := AdmitClass(s, r, requestClass).state;
        if next.nextId != s.nextId {
          SamePlace(s, InsertActive(s, r, urgent).state, next);
        }
      }
    }
  }

  lemma AdmitPlaces(s: CoordState, r: OwnedRequest, externalBusy: bool)
    requires Inv(s) && WellFormed(r)
    ensures Placement(s, Admit(s, r, externalBusy).state, Admit(s, r, externalBusy).admission)
  {
    if r.kind == NoResponseHeartbeat {
      HeartbeatIsBypass(r);
      hide Inv, Decoded, Classify, InsertsAt;
    } else if FindSequence(s.cache, r.sequence, 0).None? {
      if Decoded(r).Ok? {
        hide Decoded;
        var request := r.(body := Decoded(r).value);
        ClassPlaces(s, request, Classify(request.body));
        hide AdmitClass, Inv, Classify, InsertsAt, ActiveCount;
      } else {
        hide InsertsAt, Inv;
      }
    } else {
      hide AdmitFresh, Inv, InsertsAt;
    }
  }

  predicate Inserting(s: CoordState, call: Call) {
    call.CallAdmit? && Apply(s, call).nextId != s.nextId
  }

  /** Successful insertions over a history. */
  function Insertions(s: CoordState, calls: seq<Call>): nat
    decreases |calls|
  {
    if calls == [] then 0
    else (if Inserting(s, calls[0]) then 1 else 0) + Insertions(Apply(s, calls[0]), calls[1..])
  }

  /** Within a session a call that does not insert at most turns one active entry into a completed one. */
  ghost predicate Settles(s: CoordState, next: CoordState) {
    && |next.cache| == |s.cache| && next.nextEvict == s.nextEvict
    && forall i :: 0 <= i < |s.cache| ==>
         && next.cache[i].token == s.cache[i].token
         && (s.cache[i].state.Completed? ==> next.cache[i].state.Completed?)
  }

  lemma StepPlaces(s: CoordState, call: Call)
    requires Inv(s) && Legal(call) && !call.CallClear?
    ensures Inserting(s, call) ==> exists at :: InsertsAt(s, Apply(s, call), at)
    ensures !Inserting(s, call) ==> Settles(s, Apply(s, call))
  {
    match call
    case CallAdmit(request, externalBusy) =>
      AdmitPlaces(s, request, externalBusy);
      hide Admit, Inv, FirstCompleted, ActiveCount;
    case CallComplete(t, response) =>
      if Complete(s, t, response).Ok? {
        var at := CompleteEffect(s, t, response);
      }
    case CallAbort =>
  }

  // ---- Counting around the ring ----

  predicate BusyAt(cache: seq<CacheEntry>, slot: nat) {
    Turn(slot) < |cache| && cache[Turn(slot)].state == Active
  }

  /** Active entries in slots lo to hi of the ring, positions taken modulo its size. */
  function Busy(cache: seq<CacheEntry>, lo: nat, hi: nat): nat
    decreases hi - lo
  {
    if lo >= hi then 0 else (if BusyAt(cache, lo) then 1 else 0) + Busy(cache, lo + 1, hi)
  }

  lemma {:induction false} BusySplit(cache: seq<CacheEntry>, lo: nat, mid: nat, hi: nat)
    requires lo <= mid <= hi
    ensures Busy(cache, lo, hi) == Busy(cache, lo, mid) + Busy(cache, mid, hi)
    decreases mid - lo
  {
    hide BusyAt;
    if lo < mid {
      BusySplit(cache, lo + 1, mid, hi);
    }
  }

  lemma {:induction false} BusyTurn(cache: seq<CacheEntry>, lo: nat, hi: nat)
    ensures Busy(cache, lo + RESPONSE_CACHE_SIZE, hi + RESPONSE_CACHE_SIZE) == Busy(cache, lo, hi)
    decreases hi - lo
  {
    if lo < hi {
      BusyTurn(cache, lo + 1, hi);
    }
  }

  lemma {:induction false} BusyBelow(cache: seq<CacheEntry>, other: seq<CacheEntry>, lo: nat, hi: nat)
    requires forall k :: lo <= k < hi && BusyAt(cache, k) ==> BusyAt(other, k)
    ensures Busy(cache, lo, hi) <= Busy(other, lo, hi)
    decreases hi - lo
  {
    hide BusyAt;
    if lo < hi {
      BusyBelow(cache, other, lo + 1, hi);
    }
  }

  lemma {:induction false} AllBusy(cache: seq<CacheEntry>, lo: nat, hi: nat)
    requires lo <= hi && forall k :: lo <= k < hi ==> BusyAt(cache, k)
    ensures Busy(cache, lo, hi) == hi - lo
    decreases hi - lo
  {
    hide BusyAt;
    if lo < hi {
      AllBusy(cache, lo + 1, hi);
    }
  }

  lemma {:induction false} NoneBusy(cache: seq<CacheEntry>, lo: nat, hi: nat)
    requires |cache| <= lo && hi <= RESPONSE_CACHE_SIZE
    ensures Busy(cache, lo, hi) == 0
    decreases hi - lo
  {
    if lo < hi {
      NoneBusy(cache, lo + 1, hi);
    }
  }

  lemma {:induction false} BusyCountsActive(cache: seq<CacheEntry>, n: nat)
    requires n <= |cache| <= RESPONSE_CACHE_SIZE
    ensures Busy(cache, 0, n) == ActiveCount(cache[..n])
    decreases n
  {
    if n > 0 {
      BusyCountsActive(cache, n - 1);
      BusySplit(cache, 0, n - 1, n);
      assert cache[..n][..n - 1] == cache[..n - 1];
      assert Busy(cache, n - 1, n) == (if BusyAt(cache, n - 1) then 1 else 0) + Busy(cache, n, n);
    }
  }

  lemma WholeRing(cache: seq<CacheEntry>)
    requires |cache| <= RESPONSE_CACHE_SIZE
    ensures Busy(cache, 0, RESPONSE_CACHE_SIZE) == ActiveCount(cache)
  {
    BusyCountsActive(cache, |cache|);
    assert cache[..|cache|] == cache;
    NoneBusy(cache, |cache|, RESPONSE_CACHE_SIZE);
    BusySplit(cache, 0, |cache|, RESPONSE_CACHE_SIZE);
  }

  lemma BusyOne(cache: seq<CacheEntry>, at: nat)
    requires at < |cache| <= RESPONSE_CACHE_SIZE
    ensures Busy(cache, at, at + 1) == if cache[at].state == Active then 1 else 0
  {
    assert Busy(cache, at, at + 1) == (if BusyAt(cache, at) then 1 else 0) + Busy(cache, at + 1, at + 1);
  }

  /** The turn that starts just after a slot and stops just before it sees every other slot. */
  lemma OtherSlots(cache: seq<CacheEntry>, at: nat)
    requires at < |cache| <= RESPONSE_CACHE_SIZE
    ensures Busy(cache, at + 1, at + RESPONSE_CACHE_SIZE) + (if cache[at].state == Active then 1 else 0) == ActiveCount(cache)
  {
    WholeRing(cache);
    BusyOne(cache, at);
    Turns(cache, at, at + 1, RESPONSE_CACHE_SIZE, at + RESPONSE_CACHE_SIZE);
  }

  lemma Turns(cache: seq<CacheEntry>, at: nat, after: nat, n: nat, end: nat)
    requires at < after <= n <= end && n == RESPONSE_CACHE_SIZE && end == at + RESPONSE_CACHE_SIZE
    ensures Busy(cache, after, end) + Busy(cache, at, after) == Busy(cache, 0, n)
  {
    BusySplit(cache, 0, at, n);
    BusySplit(cache, at, after, n);
    BusyTurn(cache, 0, at);
    BusySplit(cache, after, n, end);
    hide Busy;
  }

  // ---- The floor ----

  predicate Sized(s: CoordState) {
    |s.cache| <= RESPONSE_CACHE_SIZE && (|s.cache| < RESPONSE_CACHE_SIZE ==> s.nextEvict == 0)
  }

  function Pointer(s: CoordState): nat {
    if |s.cache| < RESPONSE_CACHE_SIZE then |s.cache| else s.nextEvict
  }

  /** Ring positions from the eviction pointer up to, not including, the slot at. */
  ghost predicate Window(s: CoordState, at: nat, lo: nat, hi: nat) {
    Turn(lo) == Turn(Pointer(s)) && Turn(hi) == at && lo <= hi < lo + RESPONSE_CACHE_SIZE
  }

  /** Slots in front of the entry that an insertion would take first. */
  function Budget(s: CoordState, lo: nat, hi: nat): int {
    hi - lo - Busy(s.cache, lo, hi)
  }

  lemma TakenByAppend(s: CoordState, next: CoordState, at: nat, lo: nat)
    requires Sized(s) && InsertsAt(s, next, at) && |s.cache| < RESPONSE_CACHE_SIZE && Turn(lo) == Turn(Pointer(s))
    ensures at == Turn(lo) && !BusyAt(s.cache, lo) && Turn(lo + 1) == Turn(Pointer(next))
  {
    TurnSmall(|s.cache|);
    TurnSmall(|s.cache| + 1);
    TurnSmall(0);
    TurnAdds(lo, |s.cache|, 1);
    hide Turn;
  }

  lemma SkippedActive(s: CoordState, d: nat)
    requires |s.cache| == RESPONSE_CACHE_SIZE && FirstCompleted(s.cache, s.nextEvict, 0).Some?
    requires d < FirstCompleted(s.cache, s.nextEvict, 0).value
    ensures s.cache[RingIndex(s.nextEvict, d)].state == Active
  {
  }

  lemma TakenByReplacing(s: CoordState, next: CoordState, at: nat, lo: nat, k: nat)
    requires Sized(s) && InsertsAt(s, next, at) && |s.cache| == RESPONSE_CACHE_SIZE && Turn(lo) == Turn(s.nextEvict)
    requires k == FirstCompleted(s.cache, s.nextEvict, 0).value
    ensures at == Turn(lo + k) && Turn(lo + k + 1) == Turn(Pointer(next))
    ensures !BusyAt(s.cache, lo + k) && forall j :: lo <= j < lo + k ==> BusyAt(s.cache, j)
  {
    TurnAdds(s.nextEvict, lo, k);
    TurnSmall(at);
    TurnAdds(at, lo + k, 1);
    assert !BusyAt(s.cache, lo + k);
    hide Turn, RingIndex, FirstCompleted;
    forall j | lo <= j < lo + k
      ensures BusyAt(s.cache, j)
    {
      TurnAdds(s.nextEvict, lo, j - lo);
      SkippedActive(s, j - lo);
    }
  }

  /** The slot an insertion takes, as a ring position: everything it skipped was active. */
  lemma Taken(s: CoordState, next: CoordState, at: nat, lo: nat) returns (k: nat)
    requires Sized(s) && InsertsAt(s, next, at) && Turn(lo) == Turn(Pointer(s))
    ensures at == Turn(lo + k) && Turn(lo + k + 1) == Turn(Pointer(next))
    ensures !BusyAt(s.cache, lo + k) && forall j :: lo <= j < lo + k ==> BusyAt(s.cache, j)
  {
    if |s.cache| < RESPONSE_CACHE_SIZE {
      k := 0;
      TakenByAppend(s, next, at, lo);
    } else {
      k := FirstCompleted(s.cache, s.nextEvict, 0).value;
      hide Turn, BusyAt, FirstCompleted;
      TakenByReplacing(s, next, at, lo, k);
    }
  }

  lemma SpendOne(s: CoordState, next: CoordState, taken: nat, at: nat, lo: nat, hi: nat) returns (lo': nat)
    requires Sized(s) && InsertsAt(s, next, taken) && Window(s, at, lo, hi) && at < |s.cache| && Budget(s, lo, hi) >= 1
    ensures taken != at && Window(next, at, lo', hi) && Budget(next, lo', hi) >= Budget(s, lo, hi) - 1
  {
    var k := Taken(s, next, taken, lo);
    hide FirstCompleted, Sized, Pointer, Turn;
    if hi <= lo + k {
      AllBusy(s.cache, lo, hi);
      assert false;
    }
    BusySplit(s.cache, lo, lo + k, hi);
    AllBusy(s.cache, lo, lo + k);
    lo' := lo + k + 1;
    Elsewhere(lo + k, hi);
    forall j | lo' <= j < hi && BusyAt(next.cache, j)
      ensures BusyAt(s.cache, j)
    {
      Elsewhere(lo + k, j);
    }
    BusyBelow(next.cache, s.cache, lo', hi);
  }

  lemma SpendNone(s: CoordState, next: CoordState, at: nat, lo: nat, hi: nat)
    requires Settles(s, next) && Window(s, at, lo, hi)
    ensures Window(next, at, lo, hi) && Budget(next, lo, hi) >= Budget(s, lo, hi)
  {
    BusyBelow(next.cache, s.cache, lo, hi);
  }

  ghost predicate Keeps(s: CoordState, at: nat, token: CompletionToken) {
    at < |s.cache| && s.cache[at].token == token
  }

  predicate NoClear(calls: seq<Call>) {
    forall c :: c in calls ==> Legal(c) && !c.CallClear?
  }

  lemma {:induction false} OutlivesBudget(s: CoordState, calls: seq<Call>, token: CompletionToken, at: nat, lo: nat, hi: nat)
    requires Inv(s) && NoClear(calls) && Keeps(s, at, token) && Window(s, at, lo, hi)
    requires Insertions(s, calls) <= Budget(s, lo, hi)
    ensures Keeps(ApplyAll(s, calls), at, token)
    decreases |calls|
  {
    if calls != [] {
      var call, rest := calls[0], calls[1..];
      var next := Apply(s, call);
      ApplyKeepsInv(s, call);
      StepPlaces(s, call);
      hide Apply, Budget, Window, InsertsAt;
      if Inserting(s, call) {
        var taken :| InsertsAt(s, next, taken);
        var lo' := SpendOne(s, next, taken, at, lo, hi);
        assert Keeps(next, at, token) by {
          UntouchedElsewhere(s, next, taken, at);
        }
        OutlivesBudget(next, rest, token, at, lo', hi);
      } else {
        SpendNone(s, next, at, lo, hi);
        OutlivesBudget(next, rest, token, at, lo, hi);
      }
    }
  }

  lemma UntouchedElsewhere(s: CoordState, next: CoordState, taken: nat, at: nat)
    requires InsertsAt(s, next, taken) && at < |s.cache| && at != taken
    ensures at < |next.cache| && next.cache[at] == s.cache[at]
  {
    hide FirstCompleted;
  }

  lemma NewestWindow(s: CoordState, next: CoordState, at: nat)
    requires Sized(s) && InsertsAt(s, next, at)
    ensures Window(next, at, at + 1, at + RESPONSE_CACHE_SIZE)
  {
    hide FirstCompleted;
    TurnAdds(Turn(at + 1), at + 1, 0);
    TurnSmall(at);
    assert Turn(at + RESPONSE_CACHE_SIZE) == Turn(at);
  }

  /**
   The floor: an entry inserted while a others were active is still there after any history with at most
   63 - a further insertions.
   */
  lemma RetentionFloor(s: CoordState, next: CoordState, at: nat, calls: seq<Call>)
    requires Inv(s) && Inv(next) && InsertsAt(s, next, at) && NoClear(calls)
    requires var others := ActiveCount(next.cache) - (if next.cache[at].state == Active then 1 else 0);
             Insertions(next, calls) <= RESPONSE_CACHE_SIZE - 1 - others
    ensures Keeps(ApplyAll(next, calls), at, next.cache[at].token)
  {
    hide InsertsAt, Window, Inv, ActiveCount, Busy;
    FloorFacts(s, next, at);
    OtherSlots(next.cache, at);
    OutlivesBudget(next, calls, next.cache[at].token, at, at + 1, at + RESPONSE_CACHE_SIZE);
  }

  lemma FloorFacts(s: CoordState, next: CoordState, at: nat)
    requires Inv(s) && Inv(next) && InsertsAt(s, next, at)
    ensures at < |next.cache| <= RESPONSE_CACHE_SIZE && Window(next, at, at + 1, at + RESPONSE_CACHE_SIZE)
  {
    assert Sized(s) && |next.cache| <= RESPONSE_CACHE_SIZE;
    hide Inv, Window;
    NewestWindow(s, next, at);
    hide InsertsAt;
  }

  // ---- The ceiling ----

  /** Steps of the eviction pointer to reach a slot. */
  function Distance(s: CoordState, at: nat): nat {
    Turn(at + RESPONSE_CACHE_SIZE - Turn(s.nextEvict))
  }

  lemma DistanceCases(s: CoordState, at: nat)
    requires at < RESPONSE_CACHE_SIZE
    ensures Distance(s, at) == at - Turn(s.nextEvict) + if at >= Turn(s.nextEvict) then 0 else RESPONSE_CACHE_SIZE
  {
  }

  lemma RingCases(start: nat, k: nat)
    requires k < RESPONSE_CACHE_SIZE
    ensures RingIndex(start, k) == Turn(start) + k - if Turn(start) + k < RESPONSE_CACHE_SIZE then 0 else RESPONSE_CACHE_SIZE
  {
  }

  lemma DistanceAfter(s: CoordState, next: CoordState, at: nat, k: nat)
    requires at < RESPONSE_CACHE_SIZE && k < Distance(s, at) && next.nextEvict == Turn(RingIndex(s.nextEvict, k) + 1)
    ensures RingIndex(s.nextEvict, Distance(s, at)) == at && Distance(next, at) == Distance(s, at) - k - 1
  {
    var start := Turn(s.nextEvict);
    DistanceCases(s, at);
    DistanceCases(next, at);
    RingCases(s.nextEvict, k);
    RingCases(s.nextEvict, Distance(s, at));
    TurnSmall(RingIndex(s.nextEvict, k) + 1);
    TurnSmall(next.nextEvict);
    hide *;
  }

  lemma DistanceReaches(s: CoordState, at: nat)
    requires at < RESPONSE_CACHE_SIZE
    ensures RingIndex(s.nextEvict, Distance(s, at)) == at
  {
    DistanceCases(s, at);
    RingCases(s.nextEvict, Distance(s, at));
    hide *;
  }

  lemma Replaced(s: CoordState, next: CoordState, taken: nat)
    requires |s.cache| == RESPONSE_CACHE_SIZE && InsertsAt(s, next, taken)
    ensures FirstCompleted(s.cache, s.nextEvict, 0).Some?
    ensures var k := FirstCompleted(s.cache, s.nextEvict, 0).value;
            taken == RingIndex(s.nextEvict, k) && next.nextEvict == Turn(RingIndex(s.nextEvict, k) + 1)
    ensures |next.cache| == RESPONSE_CACHE_SIZE
    ensures forall i :: 0 <= i < RESPONSE_CACHE_SIZE && i != taken ==> next.cache[i] == s.cache[i]
  {
    hide FirstCompleted, RingIndex, Turn;
  }

  lemma Approach(s: CoordState, next: CoordState, taken: nat, at: nat)
    requires |s.cache| == RESPONSE_CACHE_SIZE && InsertsAt(s, next, taken)
    requires at < |s.cache| && s.cache[at].state.Completed? && taken != at
    ensures |next.cache| == RESPONSE_CACHE_SIZE && next.cache[at] == s.cache[at]
    ensures Distance(next, at) < Distance(s, at)
  {
    hide RingIndex, Distance, Turn, FirstCompleted, InsertsAt;
    Replaced(s, next, taken);
    var k := FirstCompleted(s.cache, s.nextEvict, 0).value;
    var d := Distance(s, at);
    DistanceReaches(s, at);
    if d < k {
      SkippedActive(s, d);
      assert false;
    }
    DistanceAfter(s, next, at, k);
  }

  lemma Evicted(s: CoordState, next: CoordState, taken: nat, token: CompletionToken)
    requires CacheOk(s) && InsertsAt(s, next, taken) && Keeps(s, taken, token)
    ensures Forgotten(next, token)
  {
    hide FirstCompleted;
    IdsBelow(s);
    forall i | 0 <= i < |next.cache|
      ensures next.cache[i].token != token
    {
      if i != taken {
        assert next.cache[i] == s.cache[i];
      }
    }
  }

  lemma {:induction false} GoneAfter(s: CoordState, calls: seq<Call>, token: CompletionToken, at: nat)
    requires Inv(s) && NoClear(calls) && |s.cache| == RESPONSE_CACHE_SIZE
    requires Keeps(s, at, token) && s.cache[at].state.Completed?
    requires Insertions(s, calls) > Distance(s, at)
    ensures Forgotten(ApplyAll(s, calls), token)
    decreases |calls|
  {
    var call, rest := calls[0], calls[1..];
    var next := Apply(s, call);
    ApplyKeepsInv(s, call);
    StepPlaces(s, call);
    IdsBelow(s);
    hide Apply, InsertsAt, Distance;
    if Inserting(s, call) {
      var taken :| InsertsAt(s, next, taken);
      if taken == at {
        Evicted(s, next, taken, token);
        NextIdGrows(s, call);
        StaysForgotten(next, rest, token);
      } else {
        Approach(s, next, taken, at);
        GoneAfter(next, rest, token, at);
      }
    } else {
      assert Distance(next, at) == Distance(s, at) by {
        SamePointer(s, next, at);
      }
      GoneAfter(next, rest, token, at);
    }
  }

  lemma SamePointer(s: CoordState, next: CoordState, at: nat)
    requires next.nextEvict == s.nextEvict
    ensures Distance(next, at) == Distance(s, at)
  {
  }

  /** The ceiling: once the cache is full, 64 further insertions remove any completed entry. */
  lemma RetentionCeiling(s: CoordState, calls: seq<Call>, token: CompletionToken, at: nat)
    requires Inv(s) && NoClear(calls) && |s.cache| == RESPONSE_CACHE_SIZE
    requires Keeps(s, at, token) && s.cache[at].state.Completed?
    requires Insertions(s, calls) >= RESPONSE_CACHE_SIZE
    ensures Forgotten(ApplyAll(s, calls), token)
  {
    GoneAfter(s, calls, token, at);
  }

  /** An active entry is never evicted: within a session it stays until its own completion. */
  lemma {:induction false} ActiveNeverEvicted(s: CoordState, calls: seq<Call>, token: CompletionToken)
    requires Inv(s) && NoClear(calls) && IsActive(s.cache, token)
    ensures IsActive(ApplyAll(s, calls).cache, token) <==> FirstResponse(s, calls, token).None?
    decreases |calls|
  {
    if calls != [] {
      var call, rest := calls[0], calls[1..];
      var next := Apply(s, call);
      ApplyKeepsInv(s, call);
      StepSpends(s, call, token);
      if Completes(s, call, token) {
        assert Spent(next, token);
        hide Apply, Inv, Completes;
        StaysSpent(next, rest, token);
      } else {
        StaysActive(s, call, token);
        hide Apply, Inv, Completes;
        ActiveNeverEvicted(next, rest, token);
      }
    }
  }

  lemma StaysActive(s: CoordState, call: Call, token: CompletionToken)
    requires Inv(s) && Legal(call) && !call.CallClear? && IsActive(s.cache, token) && !Completes(s, call, token)
    ensures IsActive(Apply(s, call).cache, token)
  {
    match call
    case CallAdmit(request, externalBusy) =>
      AdmitMeaning(s, request, externalBusy);
      hide Admit;
      var i :| IsActiveAt(s.cache, i, token);
      IdsBelow(s);
      assert IsActiveAt(Apply(s, call).cache, i, token);
    case CallComplete(t, response) =>
      if Complete(s, t, response).Ok? {
        var at := CompleteEffect(s, t, response);
      }
    case CallAbort =>
  }

  lemma {:induction false} StaysSpent(s: CoordState, calls: seq<Call>, token: CompletionToken)
    requires Inv(s) && (forall c :: c in calls ==> Legal(c)) && Spent(s, token)
    ensures Spent(ApplyAll(s, calls), token)
    decreases |calls|
  {
    if calls != [] {
      ApplyKeepsInv(s, calls[0]);
      StepSpends(s, calls[0], token);
      hide Apply, Inv, Spent, Completes;
      StaysSpent(Apply(s, calls[0]), calls[1..], token);
    }
  }

  // ---- The slot kept for STOP_ALL ----

  predicate OrdinaryAt(cache: seq<CacheEntry>, i: nat, stops: set<nat>)
    requires i < |cache|
  {
    cache[i].state == Active && cache[i].token.admissionId !in stops
  }

  /** Active entries not admitted as STOP_ALL, among the first n; stops holds the identifiers of those that were. */
  function Ordinary(cache: seq<CacheEntry>, n: nat, stops: set<nat>): nat
    requires n <= |cache|
  {
    if n == 0 then 0 else Ordinary(cache, n - 1, stops) + if OrdinaryAt(cache, n - 1, stops) then 1 else 0
  }

  function StopsStep(s: CoordState, call: Call, stops: set<nat>): set<nat> {
    if call.CallAdmit? && Admit(s, call.request, call.externalBusy).admission.Stop? then stops + {s.nextId as nat} else stops
  }

  function StopsAfter(s: CoordState, calls: seq<Call>, stops: set<nat>): set<nat>
    decreases |calls|
  {
    if calls == [] then stops else StopsAfter(Apply(s, calls[0]), calls[1..], StopsStep(s, calls[0], stops))
  }

  ghost predicate Reserved(s: CoordState, stops: set<nat>) {
    Inv(s) && Ordinary(s.cache, |s.cache|, stops) < RESPONSE_CACHE_SIZE
  }

  lemma {:induction false} OrdinaryIsActive(cache: seq<CacheEntry>, n: nat, stops: set<nat>)
    requires n <= |cache|
    ensures Ordinary(cache, n, stops) <= ActiveCount(cache[..n])
    ensures Ordinary(cache, n, stops) == n || exists i :: 0 <= i < n && (cache[i].state.Completed? || cache[i].token.admissionId in stops)
  {
    if n > 0 {
      OrdinaryIsActive(cache, n - 1, stops);
      assert cache[..n][..n - 1] == cache[..n - 1];
      if Ordinary(cache, n, stops) != n && Ordinary(cache, n - 1, stops) == n - 1 {
        assert cache[n - 1].state.Completed? || cache[n - 1].token.admissionId in stops;
      }
    }
  }

  lemma {:induction false} OrdinaryBelow(cache: seq<CacheEntry>, other: seq<CacheEntry>, n: nat, stops: set<nat>, others: set<nat>)
    requires n <= |cache| && n <= |other|
    requires forall i :: 0 <= i < n && OrdinaryAt(cache, i, stops) ==> OrdinaryAt(other, i, others)
    ensures Ordinary(cache, n, stops) <= Ordinary(other, n, others)
  {
    hide OrdinaryAt;
    if n > 0 {
      OrdinaryBelow(cache, other, n - 1, stops, others);
    }
  }

  lemma OneMoreActive(s: CoordState, next: CoordState, at: nat)
    requires |s.cache| <= RESPONSE_CACHE_SIZE && |next.cache| <= RESPONSE_CACHE_SIZE && InsertsAt(s, next, at)
    ensures ActiveCount(next.cache) <= ActiveCount(s.cache) + 1
  {
    WholeRing(s.cache);
    WholeRing(next.cache);
    BusyOne(next.cache, at);
    forall k | 0 <= k < RESPONSE_CACHE_SIZE && k != at && BusyAt(next.cache, k)
      ensures BusyAt(s.cache, k)
    {
      TurnSmall(k);
    }
    hide BusyAt, InsertsAt, FirstCompleted, ActiveCount;
    BusyBelow(next.cache, s.cache, 0, at);
    BusyBelow(next.cache, s.cache, at + 1, RESPONSE_CACHE_SIZE);
    SplitAt(s.cache, at);
    SplitAt(next.cache, at);
  }

  lemma SplitAt(cache: seq<CacheEntry>, at: nat)
    requires at < RESPONSE_CACHE_SIZE
    ensures Busy(cache, 0, RESPONSE_CACHE_SIZE) == Busy(cache, 0, at) + Busy(cache, at, at + 1) + Busy(cache, at + 1, RESPONSE_CACHE_SIZE)
  {
    BusySplit(cache, 0, at, RESPONSE_CACHE_SIZE);
    BusySplit(cache, at, at + 1, RESPONSE_CACHE_SIZE);
    hide Busy;
  }

  lemma InsertionReserves(s: CoordState, next: CoordState, at: nat, stops: set<nat>, stop: bool)
    requires Reserved(s, stops) && Inv(next) && InsertsAt(s, next, at)
    requires stop || ActiveCount(s.cache) < RESPONSE_CACHE_SIZE - 1
    ensures Reserved(next, if stop then stops + {s.nextId as nat} else stops)
  {
    hide FirstCompleted, ActiveCount, EntryOk, Distinct;
    if stop {
      var all := stops + {s.nextId as nat};
      OrdinaryBelow(next.cache, s.cache, |s.cache|, all, stops);
    } else {
      OneMoreActive(s, next, at);
      OrdinaryIsActive(next.cache, |next.cache|, stops);
      assert next.cache[..|next.cache|] == next.cache;
    }
  }

  lemma SettlingReserves(s: CoordState, next: CoordState, stops: set<nat>)
    requires Reserved(s, stops) && Inv(next) && Settles(s, next)
    ensures Reserved(next, stops)
  {
    hide Inv;
    OrdinaryBelow(next.cache, s.cache, |s.cache|, stops, stops);
  }

  lemma StepReserves(s: CoordState, call: Call, stops: set<nat>)
    requires Reserved(s, stops) && Legal(call)
    ensures Reserved(Apply(s, call), StopsStep(s, call, stops))
  {
    ApplyKeepsInv(s, call);
    if !call.CallClear? {
      StepPlaces(s, call);
      if call.CallAdmit? {
        AdmitPlaces(s, call.request, call.externalBusy);
        AdmitMeaning(s, call.request, call.externalBusy);
      }
      var next := Apply(s, call);
      hide Admit, Complete, Reserved, Inv, InsertsAt, Settles, ActiveCount;
      if Inserting(s, call) {
        var at :| InsertsAt(s, next, at);
        InsertionReserves(s, next, at, stops, Admit(s, call.request, call.externalBusy).admission.Stop?);
      } else {
        SettlingReserves(s, next, stops);
      }
    }
  }

  lemma {:induction false} HistoriesReserve(s: CoordState, calls: seq<Call>, stops: set<nat>)
    requires Reserved(s, stops) && forall c :: c in calls ==> Legal(c)
    ensures Reserved(ApplyAll(s, calls), StopsAfter(s, calls, stops))
    decreases |calls|
  {
    if calls != [] {
      StepReserves(s, calls[0], stops);
      hide Apply, Reserved, StopsStep;
      HistoriesReserve(Apply(s, calls[0]), calls[1..], StopsStep(s, calls[0], stops));
    }
  }

  lemma FullMeansActive(s: CoordState)
    requires |s.cache| == RESPONSE_CACHE_SIZE && FirstCompleted(s.cache, s.nextEvict, 0).None?
    ensures forall i :: 0 <= i < |s.cache| ==> s.cache[i].state == Active
  {
    forall i | 0 <= i < |s.cache|
      ensures s.cache[i].state == Active
    {
      DistanceReaches(s, i);
      assert s.cache[RingIndex(s.nextEvict, Distance(s, i))].state == Active;
    }
  }

  lemma RoomForStop(s: CoordState, stops: set<nat>, r: OwnedRequest)
    requires |s.cache| <= RESPONSE_CACHE_SIZE && Ordinary(s.cache, |s.cache|, stops) < RESPONSE_CACHE_SIZE
    requires AdmitStop(s, r).admission.BusyNow? && s.nextId + 1 < U64_LIMIT
    ensures |s.cache| == RESPONSE_CACHE_SIZE
    ensures forall i :: 0 <= i < |s.cache| ==> s.cache[i].state == Active
    ensures exists i :: 0 <= i < |s.cache| && s.cache[i].token.admissionId in stops
  {
    hide AdmitStop, FirstCompleted, Ordinary;
    StopRefused(s, r);
    FullMeansActive(s);
    OrdinaryIsActive(s.cache, |s.cache|, stops);
  }

  /**
   Over every history, at most 63 active entries are not STOP_ALLs. So a fresh STOP_ALL finds no room only
   when all 64 slots are active and one of them already is a STOP_ALL.
   */
  lemma StopAlwaysHasRoom(calls: seq<Call>, r: OwnedRequest)
    requires forall c :: c in calls ==> Legal(c)
    ensures var s, stops := ApplyAll(INITIAL, calls), StopsAfter(INITIAL, calls, {});
            && Ordinary(s.cache, |s.cache|, stops) <= RESPONSE_CACHE_SIZE - 1
            && (AdmitStop(s, r).admission.BusyNow? && s.nextId + 1 < U64_LIMIT ==>
                  && |s.cache| == RESPONSE_CACHE_SIZE
                  && (forall i :: 0 <= i < |s.cache| ==> s.cache[i].state == Active)
                  && exists i :: 0 <= i < |s.cache| && s.cache[i].token.admissionId in stops)
  {
    InitialReserve();
    hide Reserved, AdmitStop, ApplyAll, StopsAfter, Ordinary;
    HistoriesReserve(INITIAL, calls, {});
    var s, stops := ApplyAll(INITIAL, calls), StopsAfter(INITIAL, calls, {});
    ReservedRoom(s, stops);
    if AdmitStop(s, r).admission.BusyNow? && s.nextId + 1 < U64_LIMIT {
      RoomForStop(s, stops, r);
    }
  }

  lemma InitialReserve()
    ensures Reserved(INITIAL, {})
  {
    InitialInv();
  }

  lemma ReservedRoom(s: CoordState, stops: set<nat>)
    requires Reserved(s, stops)
    ensures |s.cache| <= RESPONSE_CACHE_SIZE && Ordinary(s.cache, |s.cache|, stops) < RESPONSE_CACHE_SIZE
  {
  }

  lemma StopRefused(s: CoordState, r: OwnedRequest)
    requires |s.cache| <= RESPONSE_CACHE_SIZE && AdmitStop(s, r).admission.BusyNow? && s.nextId + 1 < U64_LIMIT
    ensures |s.cache| == RESPONSE_CACHE_SIZE && FirstCompleted(s.cache, s.nextEvict, 0).None?
  {
    hide FirstCompleted, ActiveCount, RingIndex, NewToken;
    assert ChooseSlot(s, true) == NoSlot;
  }
}
