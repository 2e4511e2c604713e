/**
 Exact replay and completion at most once, over every history of coordinator calls.
 */
module Replay {
  import opened Types
  import opened Protocol
  import opened Coordinator
  import opened CoordinatorHistory

  predicate IsAt(cache: seq<CacheEntry>, i: int, token: CompletionToken, state: CacheState) {
    0 <= i < |cache| && cache[i].token == token && cache[i].state == state
  }

  ghost predicate Remembers(s: CoordState, token: CompletionToken, state: CacheState) {
    exists i :: IsAt(s.cache, i, token, state)
  }

  ghost predicate Forgotten(s: CoordState, token: CompletionToken) {
    forall i :: 0 <= i < |s.cache| ==> s.cache[i].token != token
  }

  predicate Completes(s: CoordState, call: Call, token: CompletionToken) {
    call.CallComplete? && call.token == token && Complete(s, token, call.response).Ok?
  }

  function After(s: CoordState, call: Call, token: CompletionToken, state: CacheState): CacheState {
    if Completes(s, call, token) then Completed(call.response) else state
  }

  // ---- One call ----

  lemma ActiveIsRemembered(s: CoordState, token: CompletionToken)
    ensures IsActive(s.cache, token) <==> Remembers(s, token, Active)
  {
    if IsActive(s.cache, token) {
      var i :| IsActiveAt(s.cache, i, token);
      assert IsAt(s.cache, i, token, Active);
    }
    if Remembers(s, token, Active) {
      var i :| IsAt(s.cache, i, token, Active);
      assert IsActiveAt(s.cache, i, token);
    }
  }

  lemma OneState(s: CoordState, token: CompletionToken, x: CacheState, y: CacheState)
    requires CacheOk(s) && Remembers(s, token, x) && Remembers(s, token, y)
    ensures x == y
  {
    var i :| IsAt(s.cache, i, token, x);
    var j :| IsAt(s.cache, j, token, y);
  }

  lemma AdmitRemembers(s: CoordState, next: CoordState, token: CompletionToken, state: CacheState)
    requires Extends(s, next) && token.admissionId < s.nextId && Remembers(next, token, state)
    ensures Remembers(s, token, state)
  {
    var i :| IsAt(next.cache, i, token, state);
    assert IsAt(s.cache, i, token, state);
  }

  lemma CompleteRemembers(s: CoordState, call: Call, token: CompletionToken, state: CacheState)
    requires CacheOk(s) && call.CallComplete? && Remembers(Apply(s, call), token, state)
    ensures Remembers(s, token, state) || (Completes(s, call, token) && state == Completed(call.response))
    ensures Completes(s, call, token) ==> state == Completed(call.response)
  {
    if Complete(s, call.token, call.response).Ok? {
      var at := CompleteEffect(s, call.token, call.response);
      hide Complete;
      var i :| IsAt(Apply(s, call).cache, i, token, state);
      if i != at {
        assert IsAt(s.cache, i, token, state);
      }
    }
  }

  /** A token already handed out, if still cached, is in the state it was in, unless this call completed it. */
  lemma StepRemembers(s: CoordState, call: Call, token: CompletionToken, before: CacheState, state: CacheState)
    requires Inv(s) && Legal(call) && token.admissionId < s.nextId
    requires Remembers(s, token, before) && Remembers(Apply(s, call), token, state)
    ensures state == After(s, call, token, before)
  {
    match call
    case CallAdmit(request, externalBusy) =>
      AdmitMeaning(s, request, externalBusy);
      hide Admit;
      AdmitRemembers(s, Apply(s, call), token, state);
      OneState(s, token, before, state);
    case CallComplete(t, response) =>
      CompleteRemembers(s, call, token, state);
      hide Complete;
      if !Completes(s, call, token) {
        OneState(s, token, before, state);
      }
    case CallAbort => OneState(s, token, before, state);
    case CallClear => OneState(s, token, before, state);
  }

  lemma ForgottenIsUnknown(s: CoordState, token: CompletionToken)
    ensures Forgotten(s, token) <==> forall state :: !Remembers(s, token, state)
  {
    if !Forgotten(s, token) {
      var i :| 0 <= i < |s.cache| && s.cache[i].token == token;
      assert IsAt(s.cache, i, token, s.cache[i].state);
      assert Remembers(s, token, s.cache[i].state);
    }
  }

  /** Identifiers are never handed out twice, so what left the cache never comes back. */
  lemma StepForgets(s: CoordState, call: Call, token: CompletionToken)
    requires Inv(s) && Legal(call) && token.admissionId < s.nextId && Forgotten(s, token)
    ensures Forgotten(Apply(s, call), token) && token.admissionId < Apply(s, call).nextId
  {
    match call
    case CallAdmit(request, externalBusy) =>
      AdmitMeaning(s, request, externalBusy);
      hide Admit;
    case CallComplete(t, response) =>
      if Complete(s, t, response).Ok? {
        var at := CompleteEffect(s, t, response);
      }
    case CallAbort =>
    case CallClear =>
  }

  lemma NextIdGrows(s: CoordState, call: Call)
    requires Inv(s) && Legal(call)
    ensures s.nextId <= Apply(s, call).nextId
  {
    if call.CallAdmit? {
      AdmitMeaning(s, call.request, call.externalBusy);
      hide Admit;
    }
  }

  // ---- Whole histories ----

  function FirstResponse(s: CoordState, calls: seq<Call>, token: CompletionToken): Option<CachedResponse>
    decreases |calls|
  {
    if calls == [] then None
    else if Completes(s, calls[0], token) then Some(calls[0].response)
    else FirstResponse(Apply(s, calls[0]), calls[1..], token)
  }

  lemma {:induction false} StaysForgotten(s: CoordState, calls: seq<Call>, token: CompletionToken)
    requires Inv(s) && (forall c :: c in calls ==> Legal(c)) && token.admissionId < s.nextId && Forgotten(s, token)
    ensures Forgotten(ApplyAll(s, calls), token)
    decreases |calls|
  {
    if calls != [] {
      ApplyKeepsInv(s, calls[0]);
      StepForgets(s, calls[0], token);
      hide Apply, Inv, Forgotten;
      StaysForgotten(Apply(s, calls[0]), calls[1..], token);
    }
  }

  lemma CompletedStays(s: CoordState, call: Call, token: CompletionToken, response: CachedResponse)
    requires CacheOk(s) && Remembers(s, token, Completed(response))
    ensures !Completes(s, call, token)
  {
    if Completes(s, call, token) {
      CompleteSucceeds(s, token, call.response);
      ActiveIsRemembered(s, token);
      OneState(s, token, Active, Completed(response));
    }
  }

  /** What the cache says about a token is decided by the first response completed for it. */
  lemma {:induction false} StateOverHistory(s: CoordState, calls: seq<Call>, token: CompletionToken, before: CacheState, state: CacheState)
    requires Inv(s) && (forall c :: c in calls ==> Legal(c)) && token.admissionId < s.nextId
    requires Remembers(s, token, before) && Remembers(ApplyAll(s, calls), token, state)
    ensures state == if before.Completed? then before
                     else match FirstResponse(s, calls, token)
                          case None => Active
                          case Some(response) => Completed(response)
    decreases |calls|
  {
    hide Inv, Apply, Complete;
    if calls == [] {
      RevealCacheOk(s);
      OneState(s, token, before, state);
    } else {
      RevealCacheOk(s);
      var next := Apply(s, calls[0]);
      ApplyKeepsInv(s, calls[0]);
      NextIdGrows(s, calls[0]);
      if Forgotten(next, token) {
        StaysForgotten(next, calls[1..], token);
        ForgottenIsUnknown(ApplyAll(s, calls), token);
        assert false;
      } else {
        ForgottenIsUnknown(next, token);
        var mid :| Remembers(next, token, mid);
        StepRemembers(s, calls[0], token, before, mid);
        if before.Completed? {
          CompletedStays(s, calls[0], token, before.response);
        }
        StateOverHistory(next, calls[1..], token, mid, state);
      }
    }
  }

  lemma RevealCacheOk(s: CoordState)
    requires Inv(s)
    ensures CacheOk(s)
  {
  }

  /** A request reusing a cached sequence is answered from the cache, whatever it is and whoever is busy. */
  lemma CachedAnswer(s: CoordState, token: CompletionToken, state: CacheState, r: OwnedRequest, externalBusy: bool)
    requires Inv(s) && Remembers(s, token, state)
    requires r.kind == ResponseExpected && r.sequence == token.sequence
    ensures Admit(s, r, externalBusy) ==
              Admitted(s, if r.fingerprint != token.fingerprint then Reject(SequenceConflict)
                          else if state == Active then BusyNow(ActiveDuplicate)
                          else Replay(state.response))
  {
    var i :| IsAt(s.cache, i, token, state);
    assert EntryOk(s.cache[i], s.session, s.nextId);
    var found := FindSequence(s.cache, r.sequence, 0);
    assert found == Some(i);
    hide AdmitFresh;
  }

  /**
   Exact replay. Once a request holds a token, then after any history of admissions, completions, batch
   aborts and session resets, every request with its sequence gets the duplicate refusal until the first
   completion, then exactly that response, or a conflict if it is not the same request; unless the entry
   was evicted or the session reset.
   */
  lemma ExactReplay(s: CoordState, token: CompletionToken, calls: seq<Call>, r: OwnedRequest, externalBusy: bool)
    requires Inv(s) && IsActive(s.cache, token) && forall c :: c in calls ==> Legal(c)
    requires r.kind == ResponseExpected && r.sequence == token.sequence
    ensures var end := ApplyAll(s, calls);
            || Forgotten(end, token)
            || Admit(end, r, externalBusy) ==
                 Admitted(end, if r.fingerprint != token.fingerprint then Reject(SequenceConflict)
                               else match FirstResponse(s, calls, token)
                                    case None => BusyNow(ActiveDuplicate)
                                    case Some(response) => Replay(response))
  {
    var end := ApplyAll(s, calls);
    HistoriesKeepInv(s, calls);
    ActiveIsRemembered(s, token);
    var i :| IsActiveAt(s.cache, i, token);
    assert EntryOk(s.cache[i], s.session, s.nextId);
    hide Admit, Inv;
    if !Forgotten(end, token) {
      ForgottenIsUnknown(end, token);
      var state :| Remembers(end, token, state);
      StateOverHistory(s, calls, token, Active, state);
      CachedAnswer(end, token, state, r, externalBusy);
    }
  }

  // ---- At most once ----

  function Completions(s: CoordState, calls: seq<Call>, token: CompletionToken): nat
    decreases |calls|
  {
    if calls == [] then 0
    else (if Completes(s, calls[0], token) then 1 else 0) + Completions(Apply(s, calls[0]), calls[1..], token)
  }

  /** Handed out and no longer active. */
  ghost predicate Spent(s: CoordState, token: CompletionToken) {
    token.admissionId < s.nextId && !IsActive(s.cache, token)
  }

  lemma StepSpends(s: CoordState, call: Call, token: CompletionToken)
    requires Inv(s) && Legal(call)
    ensures Spent(s, token) ==> Spent(Apply(s, call), token) && !Completes(s, call, token)
    ensures Completes(s, call, token) ==> Spent(Apply(s, call), token)
  {
    match call
    case CallAdmit(request, externalBusy) =>
      AdmitMeaning(s, request, externalBusy);
      hide Admit, Inv;
      if Spent(s, token) && IsActive(Apply(s, call).cache, token) {
        ActiveIsRemembered(Apply(s, call), token);
        AdmitRemembers(s, Apply(s, call), token, Active);
        ActiveIsRemembered(s, token);
      }
    case CallComplete(t, response) =>
      CompleteSucceeds(s, t, response);
      if Complete(s, t, response).Ok? {
        var at := CompleteEffect(s, t, response);
        assert EntryOk(s.cache[at], s.session, s.nextId);
      }
    case CallAbort =>
    case CallClear =>
  }

  lemma {:induction false} SpentForGood(s: CoordState, calls: seq<Call>, token: CompletionToken)
    requires Inv(s) && (forall c :: c in calls ==> Legal(c)) && Spent(s, token)
    ensures Completions(s, calls, token) == 0
    decreases |calls|
  {
    if calls != [] {
      ApplyKeepsInv(s, calls[0]);
      StepSpends(s, calls[0], token);
      hide Apply, Inv, Spent, Completes;
      SpentForGood(Apply(s, calls[0]), calls[1..], token);
    }
  }

  /** Over the coordinator's whole life, across sessions, a token is completed at most once. */
  lemma {:induction false} AtMostOneCompletion(s: CoordState, calls: seq<Call>, token: CompletionToken)
    requires Inv(s) && forall c :: c in calls ==> Legal(c)
    ensures Completions(s, calls, token) <= 1
    decreases |calls|
  {
    if calls != [] {
      ApplyKeepsInv(s, calls[0]);
      StepSpends(s, calls[0], token);
      hide Apply, Inv, Spent, Completes;
      if Completes(s, calls[0], token) {
        SpentForGood(Apply(s, calls[0]), calls[1..], token);
      } else {
        AtMostOneCompletion(Apply(s, calls[0]), calls[1..], token);
      }
    }
  }
}
