/**
 Walking a map one entry at a time, in any order, arrives at the order-free state of RuntimeSpec.
 These lemmas carry the loops of module Runtime from one iteration to the next.
 */
module RuntimeOrder {
  import opened Messages
  import opened RuntimeSpec
  import opened RuntimeInvariants

  lemma ReleaseAdds(w: Worker, a: nat, b: nat, capacity: nat)
    ensures Release(Release(w, a, capacity), b, capacity) == Release(w, a + b, capacity)
  {
    hide RequestShutdown;
    if w.state == Draining && w.inFlight > 0 {
      RequestedIdle(w.(inFlight := 0), capacity);
    }
  }

  lemma RequestedIdle(w: Worker, capacity: nat)
    ensures RequestShutdown(w, capacity).inFlight == w.inFlight && RequestShutdown(w, capacity).state == w.state
  {
  }

  // ----- filling and finishing one more request

  lemma UsingMore(fp: map<nat, Request>, fq: map<nat, Request>, fu: map<nat, Request>, done: set<nat>, more: set<nat>, k: WorkerKey)
    requires done !! more && more <= fu.Keys
    requires forall i | i in done :: i in fp && i in fq && fp[i] == fq[i]
    requires forall i | i in fu :: i in fq && fu[i] == fq[i]
    ensures |Using(fq, done + more, k)| == |Using(fp, done, k)| + |Using(fu, more, k)|
  {
    assert Using(fq, done + more, k) == Using(fp, done, k) + Using(fu, more, k);
    assert Using(fp, done, k) !! Using(fu, more, k);
  }

  lemma RepliesMore(fp: map<nat, Request>, fq: map<nat, Request>, fu: map<nat, Request>, done: set<nat>, more: set<nat>)
    requires done <= fp.Keys && done !! more && more <= fu.Keys
    requires forall i | i in done :: i in fq && fp[i] == fq[i]
    requires forall i | i in fu :: i in fq && fu[i] == fq[i]
    ensures RepliesTo(fq, done + more) == RepliesTo(fp, done) + RepliesTo(fu, more)
  {
    hide Answered;
    forall n | n in RepliesTo(fq, done + more) ensures n in RepliesTo(fp, done) + RepliesTo(fu, more) {
      var i :| i in done + more && i in fq && n == Send(fq[i].reply, Answered(i, fq[i]));
      assert i in done ==> n in RepliesTo(fp, done);
      assert i in more ==> n in RepliesTo(fu, more);
    }
  }

  lemma ClosedMore(fp: map<nat, Request>, fq: map<nat, Request>, fu: map<nat, Request>, done: set<nat>, more: set<nat>)
    requires done <= fp.Keys && done !! more && more <= fu.Keys
    requires forall i | i in done :: i in fq && fp[i] == fq[i]
    requires forall i | i in fu :: i in fq && fu[i] == fq[i]
    ensures Closed(fq, done + more) == Closed(fp, done) + Closed(fu, more)
  {
  }

  lemma WithoutMore(fq: map<nat, Request>, fu: map<nat, Request>, done: set<nat>, more: set<nat>)
    requires done <= fq.Keys && fu.Keys == fq.Keys - done
    requires forall i | i in fu :: fu[i] == fq[i]
    ensures Without(fq, done + more) == Without(fu, more)
  {
  }

  lemma FinishFields(f: State, done: set<nat>)
    ensures var t := Finish(f, done);
            && t.requests == Without(f.requests, done)
            && t.sends == f.sends + RepliesTo(f.requests, done)
            && t.completed == f.completed + Closed(f.requests, done)
  {
  }

  lemma SetsAssociate<T>(a: set<T>, b: set<T>, c: set<T>)
    ensures a + (b + c) == (a + b) + c
  {
  }

  lemma MapsAssociate<K, V>(a: map<K, V>, b: map<K, V>, c: map<K, V>)
    ensures a + (b + c) == (a + b) + c
  {
  }

  /** Finishing `done` and then `more`, against finishing them together: requests and history. */
  lemma FinishMore(fp: State, fq: State, fu: State, done: set<nat>, more: set<nat>)
    requires done <= fp.requests.Keys == fq.requests.Keys && done !! more
    requires fu.requests.Keys == fp.requests.Keys - done && more <= fu.requests.Keys
    requires forall i | i in done :: fp.requests[i] == fq.requests[i]
    requires forall i | i in fu.requests :: fu.requests[i] == fq.requests[i]
    requires fp.completed == fq.completed && fu.completed == Finish(fp, done).completed
    ensures var whole := Finish(fq, done + more); var step := Finish(fu, more);
            whole.requests == step.requests && whole.completed == step.completed
    ensures RepliesTo(fq.requests, done + more) == RepliesTo(fp.requests, done) + RepliesTo(fu.requests, more)
  {
    RepliesMore(fp.requests, fq.requests, fu.requests, done, more);
    ClosedMore(fp.requests, fq.requests, fu.requests, done, more);
    WithoutMore(fq.requests, fu.requests, done, more);
    hide Release, Using, RepliesTo, Closed, Without;
    FinishFields(fp, done);
    FinishFields(fq, done + more);
    FinishFields(fu, more);
    hide Finish;
    MapsAssociate(fp.completed, Closed(fp.requests, done), Closed(fu.requests, more));
  }

  lemma StepFills(s: State, ids: set<nat>, keys: set<WorkerKey>, cause: Cause, done: set<nat>, id: nat)
    requires done <= ids <= s.requests.Keys && id in s.requests && id !in ids
    ensures var u := FillFinish(s, ids, keys, cause, done);
            var fp := Fill(s, ids, keys, cause).requests;
            var fq := Fill(s, ids + {id}, keys, cause).requests;
            var fu := Fill(u, {id}, keys, cause).requests;
            && id in u.requests && u.requests[id] == s.requests[id]
            && u.requests.Keys == s.requests.Keys - done && fu.Keys == u.requests.Keys
            && fp.Keys == s.requests.Keys && fq.Keys == s.requests.Keys
            && (forall i | i in ids :: fp[i] == fq[i])
            && (forall i | i in fu :: fu[i] == fq[i])
            && u.capacity == s.capacity && u.workers.Keys == s.workers.Keys
  {
    hide FillResults, Entry, Release, Using, Answered;
  }

  lemma FinishWorker(f: State, done: set<nat>, k: WorkerKey)
    requires k in f.workers
    ensures k in Finish(f, done).workers
    ensures Finish(f, done).workers[k] == Release(f.workers[k], |Using(f.requests, done, k)|, f.capacity)
  {
    hide Release, Using, RepliesTo, Closed, Without;
  }

  lemma StepWorker(s: State, ids: set<nat>, keys: set<WorkerKey>, cause: Cause, done: set<nat>, id: nat, more: set<nat>, k: WorkerKey)
    requires done <= ids <= s.requests.Keys && id in s.requests && id !in ids && k in s.workers && more <= {id}
    ensures var u := FillFinish(s, ids, keys, cause, done);
            k in u.workers
            && Release(s.workers[k], |Using(Fill(s, ids + {id}, keys, cause).requests, done + more, k)|, s.capacity)
               == Release(u.workers[k], |Using(Fill(u, {id}, keys, cause).requests, more, k)|, u.capacity)
  {
    hide Release, Using, FillResults, Entry;
    StepFills(s, ids, keys, cause, done, id);
    var f := Fill(s, ids, keys, cause);
    var u := FillFinish(s, ids, keys, cause, done);
    var fq := Fill(s, ids + {id}, keys, cause).requests;
    var fu := Fill(u, {id}, keys, cause).requests;
    FinishWorker(f, done, k);
    assert f.workers == s.workers && f.capacity == s.capacity && u == Finish(f, done);
    hide Fill, FillFinish, Finish;
    assert done !! more && more <= fu.Keys;
    UsingMore(f.requests, fq, fu, done, more, k);
    ReleaseAdds(s.workers[k], |Using(f.requests, done, k)|, |Using(fu, more, k)|, s.capacity);
  }

  lemma StepWorkers(s: State, ids: set<nat>, keys: set<WorkerKey>, cause: Cause, done: set<nat>, id: nat, more: set<nat>)
    requires done <= ids <= s.requests.Keys && id in s.requests && id !in ids && more <= {id}
    requires more <= s.requests.Keys - done
    ensures FillFinish(s, ids + {id}, keys, cause, done + more).workers
            == Finish(Fill(FillFinish(s, ids, keys, cause, done), {id}, keys, cause), more).workers
  {
    hide Release, Using, FillResults, Entry, RepliesTo, Closed;
    var whole := FillFinish(s, ids + {id}, keys, cause, done + more);
    var step := Finish(Fill(FillFinish(s, ids, keys, cause, done), {id}, keys, cause), more);
    forall k | k in s.workers ensures whole.workers[k] == step.workers[k] {
      StepWorker(s, ids, keys, cause, done, id, more, k);
    }
  }

  /** One more request filled, and finished if it is in `more`. */
  lemma FillFinishStep(s: State, ids: set<nat>, keys: set<WorkerKey>, cause: Cause, done: set<nat>, id: nat, more: set<nat>)
    requires done <= ids <= s.requests.Keys && id in s.requests && id !in ids && more <= {id}
    ensures var u := FillFinish(s, ids, keys, cause, done);
            id in u.requests && u.requests[id] == s.requests[id]
            && FillFinish(s, ids + {id}, keys, cause, done + more) == FillFinish(u, {id}, keys, cause, more)
  {
    var u := FillFinish(s, ids, keys, cause, done);
    var fp := Fill(s, ids, keys, cause);
    var fu := Fill(u, {id}, keys, cause);
    StepFills(s, ids, keys, cause, done, id);
    StepWorkers(s, ids, keys, cause, done, id, more);
    hide FillResults, Entry, Release, Using, RepliesTo, Closed;
    FinishMore(fp, Fill(s, ids + {id}, keys, cause), fu, done, more);
    SetsAssociate(s.sends, RepliesTo(fp.requests, done), RepliesTo(fu.requests, more));
  }

  lemma FillNone(results: map<WorkerKey, Message>, keys: set<WorkerKey>, m: Message)
    requires !Touches(results, keys)
    ensures FillResults(results, keys, m) == results
  {
  }

  /** Filling and finishing nothing changes nothing. */
  lemma FillFinishNothing(s: State, ids: set<nat>, keys: set<WorkerKey>, cause: Cause)
    requires forall id | id in ids && id in s.requests :: !Touches(s.requests[id].results, keys)
    ensures FillFinish(s, ids, keys, cause, {}) == s
  {
    var f := Fill(s, ids, keys, cause);
    forall id | id in s.requests ensures f.requests[id] == s.requests[id] {
      if id in ids {
        FillNone(s.requests[id].results, keys, Entry(cause, id));
      }
    }
    assert f.requests == s.requests;
    hide FillResults, Touches, Entry;
    assert forall k :: Using(f.requests, {}, k) == {};
    assert FillFinish(s, ids, keys, cause, {}).workers == s.workers;
  }

  /** Settling one more request. */
  lemma SettleStep(s: State, ids: set<nat>, keys: set<WorkerKey>, cause: Cause, id: nat)
    requires ids <= s.requests.Keys && id in s.requests && id !in ids
    ensures id in Settle(s, ids, keys, cause).requests && Settle(s, ids, keys, cause).requests[id] == s.requests[id]
    ensures Settle(s, ids + {id}, keys, cause) == Settle(Settle(s, ids, keys, cause), {id}, keys, cause)
  {
    var done := Ready(s.requests, ids, keys);
    var more := Ready(s.requests, {id}, keys);
    FillFinishStep(s, ids, keys, cause, done, id, more);
    var u := Settle(s, ids, keys, cause);
    assert Ready(s.requests, ids + {id}, keys) == done + more by { hide Touches, AllAnswered, FillResults; }
    assert Ready(u.requests, {id}, keys) == more by { hide Touches, AllAnswered, FillResults; }
    hide Ready;
  }

  /** What settling a single entry does. */
  lemma SettleOne(s: State, id: nat, k: WorkerKey, cause: Cause)
    requires id in s.requests && !Pending(Entry(cause, id))
    ensures var r := s.requests[id].results;
            if k in r && Pending(r[k]) then
              var f := s.(requests := s.requests[id := s.requests[id].(results := r[k := Entry(cause, id)])]);
              Settle(s, {id}, {k}, cause) == if AllAnswered(f.requests[id].results) then Finish(f, {id}) else f
            else Settle(s, {id}, {k}, cause) == s
  {
    var r := s.requests[id].results;
    if k in r && Pending(r[k]) {
      var f := s.(requests := s.requests[id := s.requests[id].(results := r[k := Entry(cause, id)])]);
      assert FillResults(r, {k}, Entry(cause, id)) == r[k := Entry(cause, id)];
      assert Fill(s, {id}, {k}, cause).requests == f.requests;
      FillPending(r, {k}, Entry(cause, id));
      FillPending(r, {k}, Command(TypeScanResult));
      assert Touches(r, {k});
      hide FillResults, AllAnswered, Touches, Entry;
      if !AllAnswered(f.requests[id].results) {
        assert Ready(s.requests, {id}, {k}) == {};
        FinishNothing(f);
      } else {
        assert Ready(s.requests, {id}, {k}) == {id};
      }
    } else {
      assert !Touches(r, {k});
      assert Ready(s.requests, {id}, {k}) == {};
      FillFinishNothing(s, {id}, {k}, cause);
    }
  }

  lemma FinishNothing(s: State)
    ensures Finish(s, {}) == s
  {
    assert forall k :: Using(s.requests, {}, k) == {};
    assert Finish(s, {}).workers == s.workers;
  }

  // ----- failing one more worker

  lemma FillTwice(results: map<WorkerKey, Message>, keys: set<WorkerKey>, k: WorkerKey, m: Message)
    requires !Pending(m)
    ensures FillResults(FillResults(results, keys, m), {k}, m) == FillResults(results, keys + {k}, m)
    ensures AllAnswered(FillResults(results, keys, m)) ==> FillResults(results, keys, m) == FillResults(results, keys + {k}, m)
  {
    var f := FillResults(results, keys, m);
    if AllAnswered(f) {
      forall j | j in results ensures f[j] == FillResults(results, keys + {k}, m)[j] {
        assert !Pending(f[j]);
      }
    }
  }

  lemma ReadyTwice(requests: map<nat, Request>, keys: set<WorkerKey>, k: WorkerKey, id: nat, m: Message)
    requires id in requests && !Pending(m) && !AllAnswered(requests[id].results)
    ensures var r := requests[id].results; var f := FillResults(r, keys, m);
            AllAnswered(FillResults(r, keys + {k}, m)) <==> AllAnswered(f) || AllAnswered(FillResults(f, {k}, m))
  {
    FillTwice(requests[id].results, keys, k, m);
    var f := FillResults(requests[id].results, keys, m);
    if AllAnswered(f) {
      FillPending(f, {k}, m);
    }
    hide FillResults, AllAnswered;
  }

  lemma ReadyWhen(requests: map<nat, Request>, ids: set<nat>, keys: set<WorkerKey>, id: nat, m: Message)
    requires id in ids && id in requests && !Pending(m) && !AllAnswered(requests[id].results)
    ensures id in Ready(requests, ids, keys) <==> AllAnswered(FillResults(requests[id].results, keys, m))
  {
    FillPending(requests[id].results, keys, m);
    FillPending(requests[id].results, keys, Command(TypeScanResult));
    hide FillResults, AllAnswered, Touches;
  }

  lemma SettleRequests(s: State, ids: set<nat>, keys: set<WorkerKey>, cause: Cause)
    ensures Settle(s, ids, keys, cause).requests == Without(Fill(s, ids, keys, cause).requests, Ready(s.requests, ids, keys))
  {
    hide Without, Fill, Ready, Release;
  }

  /** The requests after failing `keys`, after then failing k, and after failing both at once. */
  lemma FailFills(s: State, keys: set<WorkerKey>, k: WorkerKey, reason: string)
    requires RequestsOk(s)
    ensures var all := s.requests.Keys;
            var cause := Unavailable(reason);
            var u := Settle(s, all, keys, cause);
            var f1 := Fill(s, all, keys, cause).requests;
            var fA := Fill(s, all, keys + {k}, cause).requests;
            var f2 := Fill(u, u.requests.Keys, {k}, cause).requests;
            var r1 := Ready(s.requests, all, keys);
            var r2 := Ready(u.requests, u.requests.Keys, {k});
            && Ready(s.requests, all, keys + {k}) == r1 + r2 && r1 !! r2
            && r1 <= f1.Keys == fA.Keys == all && f2.Keys == all - r1 && r2 <= f2.Keys
            && (forall i | i in r1 :: f1[i] == fA[i])
            && (forall i | i in f2 :: f2[i] == fA[i])
  {
    var all := s.requests.Keys;
    var cause := Unavailable(reason);
    var u := Settle(s, all, keys, cause);
    hide Settle, FillResults, Entry, Touches, AllAnswered, RequestsOk, Ready;
    SettleRequests(s, all, keys, cause);
    ReadyIds(s.requests, all, keys);
    ReadyIds(s.requests, all, keys + {k});
    ReadyIds(u.requests, u.requests.Keys, {k});
    forall i | i in all
      ensures i in Ready(s.requests, all, keys + {k}) <==>
              i in Ready(s.requests, all, keys) || i in Ready(u.requests, u.requests.Keys, {k})
      ensures i in Ready(s.requests, all, keys) ==> Fill(s, all, keys, cause).requests[i] == Fill(s, all, keys + {k}, cause).requests[i]
      ensures i in Fill(u, u.requests.Keys, {k}, cause).requests ==>
                Fill(u, u.requests.Keys, {k}, cause).requests[i] == Fill(s, all, keys + {k}, cause).requests[i]
    {
      FailFill(s, keys, k, reason, i);
    }
  }

  lemma FailFill(s: State, keys: set<WorkerKey>, k: WorkerKey, reason: string, i: nat)
    requires RequestsOk(s) && i in s.requests
    ensures var all := s.requests.Keys;
            var cause := Unavailable(reason);
            var u := Settle(s, all, keys, cause);
            var f1 := Fill(s, all, keys, cause).requests;
            var fA := Fill(s, all, keys + {k}, cause).requests;
            var f2 := Fill(u, u.requests.Keys, {k}, cause).requests;
            var r1 := Ready(s.requests, all, keys);
            var r2 := Ready(u.requests, u.requests.Keys, {k});
            && (i in Ready(s.requests, all, keys + {k}) <==> i in r1 || i in r2)
            && (i in r1 ==> f1[i] == fA[i])
            && (i !in r1 ==> i in f2 && f2[i] == fA[i])
  {
    var all := s.requests.Keys;
    var cause := Unavailable(reason);
    var m := Entry(cause, i);
    var r := s.requests[i].results;
    var f := FillResults(r, keys, m);
    assert RequestOk(s.workers.Keys, s.nextRequestID, i, s.requests[i]);
    hide AnswersOk, FillResults, AllAnswered, Entry, Touches, Answered, Release, Using, RepliesTo, Closed;
    FillTwice(r, keys, k, m);
    ReadyWhen(s.requests, all, keys, i, m);
    ReadyWhen(s.requests, all, keys + {k}, i, m);
    ReadyTwice(s.requests, keys, k, i, m);
    var u := Settle(s, all, keys, cause);
    if i !in Ready(s.requests, all, keys) {
      assert u.requests[i] == s.requests[i].(results := f);
      ReadyWhen(u.requests, u.requests.Keys, {k}, i, m);
    }
  }

  lemma MarkCommutes(w: Worker, n: nat, capacity: nat, reason: string)
    requires w.state == Active
    ensures MarkFailed(Release(w, n, capacity), reason) == Release(MarkFailed(w, reason), n, capacity)
    ensures Release(w, n, capacity).state == Active && HeldBy(Release(w, n, capacity)) == HeldBy(w)
  {
  }

  lemma FailureSendsMore(v: map<WorkerKey, Worker>, u: map<WorkerKey, Worker>, keys: set<WorkerKey>, k: WorkerKey, reason: string)
    requires k in v && k in u && HeldBy(u[k]) == HeldBy(v[k])
    ensures FailureSends(v, keys + {k}, reason) == FailureSends(v, keys, reason) + FailureSends(u, {k}, reason)
  {
    hide HeldBy;
    forall n | n in FailureSends(v, keys + {k}, reason)
      ensures n in FailureSends(v, keys, reason) + FailureSends(u, {k}, reason)
    {
      var j, c :| j in keys + {k} && j in v && c in HeldBy(v[j]) && n == Send(c, Err(reason));
      assert j in keys ==> n in FailureSends(v, keys, reason);
      assert j == k ==> n in FailureSends(u, {k}, reason);
    }
  }

  lemma MarkRequests(s: State, keys: set<WorkerKey>, reason: string)
    ensures var m := Mark(s, keys, reason);
            && m.requests == s.requests && m.completed == s.completed && m.capacity == s.capacity
            && m.sends == s.sends + FailureSends(s.workers, keys, reason) && m.active == Unroute(s.active, keys)
            && m.nextRequestID == s.nextRequestID && m.stopReply == s.stopReply && m.phase == s.phase
            && m.workers.Keys == s.workers.Keys
            && (forall k | k in s.workers ::
                  m.workers[k] == if k in keys then MarkFailed(s.workers[k], reason) else s.workers[k])
  {
    hide FailureSends, Unroute, MarkFailed;
  }

  lemma FillRequests(s: State, ids: set<nat>, keys: set<WorkerKey>, cause: Cause)
    ensures var f := Fill(s, ids, keys, cause);
            f == s.(requests := f.requests) && f.requests.Keys == s.requests.Keys
    ensures forall t: State :: t.requests == s.requests ==> Fill(t, ids, keys, cause).requests == Fill(s, ids, keys, cause).requests
  {
    hide FillResults, Entry;
  }

  /** The three steps of failing workers, by field. */
  lemma FailAllFields(s: State, keys: set<WorkerKey>, reason: string)
    ensures var t := FailAll(s, keys, reason);
            var f := Fill(s, s.requests.Keys, keys, Unavailable(reason)).requests;
            var done := Ready(s.requests, s.requests.Keys, keys);
            && t.requests == Without(f, done)
            && t.sends == s.sends + FailureSends(s.workers, keys, reason) + RepliesTo(f, done)
            && t.completed == s.completed + Closed(f, done)
            && t.active == Unroute(s.active, keys) && t.capacity == s.capacity
            && t.nextRequestID == s.nextRequestID && t.stopReply == s.stopReply && t.phase == s.phase
            && t.workers.Keys == s.workers.Keys
            && (forall k | k in s.workers :: t.workers[k] ==
                  Release(if k in keys then MarkFailed(s.workers[k], reason) else s.workers[k], |Using(f, done, k)|, s.capacity))
  {
    var m := Mark(s, keys, reason);
    MarkRequests(s, keys, reason);
    FillRequests(m, m.requests.Keys, keys, Unavailable(reason));
    FillRequests(s, s.requests.Keys, keys, Unavailable(reason));
    hide Mark, Fill, Ready, FailureSends, Unroute, MarkFailed, Without, RepliesTo, Closed, Using, Release;
  }


  lemma FailAllBooks(s: State, keys: set<WorkerKey>, reason: string)
    ensures var t := FailAll(s, keys, reason);
            var f := Fill(s, s.requests.Keys, keys, Unavailable(reason)).requests;
            var done := Ready(s.requests, s.requests.Keys, keys);
            && t.requests == Without(f, done)
            && t.sends == s.sends + FailureSends(s.workers, keys, reason) + RepliesTo(f, done)
            && t.completed == s.completed + Closed(f, done)
            && t.active == Unroute(s.active, keys) && t.capacity == s.capacity
            && t.nextRequestID == s.nextRequestID && t.stopReply == s.stopReply && t.phase == s.phase
            && t.workers.Keys == s.workers.Keys
  {
    FailAllFields(s, keys, reason);
    hide FailAll;
  }

  lemma FailAllWorker(s: State, keys: set<WorkerKey>, reason: string, j: WorkerKey)
    requires j in s.workers
    ensures j in FailAll(s, keys, reason).workers
    ensures FailAll(s, keys, reason).workers[j] ==
            Release(if j in keys then MarkFailed(s.workers[j], reason) else s.workers[j],
                    |Using(Fill(s, s.requests.Keys, keys, Unavailable(reason)).requests,
                           Ready(s.requests, s.requests.Keys, keys), j)|, s.capacity)
  {
    FailAllFields(s, keys, reason);
    hide FailAll;
  }

  /** FailFills, told of FailAll. */
  lemma FailStepFills(s: State, keys: set<WorkerKey>, k: WorkerKey, reason: string)
    requires RequestsOk(s)
    ensures var all := s.requests.Keys;
            var cause := Unavailable(reason);
            var u := FailAll(s, keys, reason);
            var f1 := Fill(s, all, keys, cause).requests;
            var fA := Fill(s, all, keys + {k}, cause).requests;
            var f2 := Fill(u, u.requests.Keys, {k}, cause).requests;
            var r1 := Ready(s.requests, all, keys);
            var r2 := Ready(u.requests, u.requests.Keys, {k});
            && Ready(s.requests, all, keys + {k}) == r1 + r2 && r1 !! r2
            && r1 <= f1.Keys == fA.Keys == all && f2.Keys == all - r1 && r2 <= f2.Keys
            && (forall i | i in r1 :: f1[i] == fA[i])
            && (forall i | i in f2 :: f2[i] == fA[i])
  {
    var v := Settle(s, s.requests.Keys, keys, Unavailable(reason));
    var u := FailAll(s, keys, reason);
    FailFills(s, keys, k, reason);
    FailAllFields(s, keys, reason);
    SettleRequests(s, s.requests.Keys, keys, Unavailable(reason));
    FillRequests(v, v.requests.Keys, {k}, Unavailable(reason));
    hide FailAll, Settle, Fill, Ready, RequestsOk, Without;
  }

  lemma FailStepWorker(w: Worker, a: nat, b: nat, capacity: nat, reason: string)
    requires w.state == Active
    ensures Release(MarkFailed(w, reason), a + b, capacity) == Release(MarkFailed(Release(w, a, capacity), reason), b, capacity)
  {
    MarkCommutes(w, a, capacity, reason);
    ReleaseAdds(MarkFailed(w, reason), a, b, capacity);
    hide Release, MarkFailed;
  }

  lemma FailStepWorkers(s: State, keys: set<WorkerKey>, k: WorkerKey, reason: string, j: WorkerKey)
    requires RequestsOk(s) && k in s.workers && k !in keys && s.workers[k].state == Active && j in s.workers
    ensures var u := FailAll(s, keys, reason);
            && j in u.workers && j in FailAll(s, keys + {k}, reason).workers && j in FailAll(u, {k}, reason).workers
            && FailAll(s, keys + {k}, reason).workers[j] == FailAll(u, {k}, reason).workers[j]
            && (j == k ==> u.workers[k].state == Active && HeldBy(u.workers[k]) == HeldBy(s.workers[k]))
  {
    hide FailAll, Fill, Ready, RequestsOk, Without, Release, MarkFailed, Using, HeldBy;
    var u := FailAll(s, keys, reason);
    FailStepFills(s, keys, k, reason);
    FailAllWorker(s, keys, reason, j);
    FailAllWorker(s, keys + {k}, reason, j);
    FailAllWorker(u, {k}, reason, j);
    FailAllBooks(s, keys, reason);
    var f1 := Fill(s, s.requests.Keys, keys, Unavailable(reason)).requests;
    var fA := Fill(s, s.requests.Keys, keys + {k}, Unavailable(reason)).requests;
    var f2 := Fill(u, u.requests.Keys, {k}, Unavailable(reason)).requests;
    var r1 := Ready(s.requests, s.requests.Keys, keys);
    var r2 := Ready(u.requests, u.requests.Keys, {k});
    UsingMore(f1, fA, f2, r1, r2, j);
    var a := |Using(f1, r1, j)|;
    var b := |Using(f2, r2, j)|;
    if j == k {
      MarkCommutes(s.workers[k], a, s.capacity, reason);
      FailStepWorker(s.workers[k], a, b, s.capacity, reason);
    } else {
      ReleaseAdds(if j in keys then MarkFailed(s.workers[j], reason) else s.workers[j], a, b, s.capacity);
    }
  }

  lemma UnrouteTwice(active: map<string, WorkerKey>, keys: set<WorkerKey>, k: WorkerKey)
    ensures Unroute(Unroute(active, keys), {k}) == Unroute(active, keys + {k})
  {
  }

  lemma SendsRegroup(a: set<Send>, b: set<Send>, c: set<Send>, d: set<Send>, e: set<Send>)
    ensures a + (b + c) + (d + e) == a + b + d + c + e
  {
  }

  lemma FailStepRest(s: State, keys: set<WorkerKey>, k: WorkerKey, reason: string)
    requires RequestsOk(s) && k in s.workers && k !in keys && s.workers[k].state == Active
    ensures var whole := FailAll(s, keys + {k}, reason); var step := FailAll(FailAll(s, keys, reason), {k}, reason);
            whole == step.(workers := whole.workers) && whole.workers.Keys == step.workers.Keys == s.workers.Keys
  {
    hide FailAll, Fill, Ready, RequestsOk, Without, Release, MarkFailed, Using, HeldBy, RepliesTo, Closed, FailureSends, Unroute;
    var u := FailAll(s, keys, reason);
    FailStepFills(s, keys, k, reason);
    FailStepWorkers(s, keys, k, reason, k);
    FailAllBooks(s, keys, reason);
    FailAllBooks(s, keys + {k}, reason);
    FailAllBooks(u, {k}, reason);
    var f1 := Fill(s, s.requests.Keys, keys, Unavailable(reason)).requests;
    var fA := Fill(s, s.requests.Keys, keys + {k}, Unavailable(reason)).requests;
    var f2 := Fill(u, u.requests.Keys, {k}, Unavailable(reason)).requests;
    var r1 := Ready(s.requests, s.requests.Keys, keys);
    var r2 := Ready(u.requests, u.requests.Keys, {k});
    WithoutMore(fA, f2, r1, r2);
    RepliesMore(f1, fA, f2, r1, r2);
    ClosedMore(f1, fA, f2, r1, r2);
    MapsAssociate(s.completed, Closed(f1, r1), Closed(f2, r2));
    FailureSendsMore(s.workers, u.workers, keys, k, reason);
    UnrouteTwice(s.active, keys, k);
    SendsRegroup(s.sends, FailureSends(s.workers, keys, reason), FailureSends(u.workers, {k}, reason),
                 RepliesTo(f1, r1), RepliesTo(f2, r2));
  }

  /** Failing workers one after the other is failing them at once, provided the later one is still ACTIVE. */
  lemma FailAllStep(s: State, keys: set<WorkerKey>, k: WorkerKey, reason: string)
    requires RequestsOk(s) && k in s.workers && k !in keys && s.workers[k].state == Active
    ensures FailAll(s, keys + {k}, reason) == FailWorker(FailAll(s, keys, reason), k, reason)
  {
    hide FailAll, RequestsOk, HeldBy;
    var u := FailAll(s, keys, reason);
    var whole := FailAll(s, keys + {k}, reason);
    var step := FailAll(u, {k}, reason);
    FailStepRest(s, keys, k, reason);
    forall j | j in s.workers ensures whole.workers[j] == step.workers[j] {
      FailStepWorkers(s, keys, k, reason, j);
    }
    FailStepWorkers(s, keys, k, reason, k);
    assert whole.workers == step.workers;
  }

  // ----- dispatching to one more worker

  lemma DispatchNothing(s: State, m: Message)
    requires RequestsOk(s)
    ensures Dispatch(s, {}, m) == s
  {
    hide FailAll, RequestsOk;
    assert PushAll(s, {}, m) == s by { assert PushAll(s, {}, m).workers == s.workers; }
    assert Full(s, {}) == {} && {} - Full(s, {}) == {};
    FailNothing(s, QUEUE_FULL);
  }

  lemma FailNothing(s: State, reason: string)
    ensures FailAll(s, {}, reason) == s
  {
    assert Mark(s, {}, reason).workers == s.workers;
    assert Mark(s, {}, reason).active == s.active;
    assert FailureSends(s.workers, {}, reason) == {};
    assert Mark(s, {}, reason) == s;
    assert forall id | id in s.requests :: !Touches(s.requests[id].results, {});
    assert Ready(s.requests, s.requests.Keys, {}) == {};
    FillFinishNothing(s, s.requests.Keys, {}, Unavailable(reason));
  }

  /** Pushing to an ACTIVE worker commutes with failing others. */
  lemma PushPastFail(v: State, v': State, keys: set<WorkerKey>, reason: string, k: WorkerKey, m: Message)
    requires k in v.workers && k !in keys && v.workers[k].state == Active
    requires v' == v.(workers := v.workers[k := Push(v.workers[k], m)])
    ensures var u := FailAll(v, keys, reason);
            && k in u.workers && u.workers[k].queue == v.workers[k].queue && u.workers[k].state == Active
            && u.capacity == v.capacity
            && FailAll(v', keys, reason) == SetWorker(u, k, Push(u.workers[k], m))
  {
    hide FailAll, Fill, Ready, Without, Release, MarkFailed, Using, HeldBy, RepliesTo, Closed, FailureSends, Unroute, Push;
    var u := FailAll(v, keys, reason);
    var t := FailAll(v', keys, reason);
    FailAllBooks(v, keys, reason);
    FailAllBooks(v', keys, reason);
    FillRequests(v, v.requests.Keys, keys, Unavailable(reason));
    assert Fill(v', v'.requests.Keys, keys, Unavailable(reason)).requests == Fill(v, v.requests.Keys, keys, Unavailable(reason)).requests;
    SameFailureSends(v.workers, v'.workers, keys, reason);
    var n := |Using(Fill(v, v.requests.Keys, keys, Unavailable(reason)).requests, Ready(v.requests, v.requests.Keys, keys), k)|;
    PushRelease(v.workers[k], m, n, v.capacity);
    forall j | j in v.workers ensures t.workers[j] == if j == k then Push(u.workers[k], m) else u.workers[j] {
      FailAllWorker(v, keys, reason, j);
      FailAllWorker(v', keys, reason, j);
    }
    FailAllWorker(v, keys, reason, k);
    assert t.workers == u.workers[k := Push(u.workers[k], m)];
  }

  /** The next worker has room: its record alone changes. */
  lemma DispatchRoom(s: State, keys: set<WorkerKey>, m: Message, k: WorkerKey)
    requires k in s.workers && k !in keys && s.workers[k].state == Active && HasRoom(s.workers[k], s.capacity)
    ensures var u := Dispatch(s, keys, m);
            && k in u.workers && u.workers[k].queue == s.workers[k].queue && u.workers[k].state == Active
            && u.capacity == s.capacity
            && Dispatch(s, keys + {k}, m) == SetWorker(u, k, Push(u.workers[k], m))
  {
    var full := Full(s, keys);
    var v := PushAll(s, keys - full, m);
    var v' := PushAll(s, keys + {k} - full, m);
    assert Full(s, keys + {k}) == full;
    PushFields(s, keys, k, m);
    assert v'.workers == v.workers[k := Push(v.workers[k], m)];
    hide FailAll, PushAll, Full, Push;
    PushPastFail(v, v', full, QUEUE_FULL, k, m);
  }

  lemma SameFailureSends(v: map<WorkerKey, Worker>, w: map<WorkerKey, Worker>, keys: set<WorkerKey>, reason: string)
    requires v.Keys == w.Keys && forall k | k in keys && k in v :: v[k] == w[k]
    ensures FailureSends(v, keys, reason) == FailureSends(w, keys, reason)
  {
  }

  lemma PushRelease(w: Worker, m: Message, n: nat, capacity: nat)
    requires w.state == Active
    ensures Release(Push(w, m), n, capacity) == Push(Release(w, n, capacity), m)
    ensures Release(w, n, capacity).queue == w.queue && Release(w, n, capacity).state == Active
  {
  }

  lemma PushFields(s: State, keys: set<WorkerKey>, k: WorkerKey, m: Message)
    requires k in s.workers && k !in keys
    ensures var full := Full(s, keys);
            var v := PushAll(s, keys - full, m); var v' := PushAll(s, (keys + {k}) - full, m);
            && v'.workers.Keys == v.workers.Keys == s.workers.Keys && v.workers[k] == s.workers[k]
            && v' == v.(workers := v'.workers) && v == s.(workers := v.workers)
            && v'.workers[k] == Push(s.workers[k], m)
            && (forall j | j in s.workers && j != k :: v'.workers[j] == v.workers[j])
  {
    assert k !in Full(s, keys);
    hide Push;
  }

  /** The next worker has no room: it fails. */
  lemma DispatchFull(s: State, keys: set<WorkerKey>, m: Message, k: WorkerKey)
    requires RequestsOk(s) && k in s.workers && k !in keys && s.workers[k].state == Active && !HasRoom(s.workers[k], s.capacity)
    ensures Dispatch(s, keys + {k}, m) == FailWorker(Dispatch(s, keys, m), k, QUEUE_FULL)
  {
    var v := PushAll(s, keys - Full(s, keys), m);
    assert Full(s, keys + {k}) == Full(s, keys) + {k};
    assert keys + {k} - Full(s, keys + {k}) == keys - Full(s, keys);
    assert k !in Full(s, keys);
    PushRequests(s, keys - Full(s, keys), m);
    hide Full, RequestsOk;
    FailAllStep(v, Full(s, keys), k, QUEUE_FULL);
    hide FailAll, FailWorker;
  }

  lemma PushRequests(s: State, keys: set<WorkerKey>, m: Message)
    requires RequestsOk(s)
    ensures RequestsOk(PushAll(s, keys, m))
    ensures forall k | k in s.workers && k !in keys :: PushAll(s, keys, m).workers[k] == s.workers[k]
    ensures PushAll(s, keys, m).workers.Keys == s.workers.Keys
  {
    hide AnswersOk, AllAnswered;
    var t := PushAll(s, keys, m);
    forall id | id in t.requests ensures RequestOk(t.workers.Keys, t.nextRequestID, id, t.requests[id]) {
      assert RequestOk(s.workers.Keys, s.nextRequestID, id, s.requests[id]);
    }
  }
}
