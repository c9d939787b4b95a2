/**
 The Runtime loop refines the Coordinator: until shutdown begins, every event of the loop does to the lifecycle
 states, the routes and the verdicts what a finite sequence of successful Coordinator commands does.
 */
module Refinement {
  import opened Wrappers
  import opened Messages
  import opened Text
  import opened RuntimeSpec
  import opened RuntimeInvariants
  import opened RuntimeSafety
  import opened RuntimeMoves
  import RuntimeOrder
  import opened RuntimeLifecycle
  import opened RuntimePending
  import opened RuntimeProvenance
  import C = CoordinatorSpec

  // ----- what both have in common

  type Verdicts = map<WorkerKey, Verdict>

  /** The verdicts are those of the tracked requests and of the ones already answered. */
  datatype Projection = Projection(
    states: map<WorkerKey, WorkerState>,
    active: map<string, WorkerKey>,
    verdicts: map<nat, Verdicts>)

  function VerdictsOf(results: map<WorkerKey, Message>): Verdicts {
    map k | k in results :: if Pending(results[k]) then NoVerdict else results[k].verdict
  }

  function States(s: State): map<WorkerKey, WorkerState> { map k | k in s.workers :: s.workers[k].state }

  function Books(s: State): map<nat, Verdicts> {
    map id | id in s.requests.Keys + s.completed.Keys :: VerdictsOf(Book(s, id).results)
  }

  function OfRuntime(s: State): Projection { Projection(States(s), s.active, Books(s)) }

  function StatesOf(c: C.State): map<WorkerKey, WorkerState> { map k | k in c.workers :: c.workers[k].state }

  function OfCoordinator(c: C.State): Projection { Projection(StatesOf(c), c.active, c.requests) }

  // ----- sequences of commands

  function Exec(c: C.State, commands: seq<C.Command>): C.State {
    if commands == [] then c
    else C.Do(Exec(c, commands[..|commands| - 1]), commands[|commands| - 1]).state
  }

  /** Every command of the sequence is answered without an error. */
  ghost predicate Succeed(c: C.State, commands: seq<C.Command>) {
    forall i | 0 <= i < |commands| :: C.Do(Exec(c, commands[..i]), commands[i]).error.None?
  }

  lemma ExecMore(c: C.State, commands: seq<C.Command>, command: C.Command)
    requires Succeed(c, commands) && C.Do(Exec(c, commands), command).error.None?
    ensures Succeed(c, commands + [command])
    ensures Exec(c, commands + [command]) == C.Do(Exec(c, commands), command).state
  {
    hide C.Do;
    var all := commands + [command];
    assert all[..|commands|] == commands;
    forall i | 0 <= i < |all| ensures C.Do(Exec(c, all[..i]), all[i]).error.None? {
      if i < |commands| {
        assert all[..i] == commands[..i];
      }
    }
  }

  lemma ExecOne(c: C.State, command: C.Command)
    requires C.Do(c, command).error.None?
    ensures Succeed(c, [command]) && Exec(c, [command]) == C.Do(c, command).state
  {
    hide C.Do;
    assert [] + [command] == [command];
    ExecMore(c, [], command);
  }

  lemma ExecNone(c: C.State)
    ensures Succeed(c, []) && Exec(c, []) == c
  {
  }

  lemma {:induction false} ExecKeeps(c: C.State, commands: seq<C.Command>)
    requires C.Inv(c)
    ensures C.Inv(Exec(c, commands))
  {
    if commands != [] {
      hide C.Inv, C.Do;
      ExecKeeps(c, commands[..|commands| - 1]);
      C.DoKeeps(Exec(c, commands[..|commands| - 1]), commands[|commands| - 1]);
    }
  }

  // ----- the changes, on projections

  function FillVerdicts(v: Verdicts, keys: set<WorkerKey>, verdict: Verdict): Verdicts {
    map k | k in v :: if k in keys && v[k] == NoVerdict then verdict else v[k]
  }

  function FailVerdicts(v: Verdicts, keys: set<WorkerKey>): Verdicts { FillVerdicts(v, keys, VerdictUnavailable) }

  /** The workers of `keys` fail. */
  function FailAt(p: Projection, keys: set<WorkerKey>): Projection {
    Projection(map k | k in p.states :: if k in keys then Failed else p.states[k],
               Unroute(p.active, keys),
               map id | id in p.verdicts :: FailVerdicts(p.verdicts[id], keys))
  }

  /** The pending verdicts of `keys` in request id are given. */
  function FillAt(p: Projection, id: nat, keys: set<WorkerKey>, verdict: Verdict): Projection
    requires id in p.verdicts
  {
    p.(verdicts := p.verdicts[id := FillVerdicts(p.verdicts[id], keys, verdict)])
  }

  function StateAt(p: Projection, k: WorkerKey, state: WorkerState): Projection { p.(states := p.states[k := state]) }

  function ActivateAt(p: Projection, k: WorkerKey): Projection {
    Projection(map j | j in p.states ::
                 if j == k then Active
                 else if k.scannerId in p.active && p.active[k.scannerId] == j then Draining
                 else p.states[j],
               p.active[k.scannerId := k],
               p.verdicts)
  }

  function TrackAt(p: Projection, id: nat, keys: set<WorkerKey>): Projection {
    p.(verdicts := p.verdicts[id := map k | k in keys :: NoVerdict])
  }

  lemma FailMore(p: Projection, keys: set<WorkerKey>, k: WorkerKey)
    ensures FailAt(FailAt(p, keys), {k}) == FailAt(p, keys + {k})
  {
    RuntimeOrder.UnrouteTwice(p.active, keys, k);
    var a, b := FailAt(FailAt(p, keys), {k}), FailAt(p, keys + {k});
    assert a.states == b.states;
    assert a.verdicts == b.verdicts by {
      forall id | id in p.verdicts ensures a.verdicts[id] == b.verdicts[id] {
        assert FailVerdicts(FailVerdicts(p.verdicts[id], keys), {k}) == FailVerdicts(p.verdicts[id], keys + {k});
      }
    }
  }

  lemma FailNone(p: Projection)
    ensures FailAt(p, {}) == p
  {
    assert Unroute(p.active, {}) == p.active;
    forall id | id in p.verdicts ensures FailVerdicts(p.verdicts[id], {}) == p.verdicts[id] {
    }
    assert FailAt(p, {}).verdicts == p.verdicts;
    assert FailAt(p, {}).states == p.states;
  }

  lemma FillMore(p: Projection, id: nat, keys: set<WorkerKey>, k: WorkerKey, verdict: Verdict)
    requires id in p.verdicts && verdict != NoVerdict
    ensures FillAt(FillAt(p, id, keys, verdict), id, {k}, verdict) == FillAt(p, id, keys + {k}, verdict)
  {
    VerdictsMore(p.verdicts[id], keys, k, verdict);
    hide FillVerdicts;
  }

  lemma VerdictsMore(v: Verdicts, keys: set<WorkerKey>, k: WorkerKey, verdict: Verdict)
    requires verdict != NoVerdict
    ensures FillVerdicts(FillVerdicts(v, keys, verdict), {k}, verdict) == FillVerdicts(v, keys + {k}, verdict)
  {
  }

  lemma FillNobody(p: Projection, id: nat, verdict: Verdict)
    requires id in p.verdicts
    ensures FillAt(p, id, {}, verdict) == p
  {
    assert FillVerdicts(p.verdicts[id], {}, verdict) == p.verdicts[id];
    assert p.verdicts[id := p.verdicts[id]] == p.verdicts;
  }

  // ----- Coordinator commands

  lemma RegisterDoes(c: C.State, k: WorkerKey)
    requires !IsBlank(k.scannerId) && !IsBlank(k.version) && k !in c.workers && !C.HasCandidate(c, k.scannerId)
    ensures var o := C.Do(c, C.Register(k, Some(0)));
            o.error.None? && OfCoordinator(o.state) == StateAt(OfCoordinator(c), k, Starting)
  {
    hide IsBlank, C.HasCandidate;
    var t := C.Do(c, C.Register(k, Some(0))).state;
    assert StatesOf(t) == StatesOf(c)[k := Starting];
  }

  lemma MarkHealthyDoes(c: C.State, k: WorkerKey)
    requires k in c.workers && c.workers[k].state == Starting
    ensures var o := C.Do(c, C.MarkHealthy(k));
            o.error.None? && OfCoordinator(o.state) == StateAt(OfCoordinator(c), k, Healthy)
  {
    var t := C.Do(c, C.MarkHealthy(k)).state;
    assert StatesOf(t) == StatesOf(c)[k := Healthy];
  }

  lemma RetireDoes(c: C.State, k: WorkerKey)
    requires k in c.workers && c.workers[k].state == Draining && !C.InFlight(c, k)
    ensures var o := C.Do(c, C.Retire(k));
            o.error.None? && OfCoordinator(o.state) == StateAt(OfCoordinator(c), k, Retired)
  {
    hide C.InFlight;
    var t := C.Do(c, C.Retire(k)).state;
    assert StatesOf(t) == StatesOf(c)[k := Retired];
  }

  lemma ActivateDoes(c: C.State, k: WorkerKey)
    requires C.Inv(c) && k in c.workers && c.workers[k].state == Healthy
    ensures var o := C.Do(c, C.Activate(k));
            o.error.None? && OfCoordinator(o.state) == ActivateAt(OfCoordinator(c), k)
  {
    hide C.DebtsOk, C.CandidatesOk, C.Displace, C.Promote;
    var o := C.DoActivate(c, k);
    assert o.error.None?;
    C.ActivateShape(c, k);
    hide C.DoActivate, C.RoutesOk;
    assert StatesOf(o.state) == ActivateAt(OfCoordinator(c), k).states;
  }

  lemma SweptIs(requests: map<nat, Verdicts>, k: WorkerKey)
    ensures C.SweepAll(requests, k) == map id | id in requests :: FailVerdicts(requests[id], {k})
  {
    forall id | id in requests ensures C.Sweep(requests[id], k) == FailVerdicts(requests[id], {k}) {
    }
  }

  lemma UnrouteOne(active: map<string, WorkerKey>, k: WorkerKey)
    ensures C.Unroute(active, k) == Unroute(active, {k})
  {
  }

  /** A worker that is not RETIRED is reported as exited. */
  lemma ExitedDoes(c: C.State, k: WorkerKey, pid: int)
    requires k in c.workers && c.workers[k].pid == pid && c.workers[k].state != Retired
    ensures var o := C.Do(c, C.Exited(k, pid, 0, None));
            o.error.None? && OfCoordinator(o.state) == FailAt(OfCoordinator(c), {k})
            && o.state.workers.Keys == c.workers.Keys
  {
    SweptIs(c.requests, k);
    UnrouteOne(c.active, k);
    hide C.SweepAll, C.Unroute;
    var t := C.DoExit(c, k, pid, 0, None);
    assert StatesOf(t) == FailAt(OfCoordinator(c), {k}).states;
  }

  /** A candidate is failed; it has no route. */
  lemma FailDoes(c: C.State, k: WorkerKey, reason: string)
    requires C.Inv(c) && k in c.workers && c.workers[k].Candidate() && !IsBlank(reason)
    ensures var o := C.Do(c, C.Fail(k, reason, None));
            o.error.None? && OfCoordinator(o.state) == FailAt(OfCoordinator(c), {k})
  {
    hide C.SweepAll, Unroute, IsBlank, C.Inv, FailVerdicts;
    SweptIs(c.requests, k);
    UnroutedCandidate(c, k);
    var t := C.DoFail(c, k, reason, None).state;
    assert StatesOf(t) == FailAt(OfCoordinator(c), {k}).states;
  }

  lemma UnroutedCandidate(c: C.State, k: WorkerKey)
    requires C.Inv(c) && k in c.workers && c.workers[k].Candidate()
    ensures Unroute(c.active, {k}) == c.active
  {
    assert C.RoutesOk(c);
    hide C.Inv;
  }

  lemma RecordDoes(c: C.State, id: nat, k: WorkerKey, verdict: Verdict)
    requires C.Owes(c, id, k) && ValidVerdict(verdict)
    ensures var o := C.Do(c, C.Record(id, k, verdict));
            o.error.None? && OfCoordinator(o.state) == FillAt(OfCoordinator(c), id, {k}, verdict)
  {
    var t := C.DoRecord(c, id, k, verdict).state;
    assert FillVerdicts(c.requests[id], {k}, verdict) == c.requests[id][k := verdict];
    assert StatesOf(t) == StatesOf(c);
  }

  lemma TrackDoes(c: C.State, id: nat, keys: seq<WorkerKey>)
    requires id > 0 && id !in c.requests && keys != []
    requires forall k | k in keys :: k in c.workers && c.workers[k].state == Active
    requires forall i, j | 0 <= i < j < |keys| :: keys[i] != keys[j]
    ensures var o := C.Do(c, C.Track(id, keys));
            o.error.None? && OfCoordinator(o.state) == TrackAt(OfCoordinator(c), id, set k | k in keys)
            && o.state.workers == c.workers
  {
    C.AssignExactly(c.workers, keys);
    hide C.Assign;
    var r := C.Assign(c.workers, keys).value;
    var routed := set k | k in keys;
    assert r == map k | k in routed :: NoVerdict;
  }

  // ----- sequences for whole sets

  lemma Listed(keys: set<WorkerKey>) returns (q: seq<WorkerKey>)
    ensures (set k | k in q) == keys && forall i, j | 0 <= i < j < |q| :: q[i] != q[j]
  {
    q := [];
    var rest := keys;
    while rest != {}
      invariant rest <= keys && (set k | k in q) == keys - rest
      invariant forall i, j | 0 <= i < j < |q| :: q[i] != q[j]
    {
      var k :| k in rest;
      q := q + [k];
      assert (set j | j in q) == (keys - rest) + {k};
      rest := rest - {k};
    }
  }

  /** Workers that are not RETIRED are reported as exited, one after the other. */
  lemma AllExitedDoes(c: C.State, keys: set<WorkerKey>) returns (commands: seq<C.Command>)
    requires forall k | k in keys :: k in c.workers && c.workers[k].state != Retired
    ensures Succeed(c, commands) && OfCoordinator(Exec(c, commands)) == FailAt(OfCoordinator(c), keys)
  {
    hide C.Do, FailAt;
    commands := [];
    ExecNone(c);
    FailNone(OfCoordinator(c));
    var rest := keys;
    assert keys - rest == {};
    while rest != {}
      invariant rest <= keys && Succeed(c, commands)
      invariant OfCoordinator(Exec(c, commands)) == FailAt(OfCoordinator(c), keys - rest)
      invariant Exec(c, commands).workers.Keys == c.workers.Keys
    {
      var k :| k in rest;
      var d := Exec(c, commands);
      StillLive(c, d, keys - rest, k);
      ExitedDoes(d, k, d.workers[k].pid);
      ExecMore(c, commands, C.Exited(k, d.workers[k].pid, 0, None));
      FailMore(OfCoordinator(c), keys - rest, k);
      commands := commands + [C.Exited(k, d.workers[k].pid, 0, None)];
      assert keys - (rest - {k}) == (keys - rest) + {k};
      rest := rest - {k};
    }
    assert keys - {} == keys;
  }

  lemma StillLive(c: C.State, d: C.State, done: set<WorkerKey>, k: WorkerKey)
    requires OfCoordinator(d) == FailAt(OfCoordinator(c), done) && k in c.workers && c.workers[k].state != Retired
    ensures k in d.workers && d.workers[k].state != Retired
  {
    assert k in FailAt(OfCoordinator(c), done).states;
    assert OfCoordinator(d).states[k] == d.workers[k].state;
  }

  lemma AllRecordedDoes(c: C.State, id: nat, keys: set<WorkerKey>, verdict: Verdict) returns (commands: seq<C.Command>)
    requires ValidVerdict(verdict) && id in c.requests && forall k | k in keys :: C.Owes(c, id, k)
    ensures Succeed(c, commands) && OfCoordinator(Exec(c, commands)) == FillAt(OfCoordinator(c), id, keys, verdict)
  {
    hide C.Do, FillAt;
    commands := [];
    ExecNone(c);
    FillNobody(OfCoordinator(c), id, verdict);
    var rest := keys;
    assert keys - rest == {};
    while rest != {}
      invariant rest <= keys && Succeed(c, commands)
      invariant OfCoordinator(Exec(c, commands)) == FillAt(OfCoordinator(c), id, keys - rest, verdict)
    {
      var k :| k in rest;
      var d := Exec(c, commands);
      StillOwes(c, d, id, keys - rest, verdict, k);
      RecordDoes(d, id, k, verdict);
      ExecMore(c, commands, C.Record(id, k, verdict));
      FillMore(OfCoordinator(c), id, keys - rest, k, verdict);
      commands := commands + [C.Record(id, k, verdict)];
      assert keys - (rest - {k}) == (keys - rest) + {k};
      rest := rest - {k};
    }
    assert keys - {} == keys;
  }

  lemma StillOwes(c: C.State, d: C.State, id: nat, done: set<WorkerKey>, verdict: Verdict, k: WorkerKey)
    requires id in c.requests && OfCoordinator(d) == FillAt(OfCoordinator(c), id, done, verdict)
    requires C.Owes(c, id, k) && k !in done
    ensures C.Owes(d, id, k)
  {
    assert d.requests == FillAt(OfCoordinator(c), id, done, verdict).verdicts;
  }

  // ----- Runtime primitives

  /** Nothing of the projection changes. */
  lemma SameView(s: State, t: State)
    requires t.active == s.active && t.requests == s.requests && t.completed == s.completed && t.workers.Keys == s.workers.Keys
    requires forall k | k in s.workers :: t.workers[k].state == s.workers[k].state
    ensures OfRuntime(t) == OfRuntime(s)
  {
    assert Books(t) == Books(s);
  }

  lemma TellView(s: State, c: Chan, r: Reply)
    ensures OfRuntime(Tell(s, c, r)) == OfRuntime(s)
  {
    SameView(s, Tell(s, c, r));
  }

  lemma RecordView(s: State, k: WorkerKey, w: Worker)
    ensures OfRuntime(SetWorker(s, k, w)) == StateAt(OfRuntime(s), k, w.state)
    ensures k in s.workers && w.state == s.workers[k].state ==> OfRuntime(SetWorker(s, k, w)) == OfRuntime(s)
  {
    var t := SetWorker(s, k, w);
    assert Books(t) == Books(s);
    assert States(t) == States(s)[k := w.state];
    if k in s.workers && w.state == s.workers[k].state {
      assert States(t) == States(s);
    }
  }

  /** What is answered is answered with a verdict, and completed requests are answered. */
  ghost predicate BooksAnswered(s: State) {
    forall id | Known(s, id) :: AnswersOk(id, Book(s, id).results) && (id !in s.requests ==> AllAnswered(Book(s, id).results))
  }

  lemma CoreBooks(s: State)
    requires CoreInv(s)
    ensures BooksAnswered(s)
  {
    hide RoutesOk, CountsOk, CandidatesOk, WorkersOk, QueuesOk, AnswersOk, AllAnswered;
    forall id | Known(s, id) ensures AnswersOk(id, Book(s, id).results) && (id !in s.requests ==> AllAnswered(Book(s, id).results)) {
      if id in s.requests {
        assert RequestOk(s.workers.Keys, s.nextRequestID, id, s.requests[id]);
      } else {
        assert CompletedOk(s, id, s.completed[id]);
      }
    }
  }

  lemma FilledBook(s: State, ids: set<nat>, keys: set<WorkerKey>, cause: Cause, done: set<nat>, id: nat)
    requires done <= s.requests.Keys
    ensures var t := FillFinish(s, ids, keys, cause, done);
            && (Known(t, id) <==> Known(s, id))
            && (Known(s, id) && !(id in ids && id in s.requests) ==> Book(t, id).results == Book(s, id).results)
            && (id in ids && id in s.requests ==> Book(t, id).results == FillResults(s.requests[id].results, keys, Entry(cause, id)))
  {
    hide Release, Using, Entry, Answered, FillResults;
  }

  lemma FilledVerdicts(results: map<WorkerKey, Message>, keys: set<WorkerKey>, m: Message)
    requires !Pending(m) && forall k | k in results && !Pending(results[k]) :: results[k].verdict != NoVerdict
    ensures VerdictsOf(FillResults(results, keys, m)) == FillVerdicts(VerdictsOf(results), keys, m.verdict)
  {
  }

  lemma AnswersHaveVerdicts(id: nat, results: map<WorkerKey, Message>)
    requires AnswersOk(id, results)
    ensures forall k | k in results && !Pending(results[k]) :: results[k].verdict != NoVerdict
  {
    forall k | k in results && !Pending(results[k]) ensures results[k].verdict != NoVerdict {
      assert EntryOk(id, results[k]);
    }
  }

  lemma FillFinishStates(s: State, ids: set<nat>, keys: set<WorkerKey>, cause: Cause, done: set<nat>)
    requires done <= s.requests.Keys
    ensures States(FillFinish(s, ids, keys, cause, done)) == States(s)
    ensures FillFinish(s, ids, keys, cause, done).active == s.active
  {
    FillStates(s, ids, keys, cause, done);
    FillFinishShape(s, ids, keys, cause, done);
    hide FillFinish;
  }

  /** Filling the entries of `keys` in all tracked requests. */
  lemma SweepBooks(s: State, keys: set<WorkerKey>, cause: Cause, done: set<nat>, verdict: Verdict)
    requires done <= s.requests.Keys && BooksAnswered(s)
    requires forall id | id in s.requests :: !Pending(Entry(cause, id)) && Entry(cause, id).verdict == verdict
    ensures var t := FillFinish(s, s.requests.Keys, keys, cause, done);
            Books(t) == map id | id in Books(s) :: FillVerdicts(Books(s)[id], keys, verdict)
  {
    hide FillFinish, VerdictsOf, FillVerdicts, FillResults, Entry, AnswersOk, AllAnswered;
    var t := FillFinish(s, s.requests.Keys, keys, cause, done);
    forall id: nat ensures (id in Books(t) <==> id in Books(s)) && (id in Books(s) ==> Books(t)[id] == FillVerdicts(Books(s)[id], keys, verdict)) {
      FilledBook(s, s.requests.Keys, keys, cause, done, id);
      if Known(s, id) {
        AnswersHaveVerdicts(id, Book(s, id).results);
        if id in s.requests {
          FilledVerdicts(s.requests[id].results, keys, Entry(cause, id));
        } else {
          NothingToFill(Book(s, id).results, keys, verdict);
        }
      }
    }
  }

  lemma NothingToFill(results: map<WorkerKey, Message>, keys: set<WorkerKey>, verdict: Verdict)
    requires AllAnswered(results) && forall k | k in results && !Pending(results[k]) :: results[k].verdict != NoVerdict
    ensures FillVerdicts(VerdictsOf(results), keys, verdict) == VerdictsOf(results)
  {
  }

  lemma SameBooksView(s: State, t: State)
    requires t.requests == s.requests && t.completed == s.completed
    ensures Books(t) == Books(s) && (BooksAnswered(s) ==> BooksAnswered(t))
  {
    hide AnswersOk, AllAnswered;
  }

  lemma MarkView(s: State, keys: set<WorkerKey>, reason: string)
    ensures var m := Mark(s, keys, reason);
            && States(m) == FailAt(OfRuntime(s), keys).states && m.active == Unroute(s.active, keys)
            && m.requests == s.requests && m.completed == s.completed
  {
    hide HeldBy, FailureSends, Unroute, Books;
  }

  lemma FailAllView(s: State, keys: set<WorkerKey>, reason: string)
    requires BooksAnswered(s)
    ensures OfRuntime(FailAll(s, keys, reason)) == FailAt(OfRuntime(s), keys)
  {
    hide Mark, FillFinish, FailAll, Books, Unroute, BooksAnswered;
    var m := Mark(s, keys, reason);
    var done := Ready(m.requests, m.requests.Keys, keys);
    assert done <= m.requests.Keys;
    hide Ready;
    FailAllIs(s, keys, reason);
    MarkView(s, keys, reason);
    SameBooksView(s, m);
    SweepBooks(m, keys, Unavailable(reason), done, VerdictUnavailable);
    FillFinishStates(m, m.requests.Keys, keys, Unavailable(reason), done);
  }

  lemma FailWorkerView(s: State, k: WorkerKey, reason: string)
    requires BooksAnswered(s) && k in s.workers && !s.workers[k].Terminal()
    ensures OfRuntime(FailWorker(s, k, reason)) == FailAt(OfRuntime(s), {k})
  {
    hide FailAll, BooksAnswered;
    FailAllView(s, {k}, reason);
  }

  /** Filling the entries of `keys` in one request. */
  lemma FillOneView(s: State, id: nat, keys: set<WorkerKey>, cause: Cause, done: set<nat>)
    requires done <= s.requests.Keys && BooksAnswered(s) && id in s.requests && !Pending(Entry(cause, id))
    ensures OfRuntime(FillFinish(s, {id}, keys, cause, done)) == FillAt(OfRuntime(s), id, keys, Entry(cause, id).verdict)
  {
    hide FillFinish, VerdictsOf, FillVerdicts, FillResults, Entry, AnswersOk, AllAnswered;
    var t := FillFinish(s, {id}, keys, cause, done);
    FillFinishStates(s, {id}, keys, cause, done);
    var v := FillVerdicts(Books(s)[id], keys, Entry(cause, id).verdict);
    forall i: nat ensures (i in Books(t) <==> i in Books(s)) && (i in Books(s) ==> Books(t)[i] == Books(s)[id := v][i]) {
      FilledBook(s, {id}, keys, cause, done, i);
      if i == id {
        AnswersHaveVerdicts(id, Book(s, id).results);
        FilledVerdicts(s.requests[id].results, keys, Entry(cause, id));
      }
    }
    assert Books(t) == Books(s)[id := v];
  }

  lemma DispatchedBooks(s: State, path: string, c: Chan)
    ensures var d := Dispatched(s, path, c, s.active.Values); var id := s.nextRequestID + 1;
            && d.completed == s.completed && d.active == s.active && States(d) == States(s)
            && id in d.requests && d.requests == s.requests[id := d.requests[id]]
            && d.requests[id].results == map k | k in s.active.Values :: BLANK
  {
  }

  lemma OneMoreBook(s: State, d: State, id: nat, v: Verdicts)
    requires d.completed == s.completed && id in d.requests && d.requests == s.requests[id := d.requests[id]]
    requires VerdictsOf(d.requests[id].results) == v
    ensures Books(d) == Books(s)[id := v]
  {
    hide VerdictsOf;
    forall i: nat ensures (i in Books(d) <==> i in Books(s)[id := v]) && (i in Books(d) ==> Books(d)[i] == Books(s)[id := v][i]) {
    }
  }

  lemma DispatchedView(s: State, path: string, c: Chan)
    ensures var d := Dispatched(s, path, c, s.active.Values);
            OfRuntime(d) == TrackAt(OfRuntime(s), s.nextRequestID + 1, s.active.Values)
  {
    var d := Dispatched(s, path, c, s.active.Values);
    var id := s.nextRequestID + 1;
    DispatchedBooks(s, path, c);
    hide Dispatched, Books, States;
    var v := map k | k in s.active.Values :: NoVerdict;
    assert VerdictsOf(d.requests[id].results) == v;
    OneMoreBook(s, d, id, v);
  }

  lemma ActivateView(s: State, k: WorkerKey)
    requires RoutesOk(s) && k in s.workers && s.workers[k].state == Healthy
    ensures OfRuntime(Promote(Displace(s, k.scannerId), k)) == ActivateAt(OfRuntime(s), k)
  {
    DisplacedKeys(s, k.scannerId);
    hide Promote, Displace, RoutesOk, Books;
    var t := Promote(Displace(s, k.scannerId), k);
    ActivateStates(s, k);
    SameBooksView(s, t);
    assert States(t) == ActivateAt(OfRuntime(s), k).states;
  }

  // ----- the simulation

  /** Keys and reasons that callers and the transports give are not blank. */
  predicate Named(e: Event) {
    match e
    case Register(k, _, _) => !IsBlank(k.scannerId) && !IsBlank(k.version)
    case FailCommand(_, reason, _) => !IsBlank(reason)
    case WorkerFailure(_, reason) => !IsBlank(reason)
    case _ => true
  }

  lemma ReasonsNamed()
    ensures !IsBlank(QUEUE_FULL) && !IsBlank(UNEXPECTED_MESSAGE) && !IsBlank(EXITED)
  {
    assert !IsSpace(QUEUE_FULL[0]) && !IsSpace(UNEXPECTED_MESSAGE[0]) && !IsSpace(EXITED[0]);
  }

  ghost predicate Matches(s: State, c: C.State) { C.Inv(c) && OfRuntime(s) == OfCoordinator(c) }

  /** What the commands of one event must achieve. */
  ghost predicate Follows(t: State, c: C.State, commands: seq<C.Command>) {
    Succeed(c, commands) && OfRuntime(t) == OfCoordinator(Exec(c, commands))
  }

  lemma SameWorker(s: State, c: C.State, k: WorkerKey)
    requires Matches(s, c)
    ensures k in s.workers <==> k in c.workers
    ensures k in s.workers ==> c.workers[k].state == s.workers[k].state
  {
    hide C.Inv;
    assert k in States(s) <==> k in StatesOf(c);
    if k in s.workers {
      assert States(s)[k] == StatesOf(c)[k];
    }
  }

  lemma Stutter(s: State, t: State, c: C.State)
    requires Matches(s, c) && OfRuntime(t) == OfRuntime(s)
    ensures Follows(t, c, [])
  {
    ExecNone(c);
    hide OfRuntime, OfCoordinator;
  }

  lemma ByOne(t: State, c: C.State, command: C.Command)
    requires C.Do(c, command).error.None? && OfRuntime(t) == OfCoordinator(C.Do(c, command).state)
    ensures Follows(t, c, [command])
  {
    hide OfRuntime, OfCoordinator;
    ExecOne(c, command);
    hide C.Do;
  }

  /** A live worker fails: a candidate by failWorker, a routed or draining one by its exit. */
  lemma FailureFollows(s: State, h: State, k: WorkerKey, reason: string, c: C.State) returns (commands: seq<C.Command>)
    requires Matches(s, c) && OfRuntime(h) == OfRuntime(s) && BooksAnswered(h) && !IsBlank(reason)
    requires k in h.workers ==> k in s.workers && h.workers[k].state == s.workers[k].state
    ensures Follows(FailWorker(h, k, reason), c, commands)
  {
    hide IsBlank, OfRuntime, OfCoordinator, C.Do, FailAt, BooksAnswered;
    if k !in h.workers || h.workers[k].Terminal() {
      commands := [];
      assert FailWorker(h, k, reason) == h;
      Stutter(s, h, c);
    } else {
      SameWorker(s, c, k);
      FailWorkerView(h, k, reason);
      hide FailWorker;
      if s.workers[k].Candidate() {
        commands := [C.Fail(k, reason, None)];
        FailDoes(c, k, reason);
        ByOne(FailWorker(h, k, reason), c, C.Fail(k, reason, None));
      } else {
        commands := [C.Exited(k, c.workers[k].pid, 0, None)];
        ExitedDoes(c, k, c.workers[k].pid);
        ByOne(FailWorker(h, k, reason), c, C.Exited(k, c.workers[k].pid, 0, None));
      }
    }
  }

  lemma TellFollows(t: State, c: C.State, commands: seq<C.Command>, ch: Chan, r: Reply)
    requires Follows(t, c, commands)
    ensures Follows(Tell(t, ch, r), c, commands)
  {
    TellView(t, ch, r);
    hide OfRuntime, OfCoordinator, Succeed, Exec;
  }

  lemma TellAnswered(s: State, ch: Chan, r: Reply)
    requires BooksAnswered(s)
    ensures BooksAnswered(Tell(s, ch, r))
  {
    SameBooksView(s, Tell(s, ch, r));
  }

  lemma RecordAnswered(s: State, k: WorkerKey, w: Worker)
    requires BooksAnswered(s)
    ensures BooksAnswered(SetWorker(s, k, w))
  {
    SameBooksView(s, SetWorker(s, k, w));
  }

  lemma SameCandidates(s: State, c: C.State, scannerId: string)
    requires Matches(s, c)
    ensures HasCandidate(s, scannerId) <==> C.HasCandidate(c, scannerId)
  {
    if HasCandidate(s, scannerId) {
      var k :| k in s.workers && k.scannerId == scannerId && s.workers[k].Candidate();
      SameWorker(s, c, k);
    }
    if C.HasCandidate(c, scannerId) {
      var k :| k in c.workers && k.scannerId == scannerId && c.workers[k].Candidate();
      SameWorker(s, c, k);
    }
  }

  lemma RegisterFollows(s: State, k: WorkerKey, path: string, ch: Chan, c: C.State) returns (commands: seq<C.Command>)
    requires Matches(s, c) && !IsBlank(k.scannerId) && !IsBlank(k.version)
    ensures Follows(HandleRegister(s, k, path, ch), c, commands)
  {
    SameWorker(s, c, k);
    SameCandidates(s, c, k.scannerId);
    hide IsBlank, OfRuntime, OfCoordinator, HasCandidate, C.HasCandidate, C.Do, Follows, Matches;
    commands := [];
    Stutter(s, s, c);
    TellFollows(s, c, [], ch, Err(ALREADY_REGISTERED));
    TellFollows(s, c, [], ch, Err(HAS_CANDIDATE));
    if k !in s.workers && !HasCandidate(s, k.scannerId) {
      commands := [C.Register(k, Some(0))];
      RegisterDoes(c, k);
      RecordView(s, k, NewWorker(path));
      MatchesEqual(s, c);
      ByOne(SetWorker(s, k, NewWorker(path)), c, C.Register(k, Some(0)));
      TellFollows(SetWorker(s, k, NewWorker(path)), c, commands, ch, Ok);
    }
  }

  lemma MatchesEqual(s: State, c: C.State)
    requires Matches(s, c)
    ensures OfRuntime(s) == OfCoordinator(c) && C.Inv(c)
  {
  }

  /** HELLO or HEALTH_CHECK: the worker is asked, or fails on a full queue. */
  lemma AskFollows(s: State, k: WorkerKey, w: Worker, m: Message, ch: Chan, c: C.State) returns (failing: seq<C.Command>)
    requires Matches(s, c) && BooksAnswered(s) && k in s.workers && w.state == s.workers[k].state
    ensures Follows(SetWorker(s, k, Push(w, m)), c, [])
    ensures Follows(FailWorker(Tell(s, ch, Err(QUEUE_FULL)), k, QUEUE_FULL), c, failing)
  {
    hide OfRuntime, OfCoordinator, Follows, Matches, FailWorker, BooksAnswered, IsBlank;
    ReasonsNamed();
    RecordView(s, k, Push(w, m));
    Stutter(s, SetWorker(s, k, Push(w, m)), c);
    TellView(s, ch, Err(QUEUE_FULL));
    TellAnswered(s, ch, Err(QUEUE_FULL));
    failing := FailureFollows(s, Tell(s, ch, Err(QUEUE_FULL)), k, QUEUE_FULL, c);
  }

  lemma HelloFollows(s: State, k: WorkerKey, ch: Chan, c: C.State) returns (commands: seq<C.Command>)
    requires Matches(s, c) && BooksAnswered(s)
    ensures Follows(HandleHello(s, k, ch), c, commands)
  {
    hide Follows, Matches, FailWorker, BooksAnswered, OfRuntime, SetWorker, Tell;
    Stutter(s, s, c);
    TellFollows(s, c, [], ch, Err(NOT_STARTING));
    TellFollows(s, c, [], ch, Err(ALREADY_PENDING));
    commands := [];
    if k in s.workers && s.workers[k].state == Starting && s.workers[k].helloReply.None? {
      var failing := AskFollows(s, k, s.workers[k].(helloReply := Some(ch)), Command(TypeHello), ch, c);
      if !HasRoom(s.workers[k], s.capacity) { commands := failing; }
    }
  }

  lemma HealthFollows(s: State, k: WorkerKey, ch: Chan, c: C.State) returns (commands: seq<C.Command>)
    requires Matches(s, c) && BooksAnswered(s)
    ensures Follows(HandleHealth(s, k, ch), c, commands)
  {
    hide Follows, Matches, FailWorker, BooksAnswered, OfRuntime, SetWorker, Tell;
    Stutter(s, s, c);
    TellFollows(s, c, [], ch, Err(NOT_STARTING));
    TellFollows(s, c, [], ch, Err(ALREADY_PENDING));
    commands := [];
    if k in s.workers && s.workers[k].state == Starting && s.workers[k].healthReply.None? {
      var failing := AskFollows(s, k, s.workers[k].(healthReply := Some(ch)), Command(TypeHealthCheck), ch, c);
      if !HasRoom(s.workers[k], s.capacity) { commands := failing; }
    }
  }

  lemma ActivateFollows(s: State, k: WorkerKey, ch: Chan, c: C.State) returns (commands: seq<C.Command>)
    requires Matches(s, c) && RoutesOk(s)
    ensures Follows(HandleActivate(s, k, ch), c, commands)
  {
    hide Follows, Matches, OfRuntime, OfCoordinator, Promote, Displace, C.Do, ActivateAt, RoutesOk, Tell;
    Stutter(s, s, c);
    TellFollows(s, c, [], ch, Err(NOT_HEALTHY));
    commands := [];
    if k in s.workers && s.workers[k].state == Healthy {
      commands := [C.Activate(k)];
      assert k in Displace(s, k.scannerId).workers by { DisplacedKeys(s, k.scannerId); }
      var t := Promote(Displace(s, k.scannerId), k);
      SameWorker(s, c, k);
      MatchesEqual(s, c);
      ActivateDoes(c, k);
      ActivateView(s, k);
      ByOne(t, c, C.Activate(k));
      TellFollows(t, c, commands, ch, Ok);
    }
  }

  lemma DisplacedKeys(s: State, scannerId: string)
    ensures Displace(s, scannerId).workers.Keys == s.workers.Keys
  {
  }

  lemma FailCommandFollows(s: State, k: WorkerKey, reason: string, ch: Chan, c: C.State) returns (commands: seq<C.Command>)
    requires Matches(s, c) && BooksAnswered(s) && !IsBlank(reason)
    ensures Follows(HandleFail(s, k, reason, ch), c, commands)
  {
    hide Follows, Matches, OfRuntime, FailWorker, BooksAnswered, IsBlank, Tell;
    Stutter(s, s, c);
    TellFollows(s, c, [], ch, Err(NOT_REGISTERED));
    TellFollows(s, c, [], ch, Err(CANNOT_FAIL));
    commands := [];
    if k in s.workers && s.workers[k].Candidate() {
      commands := FailureFollows(s, s, k, reason, c);
      TellFollows(FailWorker(s, k, reason), c, commands, ch, Ok);
    }
  }

  // ----- messages

  /** A slot is answered without a change of state. */
  lemma AnswerFollows(s: State, k: WorkerKey, w: Worker, ch: Chan, r: Reply, c: C.State)
    requires Matches(s, c) && k in s.workers && w.state == s.workers[k].state
    ensures Follows(SetWorker(s, k, w), c, []) && Follows(Tell(SetWorker(s, k, w), ch, r), c, [])
  {
    hide Follows, Matches, OfRuntime, Tell, SetWorker;
    RecordView(s, k, w);
    Stutter(s, SetWorker(s, k, w), c);
    TellFollows(SetWorker(s, k, w), c, [], ch, r);
  }

  lemma HealthAnswerStarting(s: State, k: WorkerKey)
    requires WorkersOk(s) && k in s.workers && s.workers[k].healthReply.Some? && s.stopReply.None?
    ensures s.workers[k].state == Starting
  {
    assert WorkerOk(s.workers[k], false);
  }

  lemma HealthResultFollows(s: State, k: WorkerKey, m: Message, c: C.State) returns (commands: seq<C.Command>)
    requires Matches(s, c) && WorkersOk(s) && s.stopReply.None? && k in s.workers && s.workers[k].healthReply.Some?
    ensures Follows(HandleHealthResult(s, k, m), c, commands)
  {
    HealthAnswerStarting(s, k);
    hide Follows, Matches, OfRuntime, OfCoordinator, Tell, SetWorker, WorkersOk, C.Do;
    var w := s.workers[k];
    AnswerFollows(s, k, w.(healthReply := None), w.healthReply.value, Err(UNHEALTHY), c);
    commands := [];
    if m.status == "ok" {
      commands := [C.MarkHealthy(k)];
      var w' := w.(state := Healthy, healthReply := None);
      SameWorker(s, c, k);
      MatchesEqual(s, c);
      MarkHealthyDoes(c, k);
      RecordView(s, k, w');
      ByOne(SetWorker(s, k, w'), c, C.MarkHealthy(k));
      TellFollows(SetWorker(s, k, w'), c, commands, w.healthReply.value, Ok);
    }
  }

  lemma WaitsOwes(s: State, c: C.State, id: nat, k: WorkerKey)
    requires Matches(s, c) && Waits(s.requests, id, k)
    ensures C.Owes(c, id, k) && id in Books(s)
  {
    assert Books(s)[id] == VerdictsOf(s.requests[id].results);
    assert OfRuntime(s).verdicts[id][k] == NoVerdict;
    hide C.Inv;
  }

  lemma ScanResultFollows(s: State, k: WorkerKey, m: Message, c: C.State) returns (commands: seq<C.Command>)
    requires Matches(s, c) && BooksAnswered(s) && m.kind == TypeScanResult && ValidVerdict(m.verdict)
    requires k in s.workers && !s.workers[k].Terminal()
    ensures Follows(HandleScanResult(s, k, m), c, commands)
  {
    hide Follows, Matches, OfRuntime, OfCoordinator, BooksAnswered, C.Do, FillAt;
    commands := [];
    if Accepts(s, k, m) {
      var id := m.requestId;
      var done := Ready(s.requests, {id}, {k});
      assert done <= s.requests.Keys && Waits(s.requests, id, k);
      TakenIs(s, k, m);
      hide Ready, FillFinish, Settle;
      assert HandleScanResult(s, k, m) == FillFinish(s, {id}, {k}, Answer(m), done);
      commands := [C.Record(id, k, m.verdict)];
      MatchesEqual(s, c);
      WaitsOwes(s, c, id, k);
      BookIn(s, id);
      RecordDoes(c, id, k, m.verdict);
      FillOneView(s, id, {k}, Answer(m), done);
      ByOne(FillFinish(s, {id}, {k}, Answer(m), done), c, C.Record(id, k, m.verdict));
    } else {
      Stutter(s, s, c);
    }
  }

  lemma BookIn(s: State, id: nat)
    requires id in s.requests
    ensures id in OfRuntime(s).verdicts
  {
  }

  lemma MessageFollows(s: State, k: WorkerKey, m: Message, c: C.State) returns (commands: seq<C.Command>)
    requires Matches(s, c) && BooksAnswered(s) && WorkersOk(s) && s.stopReply.None? && ValidInbound(m)
    ensures Follows(HandleMessage(s, k, m), c, commands)
  {
    hide Follows, Matches, OfRuntime, BooksAnswered, FailWorker, IsBlank, WorkersOk, HandleScanResult, Tell, SetWorker;
    commands := [];
    Stutter(s, s, c);
    ReasonsNamed();
    var failing := FailureFollows(s, s, k, UNEXPECTED_MESSAGE, c);
    if k in s.workers && !s.workers[k].Terminal() {
      var w := s.workers[k];
      match m.kind
      case TypeHelloAck =>
        if w.helloReply.Some? {
          AnswerFollows(s, k, w.(helloReply := None), w.helloReply.value, HelloOutcome(k, m), c);
        } else {
          commands := failing;
        }
      case TypeHealthResult =>
        if w.healthReply.Some? { commands := HealthResultFollows(s, k, m, c); } else { commands := failing; }
      case TypeScanResult => commands := ScanResultFollows(s, k, m, c);
      case TypeReloadResult =>
        if w.reloadReply.Some? {
          var w' := w.(reloadReply := None, reloadTimer := false, pendingSignaturePath := "",
                       signaturePath := if m.success then w.pendingSignaturePath else w.signaturePath);
          AnswerFollows(s, k, w', w.reloadReply.value,
                        ReloadReply(k, m.signatureCount, if m.success then None else Some(m.error)), c);
        }
      case TypeShutdownAck =>
        if w.state == Draining {
          AnswerFollows(s, k, w.(shutdownAck := true, terminated := true), 0, Ok, c);
        } else {
          commands := failing;
        }
      case _ => commands := failing;
    }
  }

  // ----- exits, scans, timers

  /** What the Coordinator still counts as owed is an entry that still waits. */
  lemma OwesWaits(s: State, c: C.State, id: nat, k: WorkerKey)
    requires Matches(s, c) && BooksAnswered(s) && C.Owes(c, id, k)
    ensures Waits(s.requests, id, k)
  {
    assert id in Books(s) && VerdictsOf(Book(s, id).results) == Books(s)[id] by { hide C.Inv; }
    hide C.Inv, VerdictsOf, AnswersOk, AllAnswered;
    assert k in VerdictsOf(Book(s, id).results) && VerdictsOf(Book(s, id).results)[k] == NoVerdict;
    OwedEntry(id, Book(s, id).results, k);
  }

  lemma OwedEntry(id: nat, results: map<WorkerKey, Message>, k: WorkerKey)
    requires AnswersOk(id, results) && k in VerdictsOf(results) && VerdictsOf(results)[k] == NoVerdict
    ensures k in results && Pending(results[k]) && !AllAnswered(results)
  {
    AnswersHaveVerdicts(id, results);
  }

  lemma AckedIdle(s: State, k: WorkerKey, id: nat)
    requires CountsOk(s) && WorkersOk(s) && AcksOk(s) && k in s.workers && s.workers[k].shutdownAck
    ensures !Waits(s.requests, id, k)
  {
    assert WorkerOk(s.workers[k], s.stopReply.Some?);
    assert |Load(s, k)| == 0;
    assert id !in Load(s, k);
  }

  lemma RetireFollows(s: State, k: WorkerKey, x: Worker, c: C.State)
    requires CoreInv(s) && AcksOk(s) && Matches(s, c)
    requires k in s.workers && s.workers[k].state == Draining && s.workers[k].shutdownAck && x.state == Retired
    ensures Follows(SetWorker(s, k, x), c, [C.Retire(k)])
  {
    CoreBooks(s);
    hide RoutesOk, RequestsOk, CandidatesOk, HistoryOk, QueuesOk, WorkersOk, CountsOk, Matches, Follows, BooksAnswered, AcksOk;
    forall id | id in c.requests ensures !C.Owes(c, id, k) {
      if C.Owes(c, id, k) {
        OwesWaits(s, c, id, k);
        AckedIdle(s, k, id);
      }
    }
    hide OfRuntime, OfCoordinator, SetWorker, C.Do, C.Owes;
    SameWorker(s, c, k);
    RetireDoes(c, k);
    RecordView(s, k, x);
    MatchesEqual(s, c);
    ByOne(SetWorker(s, k, x), c, C.Retire(k));
  }

  lemma ExitFollows(s: State, k: WorkerKey, code: int, err: Option<string>, c: C.State) returns (commands: seq<C.Command>)
    requires CoreInv(s) && AcksOk(s) && Matches(s, c)
    ensures Follows(HandleExit(s, k, code, err), c, commands)
  {
    hide CoreInv, AcksOk, Matches, Follows, OfRuntime, FailWorker, SetWorker, BooksAnswered, IsBlank;
    CoreBooks(s);
    Stutter(s, s, c);
    commands := [];
    if k in s.workers {
      var x := Exited(s.workers[k], code, err);
      if s.workers[k].state == Draining && s.workers[k].shutdownAck {
        commands := [C.Retire(k)];
        RetireFollows(s, k, x.(state := Retired), c);
      } else {
        ReasonsNamed();
        RecordView(s, k, x);
        RecordAnswered(s, k, x);
        assert SetWorker(s, k, x).workers == s.workers[k := x] by { RecordIs(s, k, x); }
        commands := FailureFollows(s, SetWorker(s, k, x), k, EXITED, c);
      }
    }
  }

  lemma RecordIs(s: State, k: WorkerKey, w: Worker)
    ensures SetWorker(s, k, w).workers == s.workers[k := w]
  {
  }

  lemma ReloadFollows(s: State, scannerId: string, path: string, ch: Chan, c: C.State) returns (commands: seq<C.Command>)
    requires BooksAnswered(s) && Matches(s, c)
    ensures Follows(HandleReload(s, scannerId, path, ch), c, commands)
  {
    hide Matches, Follows, OfRuntime, FailWorker, SetWorker, Tell, BooksAnswered, IsBlank;
    Stutter(s, s, c);
    TellFollows(s, c, [], ch, Err(NO_ACTIVE_WORKER));
    TellFollows(s, c, [], ch, Err(RELOAD_IN_PROGRESS));
    commands := [];
    if scannerId in s.active && s.active[scannerId] in s.workers && s.workers[s.active[scannerId]].reloadReply.None? {
      var k := s.active[scannerId];
      var w := s.workers[k];
      if HasRoom(w, s.capacity) {
        AnswerFollows(s, k, Push(w.(reloadReply := Some(ch), pendingSignaturePath := path, reloadTimer := true), ReloadCommand(path)),
                      ch, Ok, c);
      } else {
        ReasonsNamed();
        var w' := w.(pendingSignaturePath := "");
        RecordView(s, k, w');
        RecordAnswered(s, k, w');
        TellView(SetWorker(s, k, w'), ch, Err(QUEUE_FULL));
        TellAnswered(SetWorker(s, k, w'), ch, Err(QUEUE_FULL));
        ToldIs(s, k, w', ch, Err(QUEUE_FULL));
        commands := FailureFollows(s, Tell(SetWorker(s, k, w'), ch, Err(QUEUE_FULL)), k, QUEUE_FULL, c);
      }
    }
  }

  lemma ToldIs(s: State, k: WorkerKey, w: Worker, ch: Chan, r: Reply)
    ensures Tell(SetWorker(s, k, w), ch, r).workers == s.workers[k := w]
  {
  }

  lemma ScanTimeoutFollows(s: State, id: nat, c: C.State) returns (commands: seq<C.Command>)
    requires BooksAnswered(s) && Matches(s, c)
    ensures Follows(HandleScanTimeout(s, id), c, commands)
  {
    hide Matches, Follows, OfRuntime, OfCoordinator, BooksAnswered, C.Do, FillAt, FillFinish, Finish, Fill;
    commands := [];
    if id in s.requests {
      var results := s.requests[id].results;
      var waiting := set k | k in results && Pending(results[k]);
      MatchesEqual(s, c);
      BookIn(s, id);
      forall k | k in waiting ensures C.Owes(c, id, k) {
        WaitsOwes(s, c, id, k);
      }
      BookOf(s, c, id);
      commands := AllRecordedDoes(c, id, waiting, VerdictTimeout);
      FillOneView(s, id, results.Keys, Timeout, {id});
      FillWaiting(s, id, waiting, VerdictTimeout);
      TimeoutIs(s, id);
      FollowsIs(HandleScanTimeout(s, id), c, commands);
    } else {
      Stutter(s, s, c);
    }
  }

  lemma BookOf(s: State, c: C.State, id: nat)
    requires Matches(s, c) && id in s.requests
    ensures id in c.requests
  {
    assert id in Books(s);
    hide C.Inv;
  }

  lemma TimeoutIs(s: State, id: nat)
    requires id in s.requests
    ensures HandleScanTimeout(s, id) == FillFinish(s, {id}, s.requests[id].results.Keys, Timeout, {id})
  {
    hide Finish, Fill;
  }

  lemma FollowsIs(t: State, c: C.State, commands: seq<C.Command>)
    requires Succeed(c, commands) && OfRuntime(t) == OfCoordinator(Exec(c, commands))
    ensures Follows(t, c, commands)
  {
  }

  lemma FillWaiting(s: State, id: nat, waiting: set<WorkerKey>, verdict: Verdict)
    requires id in s.requests && BooksAnswered(s) && id in OfRuntime(s).verdicts
    requires waiting == set k | k in s.requests[id].results && Pending(s.requests[id].results[k])
    ensures FillAt(OfRuntime(s), id, s.requests[id].results.Keys, verdict) == FillAt(OfRuntime(s), id, waiting, verdict)
  {
    var results := s.requests[id].results;
    assert AnswersOk(id, results) by { assert Known(s, id); }
    AnswersHaveVerdicts(id, results);
    assert Books(s)[id] == VerdictsOf(results);
    assert FillVerdicts(VerdictsOf(results), results.Keys, verdict) == FillVerdicts(VerdictsOf(results), waiting, verdict);
  }

  lemma DispatchedAnswered(s: State, path: string, ch: Chan)
    requires BooksAnswered(s)
    ensures BooksAnswered(Dispatched(s, path, ch, s.active.Values))
  {
    var d := Dispatched(s, path, ch, s.active.Values);
    DispatchedBooks(s, path, ch);
    hide Dispatched, AnswersOk, AllAnswered;
    forall id | Known(d, id) ensures AnswersOk(id, Book(d, id).results) && (id !in d.requests ==> AllAnswered(Book(d, id).results)) {
      if id == s.nextRequestID + 1 {
        BlankAnswers(id, d.requests[id].results);
      } else {
        assert Known(s, id) && Book(d, id) == Book(s, id);
      }
    }
  }

  lemma BlankAnswers(id: nat, results: map<WorkerKey, Message>)
    requires forall k | k in results :: Pending(results[k])
    ensures AnswersOk(id, results)
  {
  }

  /** A scan is tracked for every routed worker; those whose queue is full then exit. */
  lemma ScanFollows(s: State, path: string, ch: Chan, c: C.State) returns (commands: seq<C.Command>)
    requires CoreInv(s) && Matches(s, c)
    ensures Follows(HandleScan(s, path, ch), c, commands)
  {
    hide CoreInv, Matches, Follows, OfRuntime, OfCoordinator, Tell, BooksAnswered, C.Do, FailAll, Full, Admit, TrackAt, FailAt;
    Stutter(s, s, c);
    TellFollows(s, c, [], ch, Err(SHUTTING_DOWN));
    TellFollows(s, c, [], ch, Err(NO_ACTIVE));
    commands := [];
    if s.stopReply.None? && s.active != map[] {
      var id := s.nextRequestID + 1;
      var d := Dispatched(s, path, ch, s.active.Values);
      var full := Full(Admit(s, path, ch), s.active.Values);
      CoreBooks(s);
      MatchesEqual(s, c);
      var keys := Listed(s.active.Values);
      RoutedKeys(s, c, keys);
      NewIdTracked(s, c);
      TrackDoes(c, id, keys);
      ExecOne(c, C.Track(id, keys));
      DispatchedView(s, path, ch);
      DispatchedAnswered(s, path, ch);
      FailAllView(d, full, QUEUE_FULL);
      var c1 := Exec(c, [C.Track(id, keys)]);
      FullIsActive(s, path, ch, c);
      var more := AllExitedDoes(c1, full);
      ExecChain(c, [C.Track(id, keys)], more);
      commands := [C.Track(id, keys)] + more;
      FollowsIs(HandleScan(s, path, ch), c, commands);
    }
  }

  lemma FullIsActive(s: State, path: string, ch: Chan, c: C.State)
    requires CoreInv(s) && Matches(s, c)
    ensures forall k | k in Full(Admit(s, path, ch), s.active.Values) :: k in c.workers && c.workers[k].state == Active
  {
    FullIsRouted(s, path, ch);
    hide CoreInv, Full, Matches;
    forall k | k in Full(Admit(s, path, ch), s.active.Values) ensures k in c.workers && c.workers[k].state == Active {
      SameWorker(s, c, k);
    }
  }

  lemma RoutedKeys(s: State, c: C.State, keys: seq<WorkerKey>)
    requires CoreInv(s) && Matches(s, c) && s.active != map[] && (set k | k in keys) == s.active.Values
    ensures keys != [] && forall k | k in keys :: k in c.workers && c.workers[k].state == Active
  {
    hide CountsOk, RequestsOk, CandidatesOk, HistoryOk, WorkersOk, QueuesOk, Matches;
    var some :| some in s.active;
    assert s.active[some] in s.active.Values;
    forall k | k in keys ensures k in c.workers && c.workers[k].state == Active {
      assert k in s.active.Values;
      assert k in s.workers && s.workers[k].state == Active;
      SameWorker(s, c, k);
    }
  }

  lemma NewIdTracked(s: State, c: C.State)
    requires CoreInv(s) && Matches(s, c)
    ensures s.nextRequestID + 1 !in c.requests
  {
    hide RoutesOk, CountsOk, RequestsOk, CandidatesOk, HistoryOk, WorkersOk, QueuesOk, C.Inv, States, StatesOf;
    NewIdUnused(s);
    NewIdUnknown(s);
    assert s.nextRequestID + 1 !in Books(s);
  }

  lemma {:induction false} ExecChain(c: C.State, a: seq<C.Command>, b: seq<C.Command>)
    requires Succeed(c, a) && Succeed(Exec(c, a), b)
    ensures Succeed(c, a + b) && Exec(c, a + b) == Exec(Exec(c, a), b)
  {
    hide C.Do, Succeed, Exec;
    if b == [] {
      assert a + b == a;
      ExecNone(Exec(c, a));
    } else {
      var n := |b| - 1;
      var d := Exec(c, a);
      ExecLast(d, b);
      SucceedPrefix(d, b);
      ExecChain(c, a, b[..n]);
      assert a + b == (a + b[..n]) + [b[n]];
      ExecMore(c, a + b[..n], b[n]);
    }
  }

  lemma ExecLast(c: C.State, b: seq<C.Command>)
    requires b != []
    ensures Exec(c, b) == C.Do(Exec(c, b[..|b| - 1]), b[|b| - 1]).state
  {
    hide C.Do;
  }

  lemma SucceedPrefix(c: C.State, b: seq<C.Command>)
    requires Succeed(c, b) && b != []
    ensures Succeed(c, b[..|b| - 1]) && C.Do(Exec(c, b[..|b| - 1]), b[|b| - 1]).error.None?
  {
    hide C.Do;
    var p := b[..|b| - 1];
    forall i | 0 <= i < |p| ensures C.Do(Exec(c, p[..i]), p[i]).error.None? {
      assert p[..i] == b[..i];
    }
  }

  // ----- one event

  lemma QuietView(s: State, e: Event)
    requires e.ReloadTimeout? || e.QueryActive? || e.Dequeue? || e.Cancel?
    ensures var t := Handle(s, e);
            && t.active == s.active && t.requests == s.requests && t.completed == s.completed && t.workers.Keys == s.workers.Keys
            && forall k | k in s.workers :: t.workers[k].state == s.workers[k].state
  {
    hide HandleReloadTimeout, HandleQuery, HandleDequeue, Close;
    match e
    case ReloadTimeout(k) => ReloadTimeoutView(s, k);
    case Dequeue(k) => DequeueView(s, k);
    case Cancel => CloseView(s);
    case QueryActive(scannerId, c) => QueryView(s, scannerId, c);
  }

  lemma ReloadTimeoutView(s: State, k: WorkerKey)
    ensures var t := HandleReloadTimeout(s, k);
            && t.active == s.active && t.requests == s.requests && t.completed == s.completed && t.workers.Keys == s.workers.Keys
            && forall j | j in s.workers :: t.workers[j].state == s.workers[j].state
  {
  }

  lemma DequeueView(s: State, k: WorkerKey)
    ensures var t := HandleDequeue(s, k);
            && t.active == s.active && t.requests == s.requests && t.completed == s.completed && t.workers.Keys == s.workers.Keys
            && forall j | j in s.workers :: t.workers[j].state == s.workers[j].state
  {
  }

  lemma CloseView(s: State)
    ensures var t := Close(s, Cancelled);
            && t.active == s.active && t.requests == s.requests && t.completed == s.completed && t.workers.Keys == s.workers.Keys
            && forall j | j in s.workers :: t.workers[j].state == s.workers[j].state
  {
  }

  lemma QueryView(s: State, scannerId: string, c: Chan)
    ensures var t := HandleQuery(s, scannerId, c);
            t.active == s.active && t.requests == s.requests && t.completed == s.completed && t.workers == s.workers
  {
  }

  lemma QuietFollows(s: State, e: Event, c: C.State)
    requires Matches(s, c) && (e.ReloadTimeout? || e.QueryActive? || e.Dequeue? || e.Cancel?)
    ensures Follows(Handle(s, e), c, [])
  {
    hide Matches, Follows, OfRuntime;
    QuietView(s, e);
    SameView(s, Handle(s, e));
    hide Handle;
    Stutter(s, Handle(s, e), c);
  }

  lemma HandleFollows(s: State, e: Event, c: C.State) returns (commands: seq<C.Command>)
    requires CoreInv(s) && AcksOk(s) && Matches(s, c) && s.stopReply.None? && EventOk(e) && Named(e) && !e.Shutdown?
    ensures Follows(Handle(s, e), c, commands)
  {
    hide RoutesOk, CountsOk, RequestsOk, CandidatesOk, HistoryOk, WorkersOk, QueuesOk, AcksOk, Matches, Follows, BooksAnswered, IsBlank,
         FailWorker, HandleRegister, HandleHello, HandleHealth, HandleActivate, HandleFail, HandleMessage, HandleExit, HandleScan,
         HandleScanTimeout, HandleReload, HandleReloadTimeout, HandleQuery, HandleDequeue, Close, OfRuntime, OfCoordinator;
    CoreBooks(s);
    match e
    case Register(k, path, ch) => commands := RegisterFollows(s, k, path, ch, c);
    case BeginHello(k, ch) => commands := HelloFollows(s, k, ch, c);
    case BeginHealth(k, ch) => commands := HealthFollows(s, k, ch, c);
    case Activate(k, ch) => commands := ActivateFollows(s, k, ch, c);
    case FailCommand(k, reason, ch) => commands := FailCommandFollows(s, k, reason, ch, c);
    case WorkerMessage(k, m) => commands := MessageFollows(s, k, m, c);
    case WorkerFailure(k, reason) => commands := FailureFollows(s, s, k, reason, c);
    case WorkerExit(k, code, err) => commands := ExitFollows(s, k, code, err, c);
    case ScanRequest(path, ch) => commands := ScanFollows(s, path, ch, c);
    case ScanTimeout(id) => commands := ScanTimeoutFollows(s, id, c);
    case ReloadRequest(scannerId, path, ch) => commands := ReloadFollows(s, scannerId, path, ch, c);
    case _ =>
      commands := [];
      QuietFollows(s, e, c);
  }

  lemma StepFollows(s: State, e: Event, c: C.State) returns (commands: seq<C.Command>)
    requires CoreInv(s) && AcksOk(s) && Matches(s, c) && EventOk(e) && Named(e) && s.stopReply.None? && Step(s, e).stopReply.None?
    ensures Succeed(c, commands) && Matches(Step(s, e), Exec(c, commands))
  {
    hide CoreInv, AcksOk, EventOk, Named, Handle, Succeed, Exec, OfRuntime, OfCoordinator, C.Inv;
    if s.phase == Running {
      if e.Shutdown? { ShutdownStops(s, e); }
      commands := HandleFollows(s, e, c);
      StepOpen(s, e);
    } else {
      commands := [];
      Stutter(s, s, c);
    }
    hide Step;
    ExecKeeps(c, commands);
  }

  lemma StepOpen(s: State, e: Event)
    requires s.phase == Running && Step(s, e).stopReply.None?
    ensures Step(s, e) == Handle(s, e)
  {
    hide Handle, AllExited;
  }

  lemma ShutdownStops(s: State, e: Event)
    requires e.Shutdown? && s.phase == Running
    ensures Step(s, e).stopReply.Some?
  {
    hide Release, RequestShutdown, Using, Answered, FillResults, AllExited;
  }

  // ----- runs

  /** The commands of each event, one block after the other, from the empty Coordinator. */
  function After(blocks: seq<seq<C.Command>>): C.State {
    if blocks == [] then C.INIT else Exec(After(blocks[..|blocks| - 1]), blocks[|blocks| - 1])
  }

  ghost predicate Simulates(capacity: nat, events: seq<Event>, blocks: seq<seq<C.Command>>) {
    && |blocks| == |events|
    && (forall i | 0 <= i < |blocks| :: Succeed(After(blocks[..i]), blocks[i]))
    && (forall i | 0 <= i <= |blocks| :: AgreeAfter(capacity, events, blocks, i))
  }

  /** After the first i events and blocks the projections agree. */
  ghost predicate AgreeAfter(capacity: nat, events: seq<Event>, blocks: seq<seq<C.Command>>, i: nat)
    requires i <= |events| && i <= |blocks|
  {
    OfRuntime(Run(capacity, events[..i])) == OfCoordinator(After(blocks[..i]))
  }

  lemma AgreeStill(capacity: nat, events: seq<Event>, blocks: seq<seq<C.Command>>, commands: seq<C.Command>, i: nat)
    requires events != [] && |blocks| == |events| - 1 && i <= |blocks|
    requires AgreeAfter(capacity, events[..|events| - 1], blocks, i)
    ensures AgreeAfter(capacity, events, blocks + [commands], i)
  {
    hide OfRuntime, OfCoordinator, Run, After;
    assert (blocks + [commands])[..i] == blocks[..i] && events[..|events| - 1][..i] == events[..i];
  }

  lemma AgreeNow(capacity: nat, events: seq<Event>, blocks: seq<seq<C.Command>>)
    requires |blocks| == |events|
    ensures AgreeAfter(capacity, events, blocks, |events|) <==> OfRuntime(Run(capacity, events)) == OfCoordinator(After(blocks))
  {
    hide OfRuntime, OfCoordinator, Run, After;
    assert events[..|events|] == events && blocks[..|blocks|] == blocks;
  }

  lemma AfterMore(blocks: seq<seq<C.Command>>, commands: seq<C.Command>)
    ensures After(blocks + [commands]) == Exec(After(blocks), commands)
  {
    assert (blocks + [commands])[..|blocks|] == blocks;
    hide Exec;
  }

  lemma SimulatesMore(capacity: nat, events: seq<Event>, blocks: seq<seq<C.Command>>, commands: seq<C.Command>)
    requires events != [] && Simulates(capacity, events[..|events| - 1], blocks)
    requires Succeed(After(blocks), commands)
    requires OfRuntime(Run(capacity, events)) == OfCoordinator(Exec(After(blocks), commands))
    ensures Simulates(capacity, events, blocks + [commands]) && After(blocks + [commands]) == Exec(After(blocks), commands)
  {
    hide OfRuntime, OfCoordinator, Run, Exec, Succeed, After, AgreeAfter;
    AfterMore(blocks, commands);
    var n := |events| - 1;
    var all := blocks + [commands];
    forall i | 0 <= i <= n ensures Succeed(After(all[..i]), all[i]) {
      assert all[..i] == if i < n then blocks[..i] else blocks;
    }
    forall i | 0 <= i <= n + 1 ensures AgreeAfter(capacity, events, all, i) {
      if i <= n { AgreeStill(capacity, events, blocks, commands, i); } else { AgreeNow(capacity, events, all); }
    }
  }

  lemma AcksFollowPrefix(capacity: nat, events: seq<Event>)
    requires events != [] && AcksFollow(capacity, events)
    ensures AcksFollow(capacity, events[..|events| - 1])
  {
    hide AckFollows, Run;
    var before := events[..|events| - 1];
    forall i | 0 <= i < |before| ensures AckFollows(Run(capacity, before[..i]), before[i]) {
      assert before[..i] == events[..i];
    }
  }

  /**
   Until shutdown begins, if workers acknowledge only after SHUTDOWN: the events of any run correspond, one by
   one, to finite sequences of Coordinator commands that all succeed, and after each event the lifecycle states,
   the routes and the verdicts of all requests agree.
   */
  lemma {:induction false} RuntimeRefinesCoordinator(capacity: nat, events: seq<Event>) returns (blocks: seq<seq<C.Command>>)
    requires EventsOk(events) && AcksFollow(capacity, events) && (forall i | 0 <= i < |events| :: Named(events[i]))
    requires Run(capacity, events).stopReply.None?
    ensures Simulates(capacity, events, blocks) && C.Inv(After(blocks))
  {
    hide Named, EventOk, Step, CoreInv, Succeed, Exec;
    if events == [] {
      blocks := [];
      InitMatches(capacity);
    } else {
      var n := |events| - 1;
      var before := events[..n];
      var s := Run(capacity, before);
      AcksFollowPrefix(capacity, events);
      RunKeeps(capacity, before);
      RunAcks(capacity, before);
      StepMoves(s, events[n]);
      NotYetStopped(s, Step(s, events[n]), Slips(s, events[n]));
      hide AcksFollow, AcksOk, Moves;
      var b := RuntimeRefinesCoordinator(capacity, before);
      AgreeNow(capacity, before, b);
      assert Matches(s, After(b));
      hide Matches, Simulates;
      var commands := StepFollows(s, events[n], After(b));
      MatchesEqual(Step(s, events[n]), Exec(After(b), commands));
      hide OfRuntime, OfCoordinator, C.Inv;
      SimulatesMore(capacity, events, b, commands);
      blocks := b + [commands];
    }
  }

  lemma NotYetStopped(s: State, t: State, loose: bool)
    requires Moves(s, t, loose) && t.stopReply.None?
    ensures s.stopReply.None?
  {
  }

  lemma InitMatches(capacity: nat)
    ensures Simulates(capacity, [], []) && C.Inv(After([]))
  {
    AgreeNow(capacity, [], []);
    assert OfRuntime(Init(capacity)).states == map[];
    assert OfRuntime(Init(capacity)).verdicts == map[];
    assert OfCoordinator(C.INIT).states == map[];
  }
}
