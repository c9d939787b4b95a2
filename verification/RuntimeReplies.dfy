/** Every reply channel is answered at most once, and none is lost. */
module RuntimeReplies {
  import opened Wrappers
  import opened Messages
  import opened RuntimeSpec
  import opened RuntimeInvariants
  import opened RuntimeSafety

  /** The places where the loop keeps a reply channel. */
  datatype Slot =
    | HelloSlot(key: WorkerKey)
    | HealthSlot(key: WorkerKey)
    | ReloadSlot(key: WorkerKey)
    | ScanSlot(id: nat)
    | StopSlot

  function At(s: State, x: Slot): Option<Chan> {
    match x
    case HelloSlot(k) => if k in s.workers then s.workers[k].helloReply else None
    case HealthSlot(k) => if k in s.workers then s.workers[k].healthReply else None
    case ReloadSlot(k) => if k in s.workers then s.workers[k].reloadReply else None
    case ScanSlot(id) => if id in s.requests then Some(s.requests[id].reply) else None
    case StopSlot => if s.phase == ShutDown then None else s.stopReply
  }

  predicate Sent(sends: set<Send>, c: Chan) { exists n :: n in sends && n.to == c }

  ghost predicate Keeps(s: State, c: Chan) { exists x :: At(s, x) == Some(c) }

  /** No channel is kept twice, none that was answered is kept, none was answered twice. */
  ghost predicate RepliesOk(s: State) {
    && (forall x, y :: At(s, x).Some? && At(s, x) == At(s, y) ==> x == y)
    && (forall x :: At(s, x).Some? ==> !Sent(s.sends, At(s, x).value))
    && (forall m, n :: m in s.sends && n in s.sends && m.to == n.to ==> m == n)
  }

  /** A channel the loop has not seen. */
  ghost predicate Fresh(s: State, c: Chan) { !Keeps(s, c) && !Sent(s.sends, c) }

  /** Seen: kept, or answered. */
  ghost predicate Seen(s: State, c: Chan) { Keeps(s, c) || Sent(s.sends, c) }

  /** The channels seen in t are those seen in s, and c if there is one. */
  ghost predicate Grows(s: State, t: State, c: Option<Chan>) {
    forall d: Chan :: Seen(t, d) <==> Seen(s, d) || c == Some(d)
  }

  ghost predicate Good(s: State, t: State, c: Option<Chan>) { RepliesOk(t) && Grows(s, t, c) }

  lemma GoodThen(s: State, t: State, u: State, c: Option<Chan>)
    requires Good(s, t, c) && Good(t, u, None)
    ensures Good(s, u, c)
  {
    hide Seen, RepliesOk;
  }

  /** From s to t slots are only emptied, and exactly the channels of the emptied slots are answered, once each. */
  ghost predicate Answers(s: State, t: State) {
    && (forall x :: At(t, x).Some? ==> At(t, x) == At(s, x))
    && s.sends <= t.sends
    && (forall n :: n in t.sends && n !in s.sends ==> exists x :: At(s, x) == Some(n.to) && At(t, x) == None)
    && (forall m, n :: m in t.sends && n in t.sends && m !in s.sends && n !in s.sends && m.to == n.to ==> m == n)
    && (forall x :: At(s, x).Some? && At(t, x).None? ==> Sent(t.sends, At(s, x).value))
  }

  lemma NewlySent(s: State, t: State, n: Send)
    requires RepliesOk(s) && Answers(s, t) && n in t.sends && n !in s.sends
    ensures !Sent(s.sends, n.to) && Keeps(s, n.to) && forall x :: At(t, x) != Some(n.to)
  {
    var x :| At(s, x) == Some(n.to) && At(t, x) == None;
    hide At;
  }

  lemma AnswersKeep(s: State, t: State)
    requires RepliesOk(s) && Answers(s, t)
    ensures Good(s, t, None)
  {
    hide At;
    forall m, n | m in t.sends && n in t.sends && m.to == n.to ensures m == n {
      if n !in s.sends { NewlySent(s, t, n); }
      if m !in s.sends { NewlySent(s, t, m); }
    }
    forall n, x | n in t.sends ensures At(t, x) != Some(n.to) {
      if n !in s.sends {
        NewlySent(s, t, n);
      } else {
        assert Sent(s.sends, n.to);
      }
    }
    forall c: Chan ensures Seen(t, c) <==> Seen(s, c) {
      AnswersSeen(s, t, c);
    }
  }

  lemma AnswersSeen(s: State, t: State, c: Chan)
    requires RepliesOk(s) && Answers(s, t)
    ensures Seen(t, c) <==> Seen(s, c)
  {
    hide At;
    if Keeps(s, c) {
      var x :| At(s, x) == Some(c);
      assert Sent(t.sends, c) || At(t, x) == Some(c);
    }
    if Sent(s.sends, c) {
      var n :| n in s.sends && n.to == c;
      assert n in t.sends;
    }
    if Keeps(t, c) {
      var x :| At(t, x) == Some(c);
      assert At(s, x) == Some(c);
    }
    if Sent(t.sends, c) {
      var n :| n in t.sends && n.to == c;
      if n !in s.sends { NewlySent(s, t, n); }
    }
  }

  lemma SentMore(sends: set<Send>, n: Send, d: Chan)
    ensures Sent(sends + {n}, d) <==> Sent(sends, d) || d == n.to
  {
    assert n in sends + {n};
    if Sent(sends, d) {
      var m :| m in sends && m.to == d;
      assert m in sends + {n};
    }
  }

  /** A fresh channel is answered at once. */
  lemma TellFresh(s: State, c: Chan, r: Reply)
    requires RepliesOk(s) && Fresh(s, c)
    ensures Good(s, Tell(s, c, r), Some(c))
  {
    var t := Tell(s, c, r);
    assert forall x :: At(t, x) == At(s, x);
    hide At;
    forall d: Chan ensures (Sent(t.sends, d) <==> Sent(s.sends, d) || d == c) && (Keeps(t, d) <==> Keeps(s, d)) {
      SentMore(s.sends, Send(c, r), d);
      if Keeps(s, d) { var x :| At(s, x) == Some(d); assert At(t, x) == Some(d); }
      if Keeps(t, d) { var x :| At(t, x) == Some(d); assert At(s, x) == Some(d); }
    }
    assert forall n :: n in s.sends ==> n.to != c;
    assert forall x :: At(s, x) != Some(c);
  }

  /** A fresh channel is put in an empty slot. */
  lemma HoldFresh(s: State, t: State, x: Slot, c: Chan)
    requires RepliesOk(s) && Fresh(s, c)
    requires t.sends == s.sends && At(s, x).None? && At(t, x) == Some(c)
    requires forall y :: y != x ==> At(t, y) == At(s, y)
    ensures Good(s, t, Some(c))
  {
    hide At;
    assert forall y :: y != x ==> At(t, y) != Some(c);
    forall d: Chan ensures Keeps(t, d) <==> Keeps(s, d) || d == c {
      if Keeps(s, d) { var y :| At(s, y) == Some(d); assert At(t, y) == Some(d); }
      if Keeps(t, d) { var y :| At(t, y) == Some(d); assert y == x || At(s, y) == Some(d); }
    }
  }

  /** Same slots, same sends. */
  lemma NothingSaid(s: State, t: State)
    requires t.sends == s.sends && forall x :: At(t, x) == At(s, x)
    ensures Answers(s, t)
  {
    hide At;
  }

  // ----- primitives

  lemma SameSlots(s: State, t: State)
    requires t.workers.Keys == s.workers.Keys && t.requests == s.requests && t.phase == s.phase && t.stopReply == s.stopReply
    requires forall k | k in s.workers ::
               t.workers[k].helloReply == s.workers[k].helloReply && t.workers[k].healthReply == s.workers[k].healthReply
               && t.workers[k].reloadReply == s.workers[k].reloadReply
    ensures forall x :: At(t, x) == At(s, x)
  {
  }

  lemma ReleaseSlots(w: Worker, n: nat, capacity: nat)
    ensures var w' := Release(w, n, capacity);
            w'.helloReply == w.helloReply && w'.healthReply == w.healthReply && w'.reloadReply == w.reloadReply
  {
  }

  lemma FillFinishSlots(s: State, ids: set<nat>, keys: set<WorkerKey>, cause: Cause, done: set<nat>)
    requires done <= s.requests.Keys
    ensures var t := FillFinish(s, ids, keys, cause, done);
            forall x :: At(t, x) == if x.ScanSlot? && x.id in done then None else At(s, x)
  {
    hide Release, FillResults, Using, Entry, Answered;
    var t := FillFinish(s, ids, keys, cause, done);
    forall k | k in s.workers
      ensures t.workers[k].helloReply == s.workers[k].helloReply && t.workers[k].healthReply == s.workers[k].healthReply
              && t.workers[k].reloadReply == s.workers[k].reloadReply
    {
      ReleaseSlots(s.workers[k], |Using(Fill(s, ids, keys, cause).requests, done, k)|, s.capacity);
    }
  }

  lemma FillFinishSends(s: State, ids: set<nat>, keys: set<WorkerKey>, cause: Cause, done: set<nat>)
    requires done <= s.requests.Keys
    ensures var t := FillFinish(s, ids, keys, cause, done); var f := Fill(s, ids, keys, cause);
            && t.sends == s.sends + RepliesTo(f.requests, done) && f.requests.Keys == s.requests.Keys
            && forall id | id in s.requests :: f.requests[id].reply == s.requests[id].reply
  {
    hide Answered, FillResults;
  }

  lemma SlotOnce(s: State, x: Slot, y: Slot)
    requires RepliesOk(s) && At(s, x).Some? && At(s, x) == At(s, y)
    ensures x == y
  {
    hide At;
  }

  lemma FillFinishAnswers(s: State, ids: set<nat>, keys: set<WorkerKey>, cause: Cause, done: set<nat>)
    requires RepliesOk(s) && done <= s.requests.Keys
    ensures Answers(s, FillFinish(s, ids, keys, cause, done))
  {
    assert forall id | id in s.requests :: At(s, ScanSlot(id)) == Some(s.requests[id].reply);
    hide At, FillFinish, Fill, Answered;
    var t := FillFinish(s, ids, keys, cause, done);
    var f := Fill(s, ids, keys, cause);
    FillFinishSlots(s, ids, keys, cause, done);
    FillFinishSends(s, ids, keys, cause, done);
    hide RepliesOk;
    forall n | n in t.sends && n !in s.sends ensures exists x :: At(s, x) == Some(n.to) && At(t, x) == None {
      var id :| id in done && n == Send(s.requests[id].reply, Answered(id, f.requests[id]));
      assert At(t, ScanSlot(id)) == None;
    }
    forall m, n | m in t.sends && n in t.sends && m !in s.sends && n !in s.sends && m.to == n.to ensures m == n {
      var i :| i in done && m == Send(s.requests[i].reply, Answered(i, f.requests[i]));
      var j :| j in done && n == Send(s.requests[j].reply, Answered(j, f.requests[j]));
      SlotOnce(s, ScanSlot(i), ScanSlot(j));
    }
    forall x | At(s, x).Some? && At(t, x).None? ensures Sent(t.sends, At(s, x).value) {
      assert x.ScanSlot? && x.id in done;
      assert Send(s.requests[x.id].reply, Answered(x.id, f.requests[x.id])) in t.sends;
    }
  }

  lemma MarkSlots(s: State, keys: set<WorkerKey>, reason: string)
    ensures var t := Mark(s, keys, reason);
            forall x :: At(t, x) == if (x.HelloSlot? || x.HealthSlot? || x.ReloadSlot?) && x.key in keys then None else At(s, x)
    ensures forall c :: Send(c, Err(reason)) in Mark(s, keys, reason).sends - s.sends ==>
              exists k :: k in keys && k in s.workers && c in HeldBy(s.workers[k])
    ensures forall k, c | k in keys && k in s.workers && c in HeldBy(s.workers[k]) ::
              Send(c, Err(reason)) in Mark(s, keys, reason).sends
    ensures forall n | n in Mark(s, keys, reason).sends && n !in s.sends :: n.reply == Err(reason)
    ensures s.sends <= Mark(s, keys, reason).sends
  {
  }

  lemma MarkAnswers(s: State, keys: set<WorkerKey>, reason: string)
    requires RepliesOk(s)
    ensures Answers(s, Mark(s, keys, reason))
  {
    var t := Mark(s, keys, reason);
    MarkSlots(s, keys, reason);
    hide Mark;
    forall n | n in t.sends && n !in s.sends ensures exists x :: At(s, x) == Some(n.to) && At(t, x) == None {
      assert n == Send(n.to, Err(reason));
      assert n in t.sends - s.sends;
      var k :| k in keys && k in s.workers && n.to in HeldBy(s.workers[k]);
      assert At(s, HelloSlot(k)) == Some(n.to) || At(s, HealthSlot(k)) == Some(n.to) || At(s, ReloadSlot(k)) == Some(n.to);
    }
    forall x | At(s, x).Some? && At(t, x).None? ensures Sent(t.sends, At(s, x).value) {
      assert Send(At(s, x).value, Err(reason)) in t.sends;
    }
  }

  lemma FailAllReplies(s: State, keys: set<WorkerKey>, reason: string)
    requires RepliesOk(s)
    ensures Good(s, FailAll(s, keys, reason), None)
  {
    hide Mark, FillFinish, Answers, Grows, RepliesOk;
    var marked := Mark(s, keys, reason);
    MarkAnswers(s, keys, reason);
    AnswersKeep(s, marked);
    var done := Ready(marked.requests, marked.requests.Keys, keys);
    FillFinishAnswers(marked, marked.requests.Keys, keys, Unavailable(reason), done);
    var t := FillFinish(marked, marked.requests.Keys, keys, Unavailable(reason), done);
    AnswersKeep(marked, t);
    GoodThen(s, marked, t, None);
    FailAllIs(s, keys, reason);
  }

  // ----- events

  /** The channel a command brings with it. */
  function EventChan(e: Event): Option<Chan> {
    match e
    case Register(_, _, c) => Some(c)
    case BeginHello(_, c) => Some(c)
    case BeginHealth(_, c) => Some(c)
    case Activate(_, c) => Some(c)
    case FailCommand(_, _, c) => Some(c)
    case ScanRequest(_, c) => Some(c)
    case ReloadRequest(_, _, c) => Some(c)
    case QueryActive(_, c) => Some(c)
    case Shutdown(c) => Some(c)
    case _ => None
  }

  /** One slot is answered. */
  lemma AnswerSlot(s: State, t: State, x: Slot, r: Reply)
    requires RepliesOk(s) && At(s, x).Some? && At(t, x).None?
    requires forall y :: y != x ==> At(t, y) == At(s, y)
    requires t.sends == s.sends + {Send(At(s, x).value, r)}
    ensures Good(s, t, None)
  {
    hide At;
    var n := Send(At(s, x).value, r);
    assert n in t.sends;
    AnswersKeep(s, t);
  }

  lemma GoodTell(s: State, t: State, c: Chan, r: Reply)
    requires Good(s, t, None) && Fresh(s, c)
    ensures Good(s, Tell(t, c, r), Some(c))
  {
    FreshSame(s, t, c);
    TellFresh(t, c, r);
    hide RepliesOk, Keeps, Sent, Tell;
  }

  lemma GoodSame(s: State, t: State)
    requires RepliesOk(s) && t.sends == s.sends && forall x :: At(t, x) == At(s, x)
    ensures Good(s, t, None)
  {
    NothingSaid(s, t);
    AnswersKeep(s, t);
  }

  lemma SetSlots(s: State, k: WorkerKey, w: Worker)
    ensures var t := SetWorker(s, k, w);
            forall x :: At(t, x) ==
              if x == HelloSlot(k) then w.helloReply
              else if x == HealthSlot(k) then w.healthReply
              else if x == ReloadSlot(k) then w.reloadReply
              else At(s, x)
  {
  }

  lemma FailWorkerGood(s: State, k: WorkerKey, reason: string)
    requires RepliesOk(s)
    ensures Good(s, FailWorker(s, k, reason), None)
  {
    hide RepliesOk, Seen, FailAll;
    FailAllReplies(s, {k}, reason);
  }

  /** A command is refused and its worker fails for it. */
  lemma RefuseAndFail(s: State, k: WorkerKey, c: Chan, r: Reply, reason: string)
    requires RepliesOk(s) && Fresh(s, c)
    ensures Good(s, FailWorker(Tell(s, c, r), k, reason), Some(c))
  {
    TellFresh(s, c, r);
    hide RepliesOk, Grows, FailWorker, Tell;
    FailWorkerGood(Tell(s, c, r), k, reason);
    GoodThen(s, Tell(s, c, r), FailWorker(Tell(s, c, r), k, reason), Some(c));
  }

  lemma RegisterReplies(s: State, k: WorkerKey, path: string, c: Chan)
    requires RepliesOk(s) && Fresh(s, c)
    ensures Good(s, HandleRegister(s, k, path, c), Some(c))
  {
    hide RepliesOk, Seen, Tell, Fresh;
    if k in s.workers {
      TellFresh(s, c, Err(ALREADY_REGISTERED));
    } else if HasCandidate(s, k.scannerId) {
      TellFresh(s, c, Err(HAS_CANDIDATE));
    } else {
      SetSlots(s, k, NewWorker(path));
      GoodSame(s, SetWorker(s, k, NewWorker(path)));
      GoodTell(s, SetWorker(s, k, NewWorker(path)), c, Ok);
    }
  }

  lemma HelloReplies(s: State, k: WorkerKey, c: Chan)
    requires RepliesOk(s) && Fresh(s, c)
    ensures Good(s, HandleHello(s, k, c), Some(c))
  {
    hide RepliesOk, Seen, Fresh, FailWorker;
    TellFresh(s, c, Err(NOT_STARTING));
    TellFresh(s, c, Err(ALREADY_PENDING));
    RefuseAndFail(s, k, c, Err(QUEUE_FULL), QUEUE_FULL);
    if k in s.workers && s.workers[k].state == Starting && s.workers[k].helloReply.None? && HasRoom(s.workers[k], s.capacity) {
      var w := Push(s.workers[k].(helloReply := Some(c)), Command(TypeHello));
      SetSlots(s, k, w);
      HoldFresh(s, SetWorker(s, k, w), HelloSlot(k), c);
    }
  }

  lemma HealthReplies(s: State, k: WorkerKey, c: Chan)
    requires RepliesOk(s) && Fresh(s, c)
    ensures Good(s, HandleHealth(s, k, c), Some(c))
  {
    hide RepliesOk, Seen, Fresh, FailWorker;
    TellFresh(s, c, Err(NOT_STARTING));
    TellFresh(s, c, Err(ALREADY_PENDING));
    RefuseAndFail(s, k, c, Err(QUEUE_FULL), QUEUE_FULL);
    if k in s.workers && s.workers[k].state == Starting && s.workers[k].healthReply.None? && HasRoom(s.workers[k], s.capacity) {
      var w := Push(s.workers[k].(healthReply := Some(c)), Command(TypeHealthCheck));
      SetSlots(s, k, w);
      HoldFresh(s, SetWorker(s, k, w), HealthSlot(k), c);
    }
  }

  lemma RetreatSlots(w: Worker, capacity: nat)
    ensures var w' := Retreat(w, capacity);
            w'.helloReply == w.helloReply && w'.healthReply == w.healthReply && w'.reloadReply == w.reloadReply
  {
  }

  lemma ActivateSlots(s: State, k: WorkerKey)
    requires k in s.workers
    ensures var t := Promote(Displace(s, k.scannerId), k); t.sends == s.sends && forall x :: At(t, x) == At(s, x)
  {
    var d := Displace(s, k.scannerId);
    if k.scannerId in s.active && s.active[k.scannerId] in s.workers {
      var p := s.active[k.scannerId];
      RetreatSlots(s.workers[p], s.capacity);
      hide Retreat;
      SetSlots(s, p, Retreat(s.workers[p], s.capacity));
    }
    assert forall x :: At(d, x) == At(s, x);
    SetSlots(d, k, d.workers[k].(state := Active));
    hide Displace;
  }

  lemma ActivateReplies(s: State, k: WorkerKey, c: Chan)
    requires RepliesOk(s) && Fresh(s, c)
    ensures Good(s, HandleActivate(s, k, c), Some(c))
  {
    hide RepliesOk, Seen, Fresh, Tell;
    if k !in s.workers || s.workers[k].state != Healthy {
      TellFresh(s, c, Err(NOT_HEALTHY));
    } else {
      var t := Promote(Displace(s, k.scannerId), k);
      ActivateSlots(s, k);
      hide Promote, Displace;
      GoodSame(s, t);
      GoodTell(s, t, c, Ok);
    }
  }

  lemma FailCommandReplies(s: State, k: WorkerKey, reason: string, c: Chan)
    requires RepliesOk(s) && Fresh(s, c)
    ensures Good(s, HandleFail(s, k, reason, c), Some(c))
  {
    hide RepliesOk, Seen, Fresh, Tell, FailWorker;
    TellFresh(s, c, Err(NOT_REGISTERED));
    TellFresh(s, c, Err(CANNOT_FAIL));
    FailWorkerGood(s, k, reason);
    GoodTell(s, FailWorker(s, k, reason), c, Ok);
  }

  lemma MessageReplies(s: State, k: WorkerKey, m: Message)
    requires RepliesOk(s)
    ensures Good(s, HandleMessage(s, k, m), None)
  {
    hide RepliesOk, Seen, FailWorker, Settle;
    GoodSame(s, s);
    FailWorkerGood(s, k, UNEXPECTED_MESSAGE);
    if k in s.workers && !s.workers[k].Terminal() {
      match m.kind
      case TypeHelloAck => HelloAckReplies(s, k, m);
      case TypeHealthResult => HealthResultReplies(s, k, m);
      case TypeScanResult => ScanResultReplies(s, k, m);
      case TypeReloadResult => ReloadResultReplies(s, k, m);
      case TypeShutdownAck => AckReplies(s, k);
      case _ =>
    }
  }

  lemma HelloAckReplies(s: State, k: WorkerKey, m: Message)
    requires RepliesOk(s) && k in s.workers
    ensures Good(s, HandleHelloAck(s, k, m), None)
  {
    hide RepliesOk, Seen, FailWorker;
    FailWorkerGood(s, k, UNEXPECTED_MESSAGE);
    if s.workers[k].helloReply.Some? {
      SetSlots(s, k, s.workers[k].(helloReply := None));
      AnswerSlot(s, HandleHelloAck(s, k, m), HelloSlot(k), HelloOutcome(k, m));
    }
  }

  lemma HealthResultReplies(s: State, k: WorkerKey, m: Message)
    requires RepliesOk(s) && k in s.workers
    ensures Good(s, HandleHealthResult(s, k, m), None)
  {
    hide RepliesOk, Seen, FailWorker;
    FailWorkerGood(s, k, UNEXPECTED_MESSAGE);
    var w := s.workers[k];
    if w.healthReply.Some? {
      SetSlots(s, k, w.(healthReply := None));
      SetSlots(s, k, w.(state := Healthy, healthReply := None));
      AnswerSlot(s, HandleHealthResult(s, k, m), HealthSlot(k), if m.status != "ok" then Err(UNHEALTHY) else Ok);
    }
  }

  lemma ScanResultReplies(s: State, k: WorkerKey, m: Message)
    requires RepliesOk(s)
    ensures Good(s, HandleScanResult(s, k, m), None)
  {
    if Accepts(s, k, m) {
      var done := Ready(s.requests, {m.requestId}, {k});
      hide RepliesOk;
      FillFinishAnswers(s, {m.requestId}, {k}, Answer(m), done);
      AnswersKeep(s, FillFinish(s, {m.requestId}, {k}, Answer(m), done));
    } else {
      GoodSame(s, s);
    }
  }

  lemma ReloadResultReplies(s: State, k: WorkerKey, m: Message)
    requires RepliesOk(s) && k in s.workers
    ensures Good(s, HandleReloadResult(s, k, m), None)
  {
    hide RepliesOk, Seen;
    var w := s.workers[k];
    if w.reloadReply.Some? {
      var w' := w.(reloadReply := None, reloadTimer := false, pendingSignaturePath := "",
                   signaturePath := if m.success then w.pendingSignaturePath else w.signaturePath);
      SetSlots(s, k, w');
      AnswerSlot(s, HandleReloadResult(s, k, m), ReloadSlot(k),
                 ReloadReply(k, m.signatureCount, if m.success then None else Some(m.error)));
    } else {
      GoodSame(s, s);
    }
  }

  lemma AckReplies(s: State, k: WorkerKey)
    requires RepliesOk(s) && k in s.workers
    ensures Good(s, HandleAck(s, k), None)
  {
    hide RepliesOk, Seen, FailWorker;
    FailWorkerGood(s, k, UNEXPECTED_MESSAGE);
    var w := s.workers[k].(shutdownAck := true, terminated := true);
    SetSlots(s, k, w);
    GoodSame(s, SetWorker(s, k, w));
  }

  lemma ExitReplies(s: State, k: WorkerKey, code: int, err: Option<string>)
    requires RepliesOk(s)
    ensures Good(s, HandleExit(s, k, code, err), None)
  {
    hide RepliesOk, Seen, FailWorker;
    GoodSame(s, s);
    if k in s.workers {
      var x := Exited(s.workers[k], code, err);
      SetSlots(s, k, x);
      SetSlots(s, k, x.(state := Retired));
      GoodSame(s, SetWorker(s, k, x));
      GoodSame(s, SetWorker(s, k, x.(state := Retired)));
      FailWorkerGood(SetWorker(s, k, x), k, EXITED);
    }
  }

  lemma ScanReplies(s: State, path: string, c: Chan)
    requires CoreInv(s) && RepliesOk(s) && Fresh(s, c)
    ensures Good(s, HandleScan(s, path, c), Some(c))
  {
    NewIdUnused(s);
    hide RepliesOk, Grows, Fresh, CoreInv;
    if s.stopReply.Some? {
      TellFresh(s, c, Err(SHUTTING_DOWN));
    } else if s.active == map[] {
      TellFresh(s, c, Err(NO_ACTIVE));
    } else {
      DispatchedReplies(s, path, c, s.active.Values);
      hide Admit, FailAll, Full;
      var d := Dispatched(s, path, c, s.active.Values);
      var full := Full(Admit(s, path, c), s.active.Values);
      FailAllReplies(d, full, QUEUE_FULL);
      GoodThen(s, d, FailAll(d, full, QUEUE_FULL), Some(c));
    }
  }

  lemma DispatchedReplies(s: State, path: string, c: Chan, keys: set<WorkerKey>)
    requires RepliesOk(s) && Fresh(s, c) && s.nextRequestID + 1 !in s.requests
    ensures Good(s, Dispatched(s, path, c, keys), Some(c))
  {
    hide RepliesOk, Grows, Fresh;
    var a := Admit(s, path, c);
    var d := Dispatched(s, path, c, keys);
    AdmitSlots(s, path, c);
    hide Admit;
    HoldFresh(s, a, ScanSlot(s.nextRequestID + 1), c);
    SameSlots(a, d);
    GoodSame(a, d);
    GoodThen(s, a, d, Some(c));
  }

  lemma AdmitSlots(s: State, path: string, c: Chan)
    requires s.nextRequestID + 1 !in s.requests
    ensures var t := Admit(s, path, c); var x := ScanSlot(s.nextRequestID + 1);
            t.sends == s.sends && At(s, x) == None && At(t, x) == Some(c) && forall y :: y != x ==> At(t, y) == At(s, y)
  {
  }

  lemma ScanTimeoutReplies(s: State, id: nat)
    requires RepliesOk(s)
    ensures Good(s, HandleScanTimeout(s, id), None)
  {
    if id in s.requests {
      hide RepliesOk;
      FillFinishAnswers(s, {id}, s.requests[id].results.Keys, Timeout, {id});
      AnswersKeep(s, FillFinish(s, {id}, s.requests[id].results.Keys, Timeout, {id}));
    } else {
      GoodSame(s, s);
    }
  }

  lemma ReloadReplies(s: State, scannerId: string, path: string, c: Chan)
    requires RepliesOk(s) && Fresh(s, c)
    ensures Good(s, HandleReload(s, scannerId, path, c), Some(c))
  {
    hide RepliesOk, Seen, Fresh, FailWorker;
    TellFresh(s, c, Err(NO_ACTIVE_WORKER));
    TellFresh(s, c, Err(RELOAD_IN_PROGRESS));
    if scannerId in s.active && s.active[scannerId] in s.workers && s.workers[s.active[scannerId]].reloadReply.None? {
      var k := s.active[scannerId];
      var w := s.workers[k];
      var w1 := Push(w.(reloadReply := Some(c), pendingSignaturePath := path, reloadTimer := true), ReloadCommand(path));
      SetSlots(s, k, w1);
      HoldFresh(s, SetWorker(s, k, w1), ReloadSlot(k), c);
      var w2 := w.(pendingSignaturePath := "");
      SetSlots(s, k, w2);
      GoodSame(s, SetWorker(s, k, w2));
      FreshSame(s, SetWorker(s, k, w2), c);
      RefuseAndFail(SetWorker(s, k, w2), k, c, Err(QUEUE_FULL), QUEUE_FULL);
      GoodAfter(s, SetWorker(s, k, w2), FailWorker(Tell(SetWorker(s, k, w2), c, Err(QUEUE_FULL)), k, QUEUE_FULL), Some(c));
    }
  }

  lemma GoodAfter(s: State, t: State, u: State, c: Option<Chan>)
    requires Good(s, t, None) && Good(t, u, c)
    ensures Good(s, u, c)
  {
    hide Seen, RepliesOk;
  }

  lemma FreshSame(s: State, t: State, c: Chan)
    requires Grows(s, t, None) && Fresh(s, c)
    ensures Fresh(t, c)
  {
    hide Keeps, Sent;
    assert !Seen(t, c);
  }

  lemma ReloadTimeoutReplies(s: State, k: WorkerKey)
    requires RepliesOk(s)
    ensures Good(s, HandleReloadTimeout(s, k), None)
  {
    hide RepliesOk, Seen;
    if k in s.workers && s.workers[k].reloadReply.Some? {
      SetSlots(s, k, s.workers[k].(reloadReply := None, pendingSignaturePath := ""));
      AnswerSlot(s, HandleReloadTimeout(s, k), ReloadSlot(k), Err(RELOAD_TIMED_OUT));
    } else {
      GoodSame(s, s);
    }
  }

  lemma DrainSlots(s: State)
    ensures DrainAll(s).sends == s.sends && forall x :: At(DrainAll(s), x) == At(s, x)
  {
    var t := DrainAll(s);
    hide At, RequestShutdown;
    forall k | k in s.workers
      ensures t.workers[k].helloReply == s.workers[k].helloReply && t.workers[k].healthReply == s.workers[k].healthReply
              && t.workers[k].reloadReply == s.workers[k].reloadReply
    {
      DrainedSlots(s.workers[k], s.capacity);
    }
    SameSlots(s, t);
  }

  lemma DrainedSlots(w: Worker, capacity: nat)
    ensures var w' := RequestShutdown(w.(state := Draining), capacity);
            w'.helloReply == w.helloReply && w'.healthReply == w.healthReply && w'.reloadReply == w.reloadReply
  {
  }

  lemma ShutdownReplies(s: State, c: Chan)
    requires RepliesOk(s) && Fresh(s, c) && s.stopReply.None? && s.phase == Running
    ensures Good(s, HandleShutdown(s, c), Some(c))
  {
    hide RepliesOk, Grows, Fresh, DrainAll;
    var h := s.(stopReply := Some(c));
    HoldFresh(s, h, StopSlot, c);
    FillFinishAnswers(h, h.requests.Keys, h.workers.Keys, Unavailable(SHUTTING_DOWN), h.requests.Keys);
    var a := AbandonAll(h);
    AnswersKeep(h, a);
    hide AbandonAll;
    GoodThen(s, h, a, Some(c));
    DrainSlots(a);
    GoodSame(a, DrainAll(a));
    GoodThen(s, a, DrainAll(a), Some(c));
  }

  lemma DequeueReplies(s: State, k: WorkerKey)
    requires RepliesOk(s)
    ensures Good(s, HandleDequeue(s, k), None)
  {
    hide RepliesOk, Seen;
    GoodSame(s, s);
    if k in s.workers && s.workers[k].queue != [] {
      var w := s.workers[k];
      SetSlots(s, k, w.(queue := w.queue[1..], written := w.written + [w.queue[0]]));
      GoodSame(s, HandleDequeue(s, k));
    }
  }

  lemma CloseSlots(s: State, phase: Phase)
    ensures Close(s, phase).sends == s.sends
    ensures forall x :: At(Close(s, phase), x) ==
              if x == StopSlot then (if phase == ShutDown then None else s.stopReply) else At(s, x)
  {
  }

  lemma HandleReplies(s: State, e: Event)
    requires CoreInv(s) && RepliesOk(s) && s.phase == Running && (EventChan(e).Some? ==> Fresh(s, EventChan(e).value))
    ensures Good(s, Handle(s, e), EventChan(e))
  {
    hide CoreInv, RepliesOk, Grows, Fresh;
    match e
    case Register(k, path, c) => RegisterReplies(s, k, path, c);
    case BeginHello(k, c) => HelloReplies(s, k, c);
    case BeginHealth(k, c) => HealthReplies(s, k, c);
    case Activate(k, c) => ActivateReplies(s, k, c);
    case FailCommand(k, reason, c) => FailCommandReplies(s, k, reason, c);
    case WorkerMessage(k, m) => MessageReplies(s, k, m);
    case WorkerFailure(k, reason) => FailWorkerGood(s, k, reason);
    case WorkerExit(k, code, err) => ExitReplies(s, k, code, err);
    case ScanRequest(path, c) => ScanReplies(s, path, c);
    case ScanTimeout(id) => ScanTimeoutReplies(s, id);
    case ReloadRequest(scannerId, path, c) => ReloadReplies(s, scannerId, path, c);
    case ReloadTimeout(k) => ReloadTimeoutReplies(s, k);
    case QueryActive(scannerId, c) => QueryReplies(s, scannerId, c);
    case Shutdown(c) =>
      if s.stopReply.Some? {
        RefuseStop(s, c);
      } else {
        ShutdownReplies(s, c);
      }
    case Dequeue(k) => DequeueReplies(s, k);
    case Cancel =>
      CloseSlots(s, Cancelled);
      GoodSame(s, Close(s, Cancelled));
  }

  lemma RefuseStop(s: State, c: Chan)
    requires RepliesOk(s) && Fresh(s, c)
    ensures Good(s, Tell(s, c, Err(STOP_IN_PROGRESS)), Some(c))
  {
    TellFresh(s, c, Err(STOP_IN_PROGRESS));
  }

  lemma QueryReplies(s: State, scannerId: string, c: Chan)
    requires RepliesOk(s) && Fresh(s, c)
    ensures Good(s, HandleQuery(s, scannerId, c), Some(c))
  {
    hide RepliesOk, Seen, Fresh, Tell;
    TellFresh(s, c, Err(NO_ACTIVE_WORKER));
    if scannerId in s.active && s.active[scannerId] in s.workers {
      TellFresh(s, c, WorkerReply(s.active[scannerId], s.workers[s.active[scannerId]].signaturePath));
    }
  }

  lemma StepReplies(s: State, e: Event)
    requires CoreInv(s) && RepliesOk(s) && (EventChan(e).Some? ==> Fresh(s, EventChan(e).value)) && s.phase == Running
    ensures Good(s, Step(s, e), EventChan(e))
  {
    hide CoreInv, RepliesOk, Grows, Fresh, Handle;
    var t := Handle(s, e);
    HandleReplies(s, e);
    if !SkipsStopCheck(s, e) && t.stopReply.Some? && AllExited(t) {
      var u := Close(Tell(t, t.stopReply.value, Ok), ShutDown);
      CloseSlots(Tell(t, t.stopReply.value, Ok), ShutDown);
      PhaseKept(s, e);
      hide Close;
      AnswerSlot(t, u, StopSlot, Ok);
      GoodThen(s, t, u, EventChan(e));
    }
  }

  lemma FailPhase(s: State, k: WorkerKey, reason: string)
    ensures FailWorker(s, k, reason).phase == s.phase
  {
    hide Release, Using, Unroute, Answered, FillResults;
  }

  lemma MessagePhase(s: State, k: WorkerKey, m: Message)
    ensures HandleMessage(s, k, m).phase == s.phase
  {
    hide FailWorker, Using, Answered, FillResults;
    FailPhase(s, k, UNEXPECTED_MESSAGE);
  }

  lemma ScanPhase(s: State, path: string, c: Chan)
    ensures HandleScan(s, path, c).phase == s.phase
  {
    hide Full, Using, Answered, FillResults, Unroute;
  }

  lemma ShutdownPhase(s: State, c: Chan)
    ensures HandleShutdown(s, c).phase == s.phase
  {
    hide RequestShutdown, Using, Answered, FillResults;
  }

  lemma ActivatePhase(s: State, k: WorkerKey, c: Chan)
    ensures HandleActivate(s, k, c).phase == s.phase
  {
    hide Retreat;
  }

  lemma FillPhase(s: State, id: nat)
    ensures HandleScanTimeout(s, id).phase == s.phase
  {
    hide Using, Answered, FillResults;
  }

  lemma CheckPhase(s: State, k: WorkerKey, c: Chan)
    ensures HandleHello(s, k, c).phase == s.phase && HandleHealth(s, k, c).phase == s.phase
  {
    hide FailWorker;
    FailPhase(Tell(s, c, Err(QUEUE_FULL)), k, QUEUE_FULL);
  }

  lemma EndPhase(s: State, k: WorkerKey, code: int, err: Option<string>, reason: string, c: Chan)
    ensures HandleFail(s, k, reason, c).phase == s.phase && HandleExit(s, k, code, err).phase == s.phase
  {
    hide FailWorker;
    FailPhase(s, k, reason);
    if k in s.workers { FailPhase(SetWorker(s, k, Exited(s.workers[k], code, err)), k, EXITED); }
  }

  lemma ReloadPhase(s: State, scannerId: string, path: string, c: Chan, k: WorkerKey)
    ensures HandleReload(s, scannerId, path, c).phase == s.phase && HandleReloadTimeout(s, k).phase == s.phase
  {
    hide FailWorker;
    if scannerId in s.active && s.active[scannerId] in s.workers {
      var j := s.active[scannerId];
      FailPhase(Tell(SetWorker(s, j, s.workers[j].(pendingSignaturePath := "")), c, Err(QUEUE_FULL)), j, QUEUE_FULL);
    }
  }

  lemma PhaseKept(s: State, e: Event)
    requires !e.Cancel?
    ensures Handle(s, e).phase == s.phase
  {
    hide FailWorker, HandleHello, HandleHealth, HandleFail, HandleExit, HandleReload, HandleReloadTimeout, HandleScanTimeout,
         HandleMessage, HandleScan, HandleShutdown, HandleActivate;
    match e
    case BeginHello(k, c) => CheckPhase(s, k, c);
    case BeginHealth(k, c) => CheckPhase(s, k, c);
    case FailCommand(k, reason, c) => EndPhase(s, k, 0, None, reason, c);
    case WorkerMessage(k, m) => MessagePhase(s, k, m);
    case WorkerFailure(k, reason) => FailPhase(s, k, reason);
    case WorkerExit(k, code, err) => EndPhase(s, k, code, err, "", 0);
    case ScanRequest(path, c) => ScanPhase(s, path, c);
    case ScanTimeout(id) => FillPhase(s, id);
    case ReloadRequest(scannerId, path, c) => ReloadPhase(s, scannerId, path, c, WorkerKey("", ""));
    case ReloadTimeout(k) => ReloadPhase(s, "", "", 0, k);
    case Activate(k, c) => ActivatePhase(s, k, c);
    case Shutdown(c) => ShutdownPhase(s, c);
    case _ =>
  }

  // ----- runs

  /** The channels of the commands that the loop took. */
  function Chans(events: seq<Event>): set<Chan> {
    set i | 0 <= i < |events| && EventChan(events[i]).Some? :: EventChan(events[i]).value
  }

  /** Each command brings a channel of its own. */
  ghost predicate OwnChans(events: seq<Event>) {
    forall i, j | 0 <= i < j < |events| && EventChan(events[i]).Some? :: EventChan(events[i]) != EventChan(events[j])
  }

  lemma ChansStep(events: seq<Event>)
    requires events != []
    ensures var n := |events| - 1;
            && (forall c: Chan :: c in Chans(events) <==> c in Chans(events[..n]) || EventChan(events[n]) == Some(c))
            && (OwnChans(events) ==> OwnChans(events[..n]))
            && (OwnChans(events) ==> forall c: Chan | EventChan(events[n]) == Some(c) :: c !in Chans(events[..n]))
  {
    var n := |events| - 1;
    forall c: Chan ensures c in Chans(events) <==> c in Chans(events[..n]) || EventChan(events[n]) == Some(c) {
      if c in Chans(events[..n]) {
        var i :| 0 <= i < n && EventChan(events[..n][i]) == Some(c);
        assert EventChan(events[i]) == Some(c);
      }
    }
  }

  /**
   Over every run no channel is answered twice; and while the loop runs, every command's channel was
   answered exactly once or is still kept for its answer.
   */
  lemma {:induction false} ReplyDiscipline(capacity: nat, events: seq<Event>)
    requires EventsOk(events) && OwnChans(events)
    ensures RepliesOk(Run(capacity, events))
    ensures forall c: Chan :: Seen(Run(capacity, events), c) ==> c in Chans(events)
    ensures Run(capacity, events).phase == Running ==>
              forall c: Chan :: c in Chans(events) ==> Seen(Run(capacity, events), c)
  {
    if events == [] {
      assert forall x :: At(Init(capacity), x) == None;
    } else {
      var n := |events| - 1;
      var s := Run(capacity, events[..n]);
      var e := events[n];
      ChansStep(events);
      ReplyDiscipline(capacity, events[..n]);
      RunKeeps(capacity, events[..n]);
      hide CoreInv, RepliesOk, Step, Chans, OwnChans;
      if s.phase == Running {
        if EventChan(e).Some? {
          assert !Seen(s, EventChan(e).value);
        }
        hide Seen;
        StepReplies(s, e);
        StaysOut(s, e);
      } else {
        hide Seen;
        StaysOut(s, e);
      }
    }
  }

  /** A loop that was left is not entered again. */
  lemma StaysOut(s: State, e: Event)
    ensures s.phase != Running ==> Step(s, e) == s
  {
  }
}
