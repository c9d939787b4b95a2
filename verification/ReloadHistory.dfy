/** Reloads told in order: which messages are about them, and which path a history of them leaves. */
module ReloadHistory {
  import opened Wrappers
  import opened Messages

  /** The messages of one kind, in order. */
  function OfKind(messages: seq<Message>, kind: MessageType): seq<Message> {
    if messages == [] then []
    else
      var n := |messages| - 1;
      OfKind(messages[..n], kind) + if messages[n].kind == kind then [messages[n]] else []
  }

  function Reloads(messages: seq<Message>): seq<Message> { OfKind(messages, TypeReload) }

  function Results(messages: seq<Message>): seq<Message> { OfKind(messages, TypeReloadResult) }

  lemma OfKindMore(messages: seq<Message>, m: Message, kind: MessageType)
    ensures OfKind(messages + [m], kind) == if m.kind == kind then OfKind(messages, kind) + [m] else OfKind(messages, kind)
  {
    assert (messages + [m])[..|messages|] == messages;
    assert OfKind(messages, kind) + [] == OfKind(messages, kind);
  }

  lemma ReloadsMore(messages: seq<Message>, m: Message)
    ensures Reloads(messages + [m]) == if m.kind == TypeReload then Reloads(messages) + [m] else Reloads(messages)
  {
    OfKindMore(messages, m, TypeReload);
  }

  lemma ResultsMore(messages: seq<Message>, m: Message)
    ensures Results(messages + [m]) == if m.kind == TypeReloadResult then Results(messages) + [m] else Results(messages)
  {
    OfKindMore(messages, m, TypeReloadResult);
  }

  lemma {:induction false} OfKindPrefix(a: seq<Message>, b: seq<Message>, kind: MessageType)
    requires a <= b
    ensures OfKind(a, kind) <= OfKind(b, kind)
    decreases |b|
  {
    if |a| < |b| {
      var n := |b| - 1;
      OfKindPrefix(a, b[..n], kind);
    } else {
      assert a == b;
    }
  }

  /** The number, counted from one, of the last load that succeeded; 0 if none did. */
  function Latest(loads: seq<Result<nat>>): (n: nat)
    ensures n <= |loads| && (n > 0 ==> loads[n - 1].Success?)
  {
    if loads == [] then 0
    else if loads[|loads| - 1].Success? then |loads|
    else Latest(loads[..|loads| - 1])
  }

  lemma LatestMore(loads: seq<Result<nat>>, load: Result<nat>)
    ensures Latest(loads + [load]) == if load.Success? then |loads| + 1 else Latest(loads)
  {
    assert (loads + [load])[..|loads|] == loads;
  }

  lemma LatestAt(loads: seq<Result<nat>>, d: nat)
    requires |loads| == d + 1
    ensures Latest(loads) == if loads[d].Success? then d + 1 else Latest(loads[..d])
  {
  }

  /** The path of RELOAD number n, or the first path if n is 0. */
  function PathOf(first: string, reloads: seq<Message>, n: nat): string {
    if 0 < n <= |reloads| then reloads[n - 1].signaturePath else first
  }

  /** Load number n was tried and succeeded. */
  predicate Took(loads: seq<Result<nat>>, n: nat) { 0 < n <= |loads| && loads[n - 1].Success? }
}
