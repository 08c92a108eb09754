/** Model of the event bus (`bus.ts`): prompt requests that are resolved by whichever
    matching answer first reaches the pending map, while listeners call back into the bus
    in the middle of an emit.

    A `Call` is one call on the bus together with the calls its listeners make before it
    returns, so a call is a tree and every tree is a possible behaviour of the listeners. A
    listener may also throw, which ends the emit it runs in, and may catch what the calls it
    makes throw. */
module EventBus {
  import opened Outcomes
  import opened Ordering

  datatype PromptId = PromptId(key: int)

  /** The n-th promise `request` returned. */
  datatype Handle = Handle(n: nat)

  datatype Entry = Entry(id: PromptId, handle: Handle)

  /** A call of the `resolve` of a promise, or the rejection by a throw while it was made. */
  datatype Settlement = Resolve(handle: Handle, text: string) | Reject(handle: Handle)

  datatype Call =
    | EmitAnswered(id: PromptId, text: string, reactions: seq<Call>)
    | EmitOther(reactions: seq<Call>)
    | Request(id: PromptId, reactions: seq<Call>)
    | AnswerPrompt(id: PromptId, text: string, reactions: seq<Call>)
    | Subscribe
    | CloseBus
    | Throw
    | Attempt(body: seq<Call>)

  /** The pending map in insertion order, the listeners, and every attempt to settle a
      promise so far. */
  datatype Bus = Bus(pending: seq<Entry>, listening: bool, requests: nat, settlements: seq<Settlement>)

  /** The bus after a call, and whether the call threw. */
  datatype Done = Done(bus: Bus, threw: bool)

  const NEW_BUS := Bus([], true, 0, [])

  // ---------- the pending map ----------

  function Lookup(pending: seq<Entry>, id: PromptId): Option<Handle> {
    if pending == [] then None
    else if pending[0].id == id then Some(pending[0].handle)
    else Lookup(pending[1..], id)
  }

  /** `Map.set`: an existing key keeps its position. */
  function SetEntry(pending: seq<Entry>, id: PromptId, handle: Handle): seq<Entry> {
    if pending == [] then [Entry(id, handle)]
    else if pending[0].id == id then [Entry(id, handle)] + pending[1..]
    else [pending[0]] + SetEntry(pending[1..], id, handle)
  }

  function RemoveEntry(pending: seq<Entry>, id: PromptId): seq<Entry> {
    if pending == [] then []
    else if pending[0].id == id then pending[1..]
    else [pending[0]] + RemoveEntry(pending[1..], id)
  }

  // ---------- promises ----------

  /** A promise settles once: the first attempt counts, later ones do nothing. */
  function OutcomeOf(settlements: seq<Settlement>, handle: Handle): Option<Settlement> {
    if settlements == [] then None
    else if settlements[0].handle == handle then Some(settlements[0])
    else OutcomeOf(settlements[1..], handle)
  }

  predicate IsOpen(b: Bus, handle: Handle) { OutcomeOf(b.settlements, handle).None? }

  predicate IsRejected(b: Bus, handle: Handle) { OutcomeOf(b.settlements, handle) == Some(Reject(handle)) }

  lemma {:induction false} FirstSettlementCounts(s: seq<Settlement>, t: seq<Settlement>, handle: Handle)
    ensures OutcomeOf(s + t, handle)
            == if OutcomeOf(s, handle).Some? then OutcomeOf(s, handle) else OutcomeOf(t, handle)
  {
    if s == [] {
      assert s + t == t;
    } else {
      assert (s + t)[1..] == s[1..] + t;
      FirstSettlementCounts(s[1..], t, handle);
    }
  }

  lemma {:induction false} OutcomeIsAnAttempt(s: seq<Settlement>, handle: Handle)
    ensures OutcomeOf(s, handle).Some?
            ==> OutcomeOf(s, handle).value in s && OutcomeOf(s, handle).value.handle == handle
    ensures OutcomeOf(s, handle).None? ==> forall x :: x in s ==> x.handle != handle
  {
    if s != [] {
      OutcomeIsAnAttempt(s[1..], handle);
    }
  }

  // ---------- what reaches the map ----------

  /** The three things that happen to the pending map, and the rejection of a promise. */
  datatype Effect = Registered(id: PromptId) | Reached(id: PromptId, text: string) | Closed | Aborted(handle: Handle)

  function ClosedAnswers(pending: seq<Entry>): seq<Settlement> {
    seq(|pending|, i requires 0 <= i < |pending| => Resolve(pending[i].handle, ""))
  }

  function Apply(b: Bus, e: Effect): Bus {
    match e
    case Registered(id) => b.(pending := SetEntry(b.pending, id, Handle(b.requests)), requests := b.requests + 1)
    case Reached(id, text) =>
      var handle := Lookup(b.pending, id);
      if handle.None? then b
      else b.(pending := RemoveEntry(b.pending, id), settlements := b.settlements + [Resolve(handle.value, text)])
    case Closed => b.(pending := [], listening := false, settlements := b.settlements + ClosedAnswers(b.pending))
    case Aborted(handle) => b.(settlements := b.settlements + [Reject(handle)])
  }

  function ApplyAll(b: Bus, effects: seq<Effect>): Bus
    decreases |effects|
  {
    if effects == [] then b else ApplyAll(Apply(b, effects[0]), effects[1..])
  }

  // ---------- calls ----------

  /** The listeners run, then the answer reaches the map: the order inside `emit`. If a
      listener throws, the emit ends there. A `request` turns that into a rejection of its
      promise, unless that is settled already; its entry is still in the map. */
  function Perform(b: Bus, call: Call): Done
    decreases call, 1
  {
    match call
    case EmitAnswered(id, text, reactions) => Answered(React(b, reactions), id, text)
    case EmitOther(reactions) => React(b, reactions)
    case Request(id, reactions) => Requested(React(Apply(b, Registered(id)), reactions), Handle(b.requests))
    case AnswerPrompt(id, text, reactions) =>
      if Lookup(b.pending, id).None? then Done(b, false) else Answered(React(b, reactions), id, text)
    case Subscribe => Done(b.(listening := true), false)
    case CloseBus => Done(Apply(b, Closed), false)
    case Throw => Done(b, true)
    case Attempt(body) => Done(PerformAll(b, body).bus, false)
  }

  function Answered(d: Done, id: PromptId, text: string): Done {
    if d.threw then d else Done(Apply(d.bus, Reached(id, text)), false)
  }

  function Requested(d: Done, handle: Handle): Done {
    Done(if d.threw then Apply(d.bus, Aborted(handle)) else d.bus, false)
  }

  /** What the listeners do during one emit; a closed bus has none. */
  function React(b: Bus, reactions: seq<Call>): Done
    decreases reactions, 1
  {
    if b.listening then PerformAll(b, reactions) else Done(b, false)
  }

  function PerformAll(b: Bus, calls: seq<Call>): Done
    decreases calls, 0
  {
    if calls == [] then Done(b, false)
    else
      var d := Perform(b, calls[0]);
      if d.threw then d else PerformAll(d.bus, calls[1..])
  }

  /** The value `answer` returns. */
  predicate AnswerReturns(b: Bus, id: PromptId) { Lookup(b.pending, id).Some? }

  // ---------- the order in which a call tree touches the map ----------

  function Effects(b: Bus, call: Call): seq<Effect>
    decreases call, 1
  {
    match call
    case EmitAnswered(id, text, reactions) =>
      ReactEffects(b, reactions) + ReachedUnless(React(b, reactions).threw, id, text)
    case EmitOther(reactions) => ReactEffects(b, reactions)
    case Request(id, reactions) => [Registered(id)] + RequestEffects(b, id, reactions)
    case AnswerPrompt(id, text, reactions) =>
      if Lookup(b.pending, id).None? then []
      else ReactEffects(b, reactions) + ReachedUnless(React(b, reactions).threw, id, text)
    case Subscribe => []
    case CloseBus => [Closed]
    case Throw => []
    case Attempt(body) => AllEffects(b, body)
  }

  /** What follows on the registration before `request` returns. */
  function RequestEffects(b: Bus, id: PromptId, reactions: seq<Call>): seq<Effect>
    decreases reactions, 2
  {
    var registered := Apply(b, Registered(id));
    ReactEffects(registered, reactions) + AbortedIf(React(registered, reactions).threw, Handle(b.requests))
  }

  function AbortedIf(threw: bool, handle: Handle): seq<Effect> { if threw then [Aborted(handle)] else [] }

  function ReachedUnless(threw: bool, id: PromptId, text: string): seq<Effect> {
    if threw then [] else [Reached(id, text)]
  }

  function ReactEffects(b: Bus, reactions: seq<Call>): seq<Effect>
    decreases reactions, 1
  {
    if b.listening then AllEffects(b, reactions) else []
  }

  function AllEffects(b: Bus, calls: seq<Call>): seq<Effect>
    decreases calls, 0
  {
    if calls == [] then []
    else
      var d := Perform(b, calls[0]);
      Effects(b, calls[0]) + if d.threw then [] else AllEffects(d.bus, calls[1..])
  }

  /** Equal but for who listens. */
  predicate SameRequests(a: Bus, b: Bus) {
    a.pending == b.pending && a.requests == b.requests && a.settlements == b.settlements
  }

  lemma {:induction false} ApplyAllConcat(b: Bus, e: seq<Effect>, f: seq<Effect>)
    ensures ApplyAll(b, e + f) == ApplyAll(ApplyAll(b, e), f)
    decreases |e|
  {
    if e == [] {
      assert e + f == f;
    } else {
      assert (e + f)[1..] == e[1..] + f;
      ApplyAllConcat(Apply(b, e[0]), e[1..], f);
    }
  }

  lemma {:induction false} ApplyAllSame(a: Bus, b: Bus, effects: seq<Effect>)
    requires SameRequests(a, b)
    ensures SameRequests(ApplyAll(a, effects), ApplyAll(b, effects))
    decreases |effects|
  {
    if effects != [] {
      ApplyAllSame(Apply(a, effects[0]), Apply(b, effects[0]), effects[1..]);
    }
  }

  lemma {:induction false} AnsweredInOrder(b: Bus, d: Done, before: seq<Effect>, id: PromptId, text: string)
    requires SameRequests(d.bus, ApplyAll(b, before))
    ensures SameRequests(Answered(d, id, text).bus, ApplyAll(b, before + ReachedUnless(d.threw, id, text)))
  {
    ApplyAllConcat(b, before, ReachedUnless(d.threw, id, text));
    ApplyAllSame(d.bus, ApplyAll(b, before), ReachedUnless(d.threw, id, text));
  }

  lemma {:induction false} RequestedInOrder(b: Bus, id: PromptId, reactions: seq<Call>)
    requires var registered := Apply(b, Registered(id));
             SameRequests(React(registered, reactions).bus, ApplyAll(registered, ReactEffects(registered, reactions)))
    ensures SameRequests(Perform(b, Request(id, reactions)).bus, ApplyAll(Apply(b, Registered(id)), RequestEffects(b, id, reactions)))
  {
    var registered := Apply(b, Registered(id));
    var d := React(registered, reactions);
    var before, last := ReactEffects(registered, reactions), AbortedIf(d.threw, Handle(b.requests));
    ApplyAllConcat(registered, before, last);
    ApplyAllSame(d.bus, ApplyAll(registered, before), last);
  }

  /** A call tree acts on the requests exactly as its effects do one after the other: the
      listeners' effects come before the answer that was being emitted. */
  lemma {:induction false} CallsActInOrder(b: Bus, call: Call)
    ensures SameRequests(Perform(b, call).bus, ApplyAll(b, Effects(b, call)))
    decreases call, 1
  {
    hide Answered, ReachedUnless;
    match call
    case EmitAnswered(id, text, reactions) =>
      ReactionsActInOrder(b, reactions);
      AnsweredInOrder(b, React(b, reactions), ReactEffects(b, reactions), id, text);
    case EmitOther(reactions) =>
      ReactionsActInOrder(b, reactions);
    case Request(id, reactions) =>
      var registered := Apply(b, Registered(id));
      ReactionsActInOrder(registered, reactions);
      RequestedInOrder(b, id, reactions);
      assert Effects(b, call)[1..] == RequestEffects(b, id, reactions);
    case AnswerPrompt(id, text, reactions) =>
      if Lookup(b.pending, id).Some? {
        ReactionsActInOrder(b, reactions);
        AnsweredInOrder(b, React(b, reactions), ReactEffects(b, reactions), id, text);
      }
    case Attempt(body) =>
      AllCallsActInOrder(b, body);
    case Subscribe =>
    case CloseBus =>
    case Throw =>
  }

  lemma {:induction false} ReactionsActInOrder(b: Bus, reactions: seq<Call>)
    ensures SameRequests(React(b, reactions).bus, ApplyAll(b, ReactEffects(b, reactions)))
    decreases reactions, 1
  {
    if b.listening {
      AllCallsActInOrder(b, reactions);
    }
  }

  lemma {:induction false} AllCallsActInOrder(b: Bus, calls: seq<Call>)
    ensures SameRequests(PerformAll(b, calls).bus, ApplyAll(b, AllEffects(b, calls)))
    decreases calls, 0
  {
    if calls != [] {
      var d := Perform(b, calls[0]);
      CallsActInOrder(b, calls[0]);
      var later := if d.threw then [] else AllEffects(d.bus, calls[1..]);
      if !d.threw {
        AllCallsActInOrder(d.bus, calls[1..]);
      }
      ApplyAllConcat(b, Effects(b, calls[0]), later);
      ApplyAllSame(d.bus, ApplyAll(b, Effects(b, calls[0])), later);
    }
  }

  // ---------- the map, the listeners and the throws ----------

  lemma {:induction false} NewKeyGoesLast(pending: seq<Entry>, id: PromptId, handle: Handle)
    requires forall e :: e in pending ==> e.id != id
    ensures SetEntry(pending, id, handle) == pending + [Entry(id, handle)]
    ensures RemoveEntry(pending, id) == pending && Lookup(pending, id) == None
  {
    if pending != [] {
      NewKeyGoesLast(pending[1..], id, handle);
    }
  }

  /** A key that is there keeps its place, and a removed one leaves the order of the others. */
  lemma {:induction false} KeyKeepsItsPlace(pending: seq<Entry>, i: nat, id: PromptId, handle: Handle)
    requires i < |pending| && pending[i].id == id && forall j :: 0 <= j < i ==> pending[j].id != id
    ensures SetEntry(pending, id, handle) == pending[i := Entry(id, handle)]
    ensures RemoveEntry(pending, id) == pending[..i] + pending[i + 1..]
    ensures Lookup(pending, id) == Some(pending[i].handle)
  {
    if i > 0 {
      assert pending[0].id != id;
      KeyKeepsItsPlace(pending[1..], i - 1, id, handle);
      assert [pending[0]] + pending[1..][..i - 1] == pending[..i];
    }
  }

  /** An answer to a prompt that is not pending: `answer` returns at once, without the
      listeners, and an emitted one does no more than its listeners do. */
  lemma {:induction false} NoRequestNoAnswer(b: Bus, id: PromptId, text: string, reactions: seq<Call>)
    requires forall e :: e in b.pending ==> e.id != id
    ensures !AnswerReturns(b, id) && Perform(b, AnswerPrompt(id, text, reactions)) == Done(b, false)
    ensures Perform(b, EmitAnswered(id, text, [])) == Done(b, false)
  {
    NewKeyGoesLast(b.pending, id, Handle(0));
    assert React(b, []) == Done(b, false);
  }

  /** A throw ends the calls it is among, and the bus stays as it was then; a listener that
      catches it goes on from there. */
  lemma {:induction false} ThrowEndsTheCalls(b: Bus, before: seq<Call>, rest: seq<Call>, later: seq<Call>)
    ensures PerformAll(b, before + [Throw] + rest) == Done(PerformAll(b, before).bus, true)
    ensures PerformAll(b, [Attempt(before + [Throw] + rest)] + later) == PerformAll(PerformAll(b, before).bus, later)
    decreases before
  {
    var all := before + [Throw] + rest;
    if before == [] {
      assert all[0] == Throw;
    } else {
      var d := Perform(b, before[0]);
      assert all[0] == before[0] && all[1..] == before[1..] + [Throw] + rest;
      if !d.threw {
        ThrowEndsTheCalls(d.bus, before[1..], rest, later);
      }
    }
    assert ([Attempt(all)] + later)[1..] == later;
  }

  /** No listener is added while these calls run on a bus that has none. */
  predicate NobodySubscribes(calls: seq<Call>) {
    calls != [] ==>
      && !calls[0].Subscribe? && (calls[0].Attempt? ==> NobodySubscribes(calls[0].body))
      && NobodySubscribes(calls[1..])
  }

  /** The call without its listeners. */
  function Unheard(call: Call): Call
    decreases call, 1
  {
    match call
    case EmitAnswered(id, text, _) => EmitAnswered(id, text, [])
    case EmitOther(_) => EmitOther([])
    case Request(id, _) => Request(id, [])
    case AnswerPrompt(id, text, _) => AnswerPrompt(id, text, [])
    case Attempt(body) => Attempt(AllUnheard(body))
    case _ => call
  }

  function AllUnheard(calls: seq<Call>): (unheard: seq<Call>)
    ensures |unheard| == |calls|
    decreases calls, 0
  {
    if calls == [] then [] else [Unheard(calls[0])] + AllUnheard(calls[1..])
  }

  lemma {:induction false} UnheardAlone(b: Bus, call: Call)
    requires !b.listening && !call.Subscribe?
    requires call.Attempt? ==>
               PerformAll(b, call.body) == PerformAll(b, AllUnheard(call.body)) && !PerformAll(b, call.body).bus.listening
    ensures Perform(b, call) == Perform(b, Unheard(call)) && !Perform(b, call).bus.listening
  {
  }

  /** A bus without listeners does what it is called for and nothing a listener would do, and
      has none until somebody subscribes. */
  lemma {:induction false} NobodyHears(b: Bus, calls: seq<Call>)
    requires !b.listening && NobodySubscribes(calls)
    ensures PerformAll(b, calls) == PerformAll(b, AllUnheard(calls)) && !PerformAll(b, calls).bus.listening
    decreases calls
  {
    if calls != [] {
      var call := calls[0];
      if call.Attempt? {
        NobodyHears(b, call.body);
      }
      var d := Perform(b, call);
      UnheardAlone(b, call);
      assert AllUnheard(calls)[1..] == AllUnheard(calls[1..]);
      if !d.threw {
        NobodyHears(d.bus, calls[1..]);
      }
    }
  }

  /** What `close` leaves: nothing pending, no listeners, and "" for every request that was
      waiting, in the order of the map. */
  lemma {:induction false} ClosingLeaves(b: Bus)
    ensures var after := Perform(b, CloseBus).bus;
            && after.pending == [] && !after.listening && after.requests == b.requests
            && |after.settlements| == |b.settlements| + |b.pending| && b.settlements <= after.settlements
            && forall i :: 0 <= i < |b.pending| ==>
                             after.settlements[|b.settlements| + i] == Resolve(b.pending[i].handle, "")
  {
    assert |ClosedAnswers(b.pending)| == |b.pending|;
  }

  lemma {:induction false} CloseThen(b: Bus, call: Call)
    ensures PerformAll(b, [CloseBus, call]) == Perform(Perform(b, CloseBus).bus, call)
  {
    var closed := Perform(b, CloseBus).bus;
    ThenOne(b, CloseBus, [call]);
    ThenOne(closed, call, []);
    assert [CloseBus] + [call] == [CloseBus, call] && [call] + [] == [call];
    assert PerformAll(Perform(closed, call).bus, []) == Done(Perform(closed, call).bus, false);
  }

  /** After `close`, and until somebody subscribes, listeners have no effect: whatever they
      would do, a new request waits, an emit changes nothing, an answer finds nothing
      pending, and none of them throws. */
  lemma {:induction false} ClosedBusIsDeaf(b: Bus, calls: seq<Call>, id: PromptId, text: string, reactions: seq<Call>)
    requires NobodySubscribes(calls)
    ensures PerformAll(b, [CloseBus] + calls) == PerformAll(b, [CloseBus] + AllUnheard(calls))
    ensures var closed := Perform(b, CloseBus).bus;
            && PerformAll(b, [CloseBus, Request(id, reactions)])
               == Done(Bus([Entry(id, Handle(b.requests))], false, b.requests + 1, closed.settlements), false)
            && PerformAll(b, [CloseBus, EmitOther(reactions)]) == Done(closed, false)
            && PerformAll(b, [CloseBus, EmitAnswered(id, text, reactions)]) == Done(closed, false)
            && PerformAll(b, [CloseBus, AnswerPrompt(id, text, reactions)]) == Done(closed, false)
            && !AnswerReturns(closed, id)
  {
    var closed := Perform(b, CloseBus).bus;
    ClosingLeaves(b);
    NobodyHears(closed, calls);
    ThenOne(b, CloseBus, calls);
    ThenOne(b, CloseBus, AllUnheard(calls));
    CloseThen(b, Request(id, reactions));
    CloseThen(b, EmitOther(reactions));
    CloseThen(b, EmitAnswered(id, text, reactions));
    CloseThen(b, AnswerPrompt(id, text, reactions));
    assert SetEntry([], id, Handle(b.requests)) == [Entry(id, Handle(b.requests))];
    assert Lookup([], id) == None;
  }

  /** Who subscribes after `close` is called again. */
  lemma {:induction false} SubscribingEndsTheSilence(b: Bus, reactions: seq<Call>)
    ensures var closed := Perform(b, CloseBus).bus;
            PerformAll(b, [CloseBus, Subscribe, EmitOther(reactions)]) == PerformAll(closed.(listening := true), reactions)
  {
    var closed := Perform(b, CloseBus).bus;
    ThenOne(b, CloseBus, [Subscribe, EmitOther(reactions)]);
    ThenOne(closed, Subscribe, [EmitOther(reactions)]);
    ThenOne(closed.(listening := true), EmitOther(reactions), []);
    assert [CloseBus] + [Subscribe, EmitOther(reactions)] == [CloseBus, Subscribe, EmitOther(reactions)];
    assert [Subscribe] + [EmitOther(reactions)] == [Subscribe, EmitOther(reactions)];
    assert [EmitOther(reactions)] + [] == [EmitOther(reactions)];
  }

  lemma {:induction false} ThenOne(b: Bus, call: Call, rest: seq<Call>)
    ensures var d := Perform(b, call);
            PerformAll(b, [call] + rest) == if d.threw then d else PerformAll(d.bus, rest)
  {
    assert ([call] + rest)[1..] == rest;
  }

  // ---------- at most once ----------

  ghost predicate Distinct(pending: seq<Entry>) {
    forall i, j :: 0 <= i < j < |pending| ==> pending[i].id != pending[j].id && pending[i].handle != pending[j].handle
  }

  /** No `resolve` is called twice. */
  ghost predicate ResolvedOnce(settlements: seq<Settlement>) {
    forall i, j :: 0 <= i < j < |settlements| && settlements[i].Resolve? && settlements[j].Resolve? ==>
                     settlements[i].handle != settlements[j].handle
  }

  predicate IsWaiting(b: Bus, handle: Handle) { exists e :: e in b.pending && e.handle == handle }

  /** The promise's `resolve` was called. */
  predicate IsResolved(b: Bus, handle: Handle) { exists x :: x in b.settlements && x.Resolve? && x.handle == handle }

  /** No promise is there twice, waiting or resolved or both, and all were handed out. */
  ghost predicate Consistent(b: Bus) {
    && Distinct(b.pending)
    && ResolvedOnce(b.settlements)
    && (forall e, x :: e in b.pending && x in b.settlements && x.Resolve? ==> e.handle != x.handle)
    && (forall e :: e in b.pending ==> e.handle.n < b.requests)
    && (forall x :: x in b.settlements && x.Resolve? ==> x.handle.n < b.requests)
  }

  lemma {:induction false} LookupFinds(pending: seq<Entry>, id: PromptId)
    ensures Lookup(pending, id).Some? ==> Entry(id, Lookup(pending, id).value) in pending
    ensures Lookup(pending, id).None? ==> forall e :: e in pending ==> e.id != id
  {
    if pending != [] {
      LookupFinds(pending[1..], id);
    }
  }

  lemma {:induction false} LookupIsTheEntry(pending: seq<Entry>, e: Entry)
    requires Distinct(pending) && e in pending
    ensures Lookup(pending, e.id) == Some(e.handle)
  {
    LookupFinds(pending, e.id);
  }

  lemma {:induction false} RemoveKeeps(pending: seq<Entry>, id: PromptId)
    requires Distinct(pending)
    ensures Distinct(RemoveEntry(pending, id))
    ensures forall e :: e in RemoveEntry(pending, id) <==> e in pending && e.id != id
  {
    if pending != [] {
      RemoveKeeps(pending[1..], id);
    }
  }

  lemma {:induction false} SetKeeps(pending: seq<Entry>, id: PromptId, handle: Handle)
    requires Distinct(pending) && forall e :: e in pending ==> e.handle != handle
    ensures Distinct(SetEntry(pending, id, handle))
    ensures forall e :: e in SetEntry(pending, id, handle) <==> (e in pending && e.id != id) || e == Entry(id, handle)
  {
    if pending != [] {
      SetKeeps(pending[1..], id, handle);
      assert pending == [pending[0]] + pending[1..];
    }
  }

  lemma {:induction false} ClosingKeeps(b: Bus)
    requires Consistent(b)
    ensures Consistent(Apply(b, Closed))
  {
    var answers := ClosedAnswers(b.pending);
    var n, after := |b.settlements|, Apply(b, Closed).settlements;
    forall i, j | 0 <= i < j < |after| && after[i].Resolve? && after[j].Resolve? ensures after[i].handle != after[j].handle {
      if i < n && n <= j {
        assert b.settlements[i] in b.settlements && b.pending[j - n] in b.pending;
      }
    }
    forall x | x in after && x.Resolve? ensures x.handle.n < b.requests {
      if x in answers {
        var i :| 0 <= i < |answers| && answers[i] == x;
        assert b.pending[i] in b.pending;
      }
    }
  }

  /** Closing answers each waiting request with "". */
  lemma {:induction false} ClosingAnswers(pending: seq<Entry>, e: Entry)
    requires e in pending
    ensures OutcomeOf(ClosedAnswers(pending), e.handle) == Some(Resolve(e.handle, ""))
  {
    var answers := ClosedAnswers(pending);
    var i :| 0 <= i < |pending| && pending[i] == e;
    assert answers[i] in answers;
    OutcomeIsAnAttempt(answers, e.handle);
    assert forall x :: x in answers ==> x == Resolve(x.handle, "");
  }

  lemma {:induction false} EffectKeepsConsistent(b: Bus, e: Effect)
    requires Consistent(b)
    ensures Consistent(Apply(b, e)) && b.settlements <= Apply(b, e).settlements && b.requests <= Apply(b, e).requests
  {
    match e
    case Registered(id) => SetKeeps(b.pending, id, Handle(b.requests));
    case Reached(id, text) =>
      RemoveKeeps(b.pending, id);
      LookupFinds(b.pending, id);
      if Lookup(b.pending, id).Some? {
        ReachedKeeps(b, id, text);
      }
    case Closed => ClosingKeeps(b);
    case Aborted(handle) =>
  }

  lemma {:induction false} ReachedKeeps(b: Bus, id: PromptId, text: string)
    requires Consistent(b) && Lookup(b.pending, id).Some?
    ensures Consistent(Apply(b, Reached(id, text)))
  {
    RemoveKeeps(b.pending, id);
    LookupFinds(b.pending, id);
    var entry := Entry(id, Lookup(b.pending, id).value);
    var after := Apply(b, Reached(id, text));
    forall e | e in after.pending ensures e.handle != entry.handle {
      assert e in b.pending && e != entry;
    }
  }

  lemma {:induction false} EffectsKeepConsistent(b: Bus, effects: seq<Effect>)
    requires Consistent(b)
    ensures Consistent(ApplyAll(b, effects)) && b.settlements <= ApplyAll(b, effects).settlements
    decreases |effects|
  {
    if effects != [] {
      EffectKeepsConsistent(b, effects[0]);
      EffectsKeepConsistent(Apply(b, effects[0]), effects[1..]);
    }
  }

  /** Over whole runs of calls with listeners calling back and throwing, also when prompt ids
      are used twice, no promise's `resolve` is called twice and none waits afterwards. */
  lemma {:induction false} ResolvedAtMostOnce(calls: seq<Call>)
    ensures Consistent(PerformAll(NEW_BUS, calls).bus)
    ensures ResolvedOnce(PerformAll(NEW_BUS, calls).bus.settlements)
    ensures forall e :: e in PerformAll(NEW_BUS, calls).bus.pending ==> !IsResolved(PerformAll(NEW_BUS, calls).bus, e.handle)
  {
    AllCallsActInOrder(NEW_BUS, calls);
    EffectsKeepConsistent(NEW_BUS, AllEffects(NEW_BUS, calls));
  }

  // ---------- only a request's own listeners reject it ----------

  /** Only promises that were made have been rejected. */
  ghost predicate RejectsMade(b: Bus) {
    forall x :: x in b.settlements && x.Reject? ==> x.handle.n < b.requests
  }

  ghost predicate RejectsNewer(effects: seq<Effect>, requests: nat) {
    forall e :: e in effects && e.Aborted? ==> requests <= e.handle.n
  }

  lemma {:induction false} EffectKeepsRejects(b: Bus, e: Effect)
    requires RejectsMade(b) && (e.Aborted? ==> e.handle.n < b.requests)
    ensures RejectsMade(Apply(b, e)) && b.requests <= Apply(b, e).requests
  {
    assert e.Closed? ==> forall x :: x in ClosedAnswers(b.pending) ==> x.Resolve?;
  }

  /** A call rejects no promise made before it. */
  lemma {:induction false} CallRejectsItsOwn(b: Bus, call: Call)
    requires RejectsMade(b)
    ensures RejectsMade(Perform(b, call).bus) && b.requests <= Perform(b, call).bus.requests
    ensures RejectsNewer(Effects(b, call), b.requests)
    decreases call, 1
  {
    hide Apply, RejectsMade;
    match call
    case EmitAnswered(id, text, reactions) =>
      ReactionsRejectTheirOwn(b, reactions);
      EffectKeepsRejects(React(b, reactions).bus, Reached(id, text));
    case EmitOther(reactions) =>
      ReactionsRejectTheirOwn(b, reactions);
    case Request(id, reactions) =>
      RequestRejectsItsOwn(b, id, reactions);
    case AnswerPrompt(id, text, reactions) =>
      if Lookup(b.pending, id).Some? {
        ReactionsRejectTheirOwn(b, reactions);
        EffectKeepsRejects(React(b, reactions).bus, Reached(id, text));
      }
    case CloseBus =>
      EffectKeepsRejects(b, Closed);
    case Attempt(body) =>
      CallsRejectTheirOwn(b, body);
    case Subscribe =>
      SubscribingKeepsRejects(b);
    case Throw =>
  }

  lemma {:induction false} SubscribingKeepsRejects(b: Bus)
    requires RejectsMade(b)
    ensures RejectsMade(b.(listening := true))
  {
  }

  lemma {:induction false} RequestRejectsItsOwn(b: Bus, id: PromptId, reactions: seq<Call>)
    requires RejectsMade(b)
    ensures var after := Perform(b, Request(id, reactions)).bus; RejectsMade(after) && b.requests <= after.requests
    ensures RejectsNewer(RequestEffects(b, id, reactions), b.requests)
    decreases reactions, 2
  {
    var registered := Apply(b, Registered(id));
    assert registered.requests == b.requests + 1;
    EffectKeepsRejects(b, Registered(id));
    ReactionsRejectTheirOwn(registered, reactions);
    var d := React(registered, reactions);
    if d.threw {
      EffectKeepsRejects(d.bus, Aborted(Handle(b.requests)));
    }
  }

  lemma {:induction false} ReactionsRejectTheirOwn(b: Bus, reactions: seq<Call>)
    requires RejectsMade(b)
    ensures RejectsMade(React(b, reactions).bus) && b.requests <= React(b, reactions).bus.requests
    ensures RejectsNewer(ReactEffects(b, reactions), b.requests)
    decreases reactions, 1
  {
    if b.listening {
      CallsRejectTheirOwn(b, reactions);
    }
  }

  lemma {:induction false} CallsRejectTheirOwn(b: Bus, calls: seq<Call>)
    requires RejectsMade(b)
    ensures RejectsMade(PerformAll(b, calls).bus) && b.requests <= PerformAll(b, calls).bus.requests
    ensures RejectsNewer(AllEffects(b, calls), b.requests)
    decreases calls, 0
  {
    if calls != [] {
      var d := Perform(b, calls[0]);
      CallRejectsItsOwn(b, calls[0]);
      if !d.threw {
        CallsRejectTheirOwn(d.bus, calls[1..]);
      }
    }
  }

  /** What the statements below require of a bus holds after any calls. */
  lemma {:induction false} EveryBusIsSound(calls: seq<Call>)
    ensures Consistent(PerformAll(NEW_BUS, calls).bus) && RejectsMade(PerformAll(NEW_BUS, calls).bus)
  {
    ResolvedAtMostOnce(calls);
    CallsRejectTheirOwn(NEW_BUS, calls);
  }

  // ---------- what becomes of a request ----------

  datatype Fate = StillWaiting | ResolvesWith(text: string) | RejectedByThrow | Lost

  /** What happens to an open request pending under the id: the first matching answer to
      reach the map resolves it, closing resolves it with "", a throw while it is made
      rejects it, and a second request under the same id takes its place in the map, after
      which only such a throw can still settle it. */
  function FateOf(effects: seq<Effect>, id: PromptId, handle: Handle): Fate {
    if effects == [] then StillWaiting
    else
      match effects[0]
      case Reached(other, text) => if other == id then ResolvesWith(text) else FateOf(effects[1..], id, handle)
      case Closed => ResolvesWith("")
      case Aborted(other) => if other == handle then RejectedByThrow else FateOf(effects[1..], id, handle)
      case Registered(other) =>
        if other != id then FateOf(effects[1..], id, handle)
        else if Aborted(handle) in effects[1..] then RejectedByThrow
        else Lost
  }

  /** The same for a request that may have been rejected before. */
  function FateFrom(b: Bus, effects: seq<Effect>, id: PromptId, handle: Handle): Fate {
    if IsRejected(b, handle) then RejectedByThrow else FateOf(effects, id, handle)
  }

  lemma {:induction false} FateConcat(e: seq<Effect>, f: seq<Effect>, id: PromptId, handle: Handle)
    ensures FateOf(e + f, id, handle)
         == match FateOf(e, id, handle)
            case StillWaiting => FateOf(f, id, handle)
            case Lost => if Aborted(handle) in f then RejectedByThrow else Lost
            case fate => fate
  {
    if e == [] {
      assert e + f == f;
    } else {
      assert (e + f)[1..] == e[1..] + f;
      FateConcat(e[1..], f, id, handle);
    }
  }

  /** Overwritten while pending: its `resolve` was not called and never will be. */
  ghost predicate IsLost(b: Bus, handle: Handle) {
    handle.n < b.requests && !IsWaiting(b, handle) && !IsResolved(b, handle)
  }

  /** The request has met its fate. */
  ghost predicate Meets(after: Bus, id: PromptId, handle: Handle, fate: Fate) {
    match fate
    case StillWaiting => Entry(id, handle) in after.pending && IsOpen(after, handle)
    case ResolvesWith(text) =>
      !IsWaiting(after, handle) && OutcomeOf(after.settlements, handle) == Some(Resolve(handle, text))
    case RejectedByThrow => IsRejected(after, handle)
    case Lost => IsLost(after, handle) && IsOpen(after, handle)
  }

  lemma {:induction false} EffectKeepsGone(b: Bus, e: Effect, handle: Handle)
    requires Consistent(b) && handle.n < b.requests && !IsWaiting(b, handle)
    ensures handle.n < Apply(b, e).requests && !IsWaiting(Apply(b, e), handle)
    ensures IsResolved(Apply(b, e), handle) ==> IsResolved(b, handle)
    ensures IsOpen(b, handle) ==> IsOpen(Apply(b, e), handle) || e == Aborted(handle)
  {
    OutcomeIsAnAttempt(b.settlements, handle);
    OutcomeIsAnAttempt(Apply(b, e).settlements, handle);
    match e
    case Registered(id) => SetKeeps(b.pending, id, Handle(b.requests));
    case Reached(id, text) =>
      RemoveKeeps(b.pending, id);
      LookupFinds(b.pending, id);
    case Closed =>
      forall x | x in ClosedAnswers(b.pending) ensures x.handle != handle {
        var i :| 0 <= i < |b.pending| && ClosedAnswers(b.pending)[i] == x;
        assert b.pending[i] in b.pending;
      }
    case Aborted(other) =>
  }

  lemma {:induction false} GoneStaysGone(b: Bus, effects: seq<Effect>, handle: Handle)
    requires Consistent(b) && handle.n < b.requests && !IsWaiting(b, handle)
    ensures !IsWaiting(ApplyAll(b, effects), handle)
    decreases |effects|
  {
    if effects != [] {
      EffectKeepsConsistent(b, effects[0]);
      EffectKeepsGone(b, effects[0], handle);
      hide Apply, IsWaiting, Consistent;
      GoneStaysGone(Apply(b, effects[0]), effects[1..], handle);
    }
  }

  /** A settled promise stays as it is. */
  lemma {:induction false} OutcomeStays(b: Bus, effects: seq<Effect>, handle: Handle)
    requires Consistent(b) && !IsOpen(b, handle)
    ensures OutcomeOf(ApplyAll(b, effects).settlements, handle) == OutcomeOf(b.settlements, handle)
  {
    EffectsKeepConsistent(b, effects);
    var s, t := b.settlements, ApplyAll(b, effects).settlements;
    assert t == s + t[|s|..];
    FirstSettlementCounts(s, t[|s|..], handle);
  }

  /** A lost request never resolves; only a throw that ends its own making settles it. */
  lemma {:induction false} LostStaysLost(b: Bus, effects: seq<Effect>, handle: Handle)
    requires Consistent(b) && IsLost(b, handle)
    ensures IsLost(ApplyAll(b, effects), handle)
    ensures IsOpen(b, handle) ==>
              if Aborted(handle) in effects then IsRejected(ApplyAll(b, effects), handle) else IsOpen(ApplyAll(b, effects), handle)
    decreases |effects|
  {
    if effects != [] {
      var next := Apply(b, effects[0]);
      EffectKeepsConsistent(b, effects[0]);
      EffectKeepsGone(b, effects[0], handle);
      LostStaysLost(next, effects[1..], handle);
      assert effects == [effects[0]] + effects[1..];
      if effects[0] == Aborted(handle) {
        AbortRejects(b, handle);
        if IsOpen(b, handle) {
          OutcomeStays(next, effects[1..], handle);
        }
      }
    }
  }

  lemma {:induction false} AbortRejects(b: Bus, handle: Handle)
    ensures IsOpen(b, handle) ==> IsRejected(Apply(b, Aborted(handle)), handle)
  {
    FirstSettlementCounts(b.settlements, [Reject(handle)], handle);
  }

  lemma {:induction false} OverwrittenIsLost(b: Bus, id: PromptId, handle: Handle)
    requires Consistent(b) && Entry(id, handle) in b.pending
    ensures IsLost(Apply(b, Registered(id)), handle)
  {
    var after := Apply(b, Registered(id));
    SetKeeps(b.pending, id, Handle(b.requests));
    forall e | e in after.pending ensures e.handle != handle {
      assert e == Entry(id, Handle(b.requests)) || (e in b.pending && e.id != id);
    }
  }

  lemma {:induction false} AnswerOnWaiting(b: Bus, other: PromptId, text: string, id: PromptId, handle: Handle)
    requires Consistent(b) && Entry(id, handle) in b.pending && IsOpen(b, handle)
    ensures Meets(Apply(b, Reached(other, text)), id, handle, if other == id then ResolvesWith(text) else StillWaiting)
  {
    LookupIsTheEntry(b.pending, Entry(id, handle));
    LookupFinds(b.pending, other);
    RemoveKeeps(b.pending, other);
    if Lookup(b.pending, other).Some? {
      FirstSettlementCounts(b.settlements, [Resolve(Lookup(b.pending, other).value, text)], handle);
    }
  }

  /** One effect on a waiting request. */
  lemma {:induction false} EffectOnWaiting(b: Bus, e: Effect, id: PromptId, handle: Handle)
    requires Consistent(b) && Entry(id, handle) in b.pending && IsOpen(b, handle)
    ensures Meets(Apply(b, e), id, handle, FateOf([e], id, handle))
  {
    assert [e][1..] == [] && FateOf([e][1..], id, handle) == StillWaiting;
    match e
    case Registered(other) =>
      SetKeeps(b.pending, other, Handle(b.requests));
      if other == id {
        OverwrittenIsLost(b, id, handle);
      }
    case Reached(other, text) =>
      AnswerOnWaiting(b, other, text, id, handle);
    case Closed =>
      ClosingAnswers(b.pending, Entry(id, handle));
      FirstSettlementCounts(b.settlements, ClosedAnswers(b.pending), handle);
    case Aborted(other) =>
      FirstSettlementCounts(b.settlements, [Reject(other)], handle);
  }

  lemma {:induction false} EffectsDecide(b: Bus, effects: seq<Effect>, id: PromptId, handle: Handle)
    requires Consistent(b) && Entry(id, handle) in b.pending && IsOpen(b, handle)
    ensures Meets(ApplyAll(b, effects), id, handle, FateOf(effects, id, handle))
    decreases |effects|
  {
    if effects != [] {
      var next, later := Apply(b, effects[0]), effects[1..];
      EffectKeepsConsistent(b, effects[0]);
      EffectOnWaiting(b, effects[0], id, handle);
      assert effects == [effects[0]] + later;
      FateConcat([effects[0]], later, id, handle);
      assert handle.n < next.requests;
      hide FateOf, Apply, Consistent;
      match FateOf([effects[0]], id, handle) {
        case StillWaiting => EffectsDecide(next, later, id, handle);
        case ResolvesWith(text) =>
          OutcomeStays(next, later, handle);
          GoneStaysGone(next, later, handle);
        case RejectedByThrow => OutcomeStays(next, later, handle);
        case Lost => LostStaysLost(next, later, handle);
      }
    }
  }

  /** A pending request is open, unless it was rejected while it was made. */
  lemma {:induction false} PendingIsOpenOrRejected(b: Bus, e: Entry)
    requires Consistent(b) && e in b.pending
    ensures IsOpen(b, e.handle) || IsRejected(b, e.handle)
  {
    OutcomeIsAnAttempt(b.settlements, e.handle);
  }

  lemma {:induction false} FateIsMet(b: Bus, effects: seq<Effect>, id: PromptId, handle: Handle)
    requires Consistent(b) && Entry(id, handle) in b.pending
    ensures Meets(ApplyAll(b, effects), id, handle, FateFrom(b, effects, id, handle))
  {
    PendingIsOpenOrRejected(b, Entry(id, handle));
    if IsOpen(b, handle) {
      EffectsDecide(b, effects, id, handle);
    } else {
      OutcomeStays(b, effects, handle);
    }
  }

  lemma {:induction false} NotRejectedLater(effects: seq<Effect>, id: PromptId, handle: Handle)
    requires Aborted(handle) !in effects
    ensures FateOf(effects, id, handle) != RejectedByThrow
  {
    if effects != [] {
      NotRejectedLater(effects[1..], id, handle);
    }
  }

  /** The fate of a pending request over any calls, nested ones and throwing listeners
      included. If it was rejected while it was made it stays so, and no answer resolves it;
      otherwise the first effect that concerns its id decides, finally, and no throw can
      reject it any more. */
  lemma {:induction false} RequestMeetsItsFate(b: Bus, calls: seq<Call>, id: PromptId, handle: Handle)
    requires Consistent(b) && RejectsMade(b) && Entry(id, handle) in b.pending
    ensures Meets(PerformAll(b, calls).bus, id, handle, FateFrom(b, AllEffects(b, calls), id, handle))
    ensures FateFrom(b, AllEffects(b, calls), id, handle) == RejectedByThrow <==> IsRejected(b, handle)
  {
    AllCallsActInOrder(b, calls);
    FateIsMet(b, AllEffects(b, calls), id, handle);
    CallsRejectTheirOwn(b, calls);
    NotRejectedLater(AllEffects(b, calls), id, handle);
  }

  lemma {:induction false} RegistrationOpens(b: Bus, id: PromptId)
    requires Consistent(b) && RejectsMade(b)
    ensures var after := Apply(b, Registered(id));
            Consistent(after) && Entry(id, Handle(b.requests)) in after.pending && IsOpen(after, Handle(b.requests))
  {
    EffectKeepsConsistent(b, Registered(id));
    SetKeeps(b.pending, id, Handle(b.requests));
    OutcomeIsAnAttempt(b.settlements, Handle(b.requests));
  }

  /** A new request, from its registration until `request` returns: it is rejected exactly
      when a listener throws and none has answered it or closed the bus before. */
  lemma {:induction false} NewRequestMeetsItsFate(b: Bus, id: PromptId, reactions: seq<Call>)
    requires Consistent(b) && RejectsMade(b)
    ensures var registered, handle, after := Apply(b, Registered(id)), Handle(b.requests), Perform(b, Request(id, reactions)).bus;
            var fate := FateOf(ReactEffects(registered, reactions), id, handle);
            && Meets(after, id, handle, FateOf(RequestEffects(b, id, reactions), id, handle))
            && (IsRejected(after, handle) <==> React(registered, reactions).threw && (fate == StillWaiting || fate == Lost))
            && Consistent(after) && RejectsMade(after)
  {
    var registered, handle := Apply(b, Registered(id)), Handle(b.requests);
    RegistrationOpens(b, id);
    EffectKeepsRejects(b, Registered(id));
    ReactionsActInOrder(registered, reactions);
    RequestedInOrder(b, id, reactions);
    RequestRejectsItsOwn(b, id, reactions);
    ReactionsRejectTheirOwn(registered, reactions);
    assert registered.requests == b.requests + 1;
    var before, last := ReactEffects(registered, reactions), AbortedIf(React(registered, reactions).threw, handle);
    NotRejectedLater(before, id, handle);
    FateConcat(before, last, id, handle);
    EffectsDecide(registered, before + last, id, handle);
    EffectsKeepConsistent(registered, before + last);
    hide FateOf, React, ReactEffects, Perform, Apply, ApplyAll;
    RejectedOnly(last, id, handle);
  }

  lemma {:induction false} RejectedOnly(last: seq<Effect>, id: PromptId, handle: Handle)
    ensures last == [Aborted(handle)] ==> FateOf(last, id, handle) == RejectedByThrow
    ensures last == [] ==> FateOf(last, id, handle) == StillWaiting
  {
  }

  /** `answer` gets past its first line exactly when the id was pending on entry, and returns
      true exactly when no listener throws; its own text is what the request gets exactly
      when moreover the request was not rejected while it was made and the listeners leave
      it waiting. */
  lemma {:induction false} AnswerIsDeliveredUnlessOvertaken(b: Bus, id: PromptId, handle: Handle, text: string,
                                                            reactions: seq<Call>)
    requires Consistent(b) && RejectsMade(b) && Entry(id, handle) in b.pending
    ensures var fate, threw := FateFrom(b, ReactEffects(b, reactions), id, handle), React(b, reactions).threw;
            var after := Perform(b, AnswerPrompt(id, text, reactions));
            && AnswerReturns(b, id) && after.threw == threw
            && Meets(after.bus, id, handle, if fate == StillWaiting && !threw then ResolvesWith(text) else fate)
  {
    LookupIsTheEntry(b.pending, Entry(id, handle));
    CallsActInOrder(b, AnswerPrompt(id, text, reactions));
    var last := ReachedUnless(React(b, reactions).threw, id, text);
    FateIsMet(b, ReactEffects(b, reactions) + last, id, handle);
    FateConcat(ReactEffects(b, reactions), last, id, handle);
  }

  // ---------- cases ----------

  lemma {:induction false} FirstRequest(id: PromptId)
    ensures Perform(NEW_BUS, Request(id, [])) == Done(Bus([Entry(id, Handle(0))], true, 1, []), false)
    ensures Apply(NEW_BUS, Registered(id)) == Bus([Entry(id, Handle(0))], true, 1, [])
  {
    var registered := Apply(NEW_BUS, Registered(id));
    assert registered.pending == [Entry(id, Handle(0))];
    assert React(registered, []) == PerformAll(registered, []) == Done(registered, false);
  }

  /** Answering the one pending request without listeners calling back. */
  lemma {:induction false} PlainAnswer(id: PromptId, text: string, settlements: seq<Settlement>)
    ensures var b := Bus([Entry(id, Handle(0))], true, 1, settlements);
            Perform(b, EmitAnswered(id, text, [])) == Done(Bus([], true, 1, settlements + [Resolve(Handle(0), text)]), false)
  {
    var b := Bus([Entry(id, Handle(0))], true, 1, settlements);
    assert React(b, []) == PerformAll(b, []) == Done(b, false);
  }

  /** A listener that throws keeps the answer from the map: the request still waits. */
  lemma {:induction false} ThrowingListenerStopsTheAnswer(id: PromptId, text: string)
    ensures var b := Perform(NEW_BUS, Request(id, [])).bus;
            var after := Perform(b, EmitAnswered(id, text, [Throw]));
            after.threw && after.bus.pending == [Entry(id, Handle(0))] && after.bus.settlements == []
  {
    FirstRequest(id);
    var b := Perform(NEW_BUS, Request(id, [])).bus;
    assert PerformAll(b, [Throw]) == Perform(b, Throw);
  }

  /** A listener that throws while the request is made rejects it, and leaves its entry: a
      later answer returns true, reaches the map, and changes nothing for the request. */
  lemma {:induction false} RejectedRequestIgnoresTheAnswer(id: PromptId, text: string)
    ensures var b := Perform(NEW_BUS, Request(id, [Throw])).bus;
            var after := Perform(b, AnswerPrompt(id, text, []));
            && AnswerReturns(b, id) && !after.threw && after.bus.pending == []
            && IsRejected(after.bus, Handle(0))
  {
    FirstRequest(id);
    var registered := Apply(NEW_BUS, Registered(id));
    assert Perform(registered, Throw) == Done(registered, true);
    assert React(registered, [Throw]) == PerformAll(registered, [Throw]) == Done(registered, true);
    var b := Perform(NEW_BUS, Request(id, [Throw])).bus;
    assert registered.settlements + [Reject(Handle(0))] == [Reject(Handle(0))];
    assert b == registered.(settlements := [Reject(Handle(0))]);
    PlainAnswer(id, text, [Reject(Handle(0))]);
    assert Perform(b, AnswerPrompt(id, text, [])) == Perform(b, EmitAnswered(id, text, []));
  }

  /** A request answered before the listener throws is resolved, not rejected. */
  lemma {:induction false} AnsweredBeforeTheThrow(id: PromptId, text: string)
    ensures var after := Perform(NEW_BUS, Request(id, [EmitAnswered(id, text, []), Throw]));
            !after.threw && OutcomeOf(after.bus.settlements, Handle(0)) == Some(Resolve(Handle(0), text))
  {
    FirstRequest(id);
    PlainAnswer(id, text, []);
    var registered := Apply(NEW_BUS, Registered(id));
    var reactions := [EmitAnswered(id, text, []), Throw];
    var inner := Perform(registered, reactions[0]).bus;
    assert PerformAll(registered, reactions) == PerformAll(inner, reactions[1..]);
    assert PerformAll(inner, reactions[1..]) == Perform(inner, Throw);
    assert inner.settlements == [Resolve(Handle(0), text)];
  }

  /** An answer can return true and still not be the one that counts: a listener that
      answers the same prompt during the emit wins. */
  lemma {:induction false} ListenerCanOvertake(id: PromptId, mine: string, theirs: string)
    ensures var b := Perform(NEW_BUS, Request(id, [])).bus;
            var after := Perform(b, AnswerPrompt(id, mine, [EmitAnswered(id, theirs, [])]));
            AnswerReturns(b, id) && !after.threw && after.bus.settlements == [Resolve(Handle(0), theirs)]
  {
    FirstRequest(id);
    PlainAnswer(id, theirs, []);
    var b := Perform(NEW_BUS, Request(id, [])).bus;
    var reactions := [EmitAnswered(id, theirs, [])];
    var inner := Perform(b, reactions[0]);
    assert PerformAll(b, reactions) == PerformAll(inner.bus, reactions[1..]);
    assert inner.bus.settlements == [Resolve(Handle(0), theirs)];
  }

  // ---------- the mutable bus ----------

  class EmittingBus {
    var pending: seq<Entry>
    var listening: bool
    var requests: nat
    /** The calls of `resolve`, and the rejections. */
    var settlements: seq<Settlement>

    constructor ()
      ensures State() == NEW_BUS
    {
      pending, listening, requests, settlements := [], true, 0, [];
    }

    function State(): Bus
      reads this
    {
      Bus(pending, listening, requests, settlements)
    }

    method ResolvePending(id: PromptId, text: string)
      modifies this
      ensures State() == Apply(old(State()), Reached(id, text))
    {
      var request := Lookup(pending, id);
      if request.Some? {
        pending := RemoveEntry(pending, id);
        settlements := settlements + [Resolve(request.value, text)];
      }
    }

    method RunListeners(reactions: seq<Call>) returns (threw: bool)
      modifies this
      ensures Done(State(), threw) == React(old(State()), reactions)
      decreases reactions, 1
    {
      if !listening { return false; }
      threw := RunCalls(reactions);
    }

    method RunCalls(calls: seq<Call>) returns (threw: bool)
      modifies this
      ensures Done(State(), threw) == PerformAll(old(State()), calls)
      decreases calls, 0
    {
      if calls == [] { return false; }
      var answered;
      threw, answered := RunCall(calls[0]);
      if threw { return; }
      threw := RunCalls(calls[1..]);
    }

    /** `emit` of an answer. */
    method EmitAnswer(id: PromptId, text: string, reactions: seq<Call>) returns (threw: bool)
      modifies this
      ensures Done(State(), threw) == Answered(React(old(State()), reactions), id, text)
      decreases reactions, 2
    {
      threw := RunListeners(reactions);
      if !threw { ResolvePending(id, text); }
    }

    method Close()
      modifies this
      ensures State() == Apply(old(State()), Closed)
    {
      var answers := [];
      for i := 0 to |pending|
        invariant pending == old(pending) && listening == old(listening) && requests == old(requests)
        invariant |answers| == i && forall k :: 0 <= k < i ==> answers[k] == Resolve(pending[k].handle, "")
        invariant settlements == old(settlements) + answers
      {
        answers := answers + [Resolve(pending[i].handle, "")];
        settlements := settlements + [Resolve(pending[i].handle, "")];
      }
      assert answers == ClosedAnswers(pending);
      pending := [];
      listening := false;
    }

    /** One call: whether it threw, and if not what `answer` returns (false for the others). */
    method RunCall(call: Call) returns (threw: bool, answered: bool)
      modifies this
      ensures Done(State(), threw) == Perform(old(State()), call)
      ensures answered == (call.AnswerPrompt? && AnswerReturns(old(State()), call.id) && !threw)
      decreases call, 1
    {
      threw, answered := false, false;
      match call
      case EmitAnswered(id, text, reactions) =>
        threw := EmitAnswer(id, text, reactions);
      case EmitOther(reactions) =>
        threw := RunListeners(reactions);
      case Request(id, reactions) =>
        var handle := Handle(requests);
        pending := SetEntry(pending, id, handle);
        requests := requests + 1;
        var aborted := RunListeners(reactions);
        if aborted { settlements := settlements + [Reject(handle)]; }
      case AnswerPrompt(id, text, reactions) =>
        if Lookup(pending, id).None? { return; }
        threw := EmitAnswer(id, text, reactions);
        answered := !threw;
      case Subscribe =>
        listening := true;
      case CloseBus =>
        Close();
      case Throw =>
        threw := true;
      case Attempt(body) =>
        var caught := RunCalls(body);
    }
  }
}
