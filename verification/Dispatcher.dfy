/** The command dispatcher of internal/command/dispatcher.go: at-least-once delivery made idempotent. */
module Dispatcher {
  import opened Common
  import opened Journal

  /** A command type: one of the contract's enum values, or unknown to it. */
  datatype Kind = Unknown | Known(value: nat)

  datatype Payload = Undecodable | Decoded(commandId: string)

  datatype Event = Event(kind: Kind, typeName: string, payload: Option<Payload>)

  /** How a handler ends: with a transient error, or with a result to acknowledge. */
  datatype Outcome = Errored | Returned(result: CommandResult, message: string)

  /** An ack, or an error carrying the command id once it is known. */
  datatype Reply = Answer(ack: Ack) | Refusal(commandId: Option<string>)

  function CommandIdOf(event: Option<Event>): Option<string> {
    match event
    case None => None
    case Some(ev) =>
      match ev.payload
      case Some(Decoded(id)) => if id == "" then None else Some(id)
      case _ => None
  }

  /** One agent process. `ran` counts handler executions and `completed` those that ended without error. */
  datatype Process = Process(seen: map<string, Ack>, handlers: set<Kind>, bridge: set<string>, connected: bool,
                             journaled: bool, handled: nat, ran: multiset<string>, completed: multiset<string>)

  predicate HasHandler(p: Process, ev: Event) {
    ev.kind in p.handlers || ev.typeName in p.bridge
  }

  function AckFor(p: Process, ev: Event, id: string, outcome: Outcome): Ack {
    if HasHandler(p, ev) && outcome.Returned? then Ack(id, outcome.result, outcome.message)
    else Ack(id, Accepted, "accepted (no handler registered)")
  }

  /** The process after running (or, without a handler, accepting) a command and remembering its ack. */
  function Executed(p: Process, ev: Event, id: string, outcome: Outcome): Process {
    var once := if HasHandler(p, ev) then multiset{id} else multiset{};
    p.(seen := p.seen[id := AckFor(p, ev, id, outcome)], ran := p.ran + once, completed := p.completed + once)
  }

  /** What one Record may do to the journal's contents. */
  ghost predicate JournalStep(json: Json, store: Option<Data>, ack: Ack, calls: seq<Call>,
                              store': Option<Data>, ok: bool)
    requires |calls| == 2 * ATTEMPTS
  {
    exists trace :: Journaled(store, ack.commandId, json.encode(ack), calls, trace, ok) && store' == Final(store, trace)
  }

  /** What executing an unseen command may do: fail transiently, or remember an ack and try to record it. */
  ghost predicate ExecutedStep(json: Json, p: Process, store: Option<Data>, ev: Event, id: string, outcome: Outcome,
                               calls: seq<Call>, p': Process, store': Option<Data>, reply: Reply)
    requires |calls| == 2 * ATTEMPTS
  {
    var done, ack := Executed(p, ev, id, outcome), AckFor(p, ev, id, outcome);
    if HasHandler(p, ev) && outcome.Errored? then
      p' == p.(ran := p.ran + multiset{id}) && store' == store && reply == Refusal(Some(id))
    else if reply.Answer? then
      && p' == done.(handled := p.handled + 1) && reply == Answer(ack)
      && (if p.journaled then JournalStep(json, store, ack, calls, store', true) else store' == store)
    else
      p' == done && reply == Refusal(Some(id)) && p.journaled && JournalStep(json, store, ack, calls, store', false)
  }

  /** Everything one delivery may do to the process and to the journal's contents. */
  ghost predicate Delivered(json: Json, p: Process, store: Option<Data>, event: Option<Event>, outcome: Outcome,
                            calls: seq<Call>, p': Process, store': Option<Data>, reply: Reply)
    requires |calls| == 2 * ATTEMPTS
  {
    match CommandIdOf(event)
    case None => p' == p && store' == store && reply == Refusal(None)
    case Some(id) =>
      if id in p.seen then
        p' == p && store' == store && reply == Answer(p.seen[id])
      else if !p.connected then
        p' == p && store' == store && reply == Refusal(Some(id))
      else
        ExecutedStep(json, p, store, event.value, id, outcome, calls, p', store', reply)
  }

  /** A command that was run or accepted, its ack remembered, and recorded or not. */
  lemma RecordStep(json: Json, p: Process, store: Option<Data>, ev: Event, id: string, outcome: Outcome,
                   calls: seq<Call>,
                   store': Option<Data>, ok: bool)
    requires |calls| == 2 * ATTEMPTS && !(HasHandler(p, ev) && outcome.Errored?)
    requires if p.journaled then JournalStep(json, store, AckFor(p, ev, id, outcome), calls, store', ok)
             else ok && store' == store
    ensures var done := Executed(p, ev, id, outcome);
            if ok then ExecutedStep(json, p, store, ev, id, outcome, calls, done.(handled := p.handled + 1), store',
                                    Answer(AckFor(p, ev, id, outcome)))
            else ExecutedStep(json, p, store, ev, id, outcome, calls, done, store', Refusal(Some(id)))
  {
  }

  class Dispatcher {
    const json: Json
    var seen: map<string, Ack>
    var handlers: set<Kind>
    var bridgeHandlers: set<string>
    var journal: ConfigMapJournal?
    var handled: nat
    var connected: bool
    ghost var ran: multiset<string>
    ghost var completed: multiset<string>

    constructor (json: Json)
      ensures this.json == json && seen == map[] && handlers == {} && bridgeHandlers == {} && journal == null
      ensures handled == 0 && connected && ran == multiset{} && completed == multiset{}
    {
      this.json := json;
      seen, handlers, bridgeHandlers, journal, handled, connected := map[], {}, {}, null, 0, true;
      ran, completed := multiset{}, multiset{};
    }

    ghost function View(): Process
      reads this
    {
      Process(seen, handlers, bridgeHandlers, connected, journal != null, handled, ran, completed)
    }

    ghost predicate Valid()
      reads this, if journal == null then {} else {journal.server}
    {
      journal != null ==> journal.json == json && journal.server.Valid()
    }

    ghost function Store(): Option<Data>
      reads this, if journal == null then {} else {journal.server}
    {
      if journal == null then None else journal.server.Contents()
    }

    method SetConnected(v: bool)
      modifies this`connected
      ensures View() == old(View()).(connected := v)
    {
      connected := v;
    }

    /** Preloads recorded acks; what the process already knows wins over what the journal says. */
    method AttachJournal(j: ConfigMapJournal, call: Call) returns (ok: bool)
      requires j.server.Valid() && j.json == json
      modifies this`seen, this`journal, j.server
      ensures j.server.Valid() && (ok ==> Valid())
      ensures !ok ==> View() == old(View()) && journal == old(journal)
      ensures ok <==> call.fault.Healthy? && Decodable(json, Entries(j.server.Contents()))
      ensures ok ==> journal == j && exists loaded ::
        && LoadedFrom(j.json, Entries(j.server.Contents()), loaded)
        && View() == old(View()).(seen := loaded + old(seen), journaled := true)
    {
      var loaded := j.Load(call);
      if loaded == None { return false; }
      Preload(loaded.value);
      journal := j;
      ok := true;
    }

    method Preload(loaded: map<string, Ack>)
      modifies this`seen
      ensures seen == loaded + old(seen)
    {
      var todo := loaded.Keys;
      while todo != {}
        invariant todo <= loaded.Keys
        invariant seen == (map id | id in loaded && id !in todo :: loaded[id]) + old(seen)
        decreases todo
      {
        var id :| id in todo;
        todo := todo - {id};
        if id !in seen {
          seen := seen[id := loaded[id]];
        }
      }
      assert (map id | id in loaded && id !in todo :: loaded[id]) == loaded;
    }

    /** Write-through persistence of one ack, when a journal is attached. */
    method Persist(ack: Ack, calls: seq<Call>) returns (ok: bool)
      requires Valid() && |calls| == 2 * ATTEMPTS
      modifies if journal == null then {} else {journal.server}
      ensures Valid() && (journal == null ==> ok)
      ensures journal != null ==> JournalStep(json, old(Store()), ack, calls, Store(), ok)
    {
      ok := true;
      if journal != null {
        ghost var trace;
        ok, trace := journal.Record(ack, calls);
      }
    }

    /** Records the ack and counts the command as handled, unless recording it fails. */
    method Settle(ack: Ack, calls: seq<Call>) returns (ok: bool)
      requires Valid() && |calls| == 2 * ATTEMPTS
      modifies this`handled, if journal == null then {} else {journal.server}
      ensures Valid() && View() == old(View()).(handled := old(handled) + if ok then 1 else 0)
      ensures if journal == null then ok && Store() == old(Store())
              else JournalStep(json, old(Store()), ack, calls, Store(), ok)
    {
      ok := Persist(ack, calls);
      if ok { handled := handled + 1; }
    }

    /** Runs the command's handler, if there is one; None when it fails transiently. */
    method Invoke(ev: Event, id: string, outcome: Outcome) returns (ack: Option<Ack>)
      modifies this`seen, this`ran, this`completed
      ensures ack == None <==> HasHandler(old(View()), ev) && outcome.Errored?
      ensures ack == None ==> View() == old(View()).(ran := old(ran) + multiset{id})
      ensures ack.Some? ==> ack.value == AckFor(old(View()), ev, id, outcome)
      ensures ack.Some? ==> View() == Executed(old(View()), ev, id, outcome)
    {
      var result := Ack(id, Accepted, "accepted (no handler registered)");
      if ev.kind in handlers || ev.typeName in bridgeHandlers {
        ran := ran + multiset{id};
        if outcome.Errored? { return None; }
        completed := completed + multiset{id};
        result := Ack(id, outcome.result, outcome.message);
      }
      seen := seen[id := result];
      ack := Some(result);
    }

    method Execute(ev: Event, id: string, outcome: Outcome, calls: seq<Call>) returns (reply: Reply)
      requires Valid() && |calls| == 2 * ATTEMPTS
      modifies this`seen, this`handled, this`ran, this`completed, if journal == null then {} else {journal.server}
      ensures Valid()
      ensures ExecutedStep(json, old(View()), old(Store()), ev, id, outcome, calls, View(), Store(), reply)
    {
      ghost var before, store := View(), Store();
      var ack := Invoke(ev, id, outcome);
      if ack == None { return Refusal(Some(id)); }
      assert Store() == store;
      var ok := Settle(ack.value, calls);
      RecordStep(json, before, store, ev, id, outcome, calls, Store(), ok);
      reply := if ok then Answer(ack.value) else Refusal(Some(id));
    }

    /** Handles one delivery; `outcome` is how the command's handler would end, `calls` schedules the journal. */
    method HandleEvent(event: Option<Event>, outcome: Outcome, calls: seq<Call>) returns (reply: Reply)
      requires Valid() && |calls| == 2 * ATTEMPTS
      modifies this`seen, this`handled, this`ran, this`completed, if journal == null then {} else {journal.server}
      ensures Valid()
      ensures Delivered(json, old(View()), old(Store()), event, outcome, calls, View(), Store(), reply)
    {
      if event == None || event.value.payload == None { return Refusal(None); }
      var commandId := CommandIdOf(event);
      if commandId == None { return Refusal(None); }
      var id := commandId.value;
      if id in seen { return Answer(seen[id]); }
      if !connected { return Refusal(Some(id)); }
      reply := Execute(event.value, id, outcome, calls);
    }
  }

  // ----- runs: deliveries, crashes, restarts and other writers, in any order

  datatype World = World(process: Option<Process>, store: Option<Data>)

  datatype Step =
    | Deliver(event: Option<Event>, outcome: Outcome, calls: seq<Call>, reply: Reply)
    | Crash
    | Start(handlers: set<Kind>, bridge: set<string>)
    | Foreign
    | Link(connected: bool)

  /** A fresh process that has attached the journal; the lifecycle closes the gate before any delivery. */
  ghost predicate Started(json: Json, store: Option<Data>, step: Step, p: Process)
    requires step.Start?
  {
    && LoadedFrom(json, Entries(store), p.seen)
    && p == Process(p.seen, step.handlers, step.bridge, false, true, 0, multiset{}, multiset{})
  }

  ghost predicate Next(json: Json, a: World, step: Step, b: World) {
    match step
    case Deliver(event, outcome, calls, reply) =>
      && a.process.Some? && b.process.Some? && |calls| == 2 * ATTEMPTS
      && Delivered(json, a.process.value, a.store, event, outcome, calls, b.process.value, b.store, reply)
    case Crash => b == World(None, a.store)
    case Start(_, _) =>
      // A load that fails leaves no running agent.
      && a.process.None? && b.store == a.store
      && (b.process.Some? ==> Started(json, a.store, step, b.process.value))
    case Foreign => b.process == a.process
    case Link(v) =>
      a.process.Some? && b == World(Some(a.process.value.(connected := v)), a.store)
  }

  ghost predicate IsRun(json: Json, worlds: seq<World>, steps: seq<Step>) {
    && |worlds| == |steps| + 1
    && worlds[0].process == None
    && forall i :: 0 <= i < |steps| ==> Next(json, worlds[i], steps[i], worlds[i + 1])
  }

  ghost predicate AtMostOnce(w: World) {
    w.process.Some? ==>
      (w.process.value.journaled &&
       forall id :: w.process.value.completed[id] <= (if id in w.process.value.seen then 1 else 0))
  }

  lemma StepKeepsAtMostOnce(json: Json, a: World, step: Step, b: World)
    requires AtMostOnce(a) && Next(json, a, step, b)
    ensures AtMostOnce(b)
  {
  }

  /** Within one process lifetime a command's handler completes without error at most once. */
  lemma {:induction false} CompletesAtMostOnce(json: Json, worlds: seq<World>, steps: seq<Step>, i: nat)
    requires IsRun(json, worlds, steps) && i < |worlds|
    ensures AtMostOnce(worlds[i])
    decreases i
  {
    if i > 0 {
      CompletesAtMostOnce(json, worlds, steps, i - 1);
      StepKeepsAtMostOnce(json, worlds[i - 1], steps[i - 1], worlds[i]);
    }
  }

  /** The journal holds this ack under its id. */
  predicate Holds(json: Json, store: Option<Data>, a: Ack) {
    store.Some? && a.commandId in store.value && store.value[a.commandId] == json.encode(a)
  }

  predicate Remembers(w: World, a: Ack) {
    w.process.Some? ==> a.commandId in w.process.value.seen && w.process.value.seen[a.commandId] == a
  }

  /** A successful Record leaves its ack in the journal. */
  lemma RecordedIsHeld(json: Json, store: Option<Data>, ack: Ack, calls: seq<Call>, store': Option<Data>)
    requires |calls| == 2 * ATTEMPTS && JournalStep(json, store, ack, calls, store', true)
    ensures Holds(json, store', ack)
  {
    var raw := json.encode(ack);
    var trace: seq<Write> :| Journaled(store, ack.commandId, raw, calls, trace, true) && store' == Final(store, trace);
    var n := |trace| - 1;
    assert trace[n].own && OwnWrite(Before(store, trace, n), ack.commandId, raw, trace[n].data);
  }

  /** Executing a command and answering it means its ack is both durable and remembered. */
  lemma AnsweredIsRecorded(json: Json, a: World, step: Step, b: World, id: string)
    requires Next(json, a, step, b) && step.Deliver? && CommandIdOf(step.event) == Some(id)
    requires a.process.value.journaled && id !in a.process.value.seen && step.reply.Answer?
    ensures step.reply.ack.commandId == id && Holds(json, b.store, step.reply.ack) && Remembers(b, step.reply.ack)
  {
    RecordedIsHeld(json, a.store, step.reply.ack, step.calls, b.store);
  }

  lemma StepKeepsMemory(json: Json, a: World, step: Step, b: World, ack: Ack)
    requires RoundTrips(json) && Next(json, a, step, b)
    requires Remembers(a, ack) && (step.Start? ==> Holds(json, a.store, ack))
    ensures Remembers(b, ack)
  {
    if step.Start? && b.process.Some? {
      assert json.decode(json.encode(ack)) == Some(ack);
      assert json.decode(a.store.value[ack.commandId]) == Some(b.process.value.seen[ack.commandId]);
    }
  }

  /** Once an ack is remembered, every process remembers it, before and after any number of crashes and restarts,
      as long as every restart still finds it in the journal. */
  lemma {:induction false} MemorySurvives(json: Json, worlds: seq<World>, steps: seq<Step>, i: nat, j: nat, ack: Ack)
    requires RoundTrips(json) && IsRun(json, worlds, steps) && i <= j < |worlds|
    requires Remembers(worlds[i], ack)
    requires forall k :: i <= k < j && steps[k].Start? ==> Holds(json, worlds[k].store, ack)
    ensures Remembers(worlds[j], ack)
    decreases j
  {
    if i < j {
      MemorySurvives(json, worlds, steps, i, j - 1, ack);
      assert steps[j - 1].Start? ==> Holds(json, worlds[j - 1].store, ack);
      StepKeepsMemory(json, worlds[j - 1], steps[j - 1], worlds[j], ack);
    }
  }

  /** Idempotent at-least-once handling: after a command was executed and answered, no later delivery of its
      id runs a handler or changes anything, and each returns the recorded ack, across restarts too as long as
      each of them finds the entry in the journal. */
  lemma RedeliveryIsAnswered(json: Json, worlds: seq<World>, steps: seq<Step>, i: nat, j: nat, id: string)
    requires RoundTrips(json) && IsRun(json, worlds, steps) && i < j < |steps|
    requires steps[i].Deliver? && CommandIdOf(steps[i].event) == Some(id) && steps[i].reply.Answer?
    requires worlds[i].process.Some? && id !in worlds[i].process.value.seen
    requires forall k :: i < k < j && steps[k].Start? ==> Holds(json, worlds[k].store, steps[i].reply.ack)
    requires steps[j].Deliver? && CommandIdOf(steps[j].event) == Some(id)
    ensures steps[j].reply == steps[i].reply && worlds[j + 1] == worlds[j]
  {
    CompletesAtMostOnce(json, worlds, steps, i);
    AnsweredIsRecorded(json, worlds[i], steps[i], worlds[i + 1], id);
    MemorySurvives(json, worlds, steps, i + 1, j, steps[i].reply.ack);
    assert Next(json, worlds[j], steps[j], worlds[j + 1]);
    assert worlds[j] == World(Some(worlds[j].process.value), worlds[j].store);
  }

  // ----- when a handler runs

  /** The event carries this command id. */
  predicate Carries(event: Option<Event>, id: string) {
    event.Some? && event.value.payload == Some(Decoded(id)) && id != ""
  }

  /** A handler is registered for the event's kind or, for bridge commands, its type name. */
  predicate Registered(p: Process, ev: Event) {
    ev.kind in p.handlers || ev.typeName in p.bridge
  }

  /** An event without a decodable, non-empty command id is refused and changes nothing. */
  lemma MalformedIsRefused(json: Json, a: World, step: Step, b: World)
    requires Next(json, a, step, b) && step.Deliver?
    requires step.event == None || step.event.value.payload in {None, Some(Undecodable), Some(Decoded(""))}
    ensures b == a && step.reply == Refusal(None)
  {
    assert a == World(Some(a.process.value), a.store) && b == World(Some(b.process.value), b.store);
  }

  /** An unseen command delivered to a connected process: its handler runs once if one is registered, by kind or by
      type name. A handler that errs leaves nothing behind. Otherwise the ack, the handler's own or "accepted" where
      there is no handler, is remembered, and the command counts as handled just when it is answered. */
  lemma UnseenCommandIsExecuted(json: Json, a: World, step: Step, b: World, id: string)
    requires Next(json, a, step, b) && step.Deliver? && Carries(step.event, id)
    requires a.process.value.connected && id !in a.process.value.seen
    ensures var p, q, ev := a.process.value, b.process.value, step.event.value;
            var errs := Registered(p, ev) && step.outcome.Errored?;
            && q.ran == p.ran + (if Registered(p, ev) then multiset{id} else multiset{})
            && q.completed == p.completed + (if Registered(p, ev) && !errs then multiset{id} else multiset{})
            && (errs ==> q.seen == p.seen && b.store == a.store && q.handled == p.handled)
            && (errs ==> step.reply == Refusal(Some(id)))
            && (!errs ==>
                  var ack := if Registered(p, ev) then Ack(id, step.outcome.result, step.outcome.message)
                             else Ack(id, Accepted, "accepted (no handler registered)");
                  && q.seen == p.seen[id := ack]
                  && (step.reply == Answer(ack) || (p.journaled && step.reply == Refusal(Some(id))))
                  && q.handled == p.handled + if step.reply.Answer? then 1 else 0)
  {
  }

  /** This delivery runs the command's handler. */
  predicate Runs(a: World, step: Step, id: string) {
    && step.Deliver? && Carries(step.event, id) && a.process.Some?
    && a.process.value.connected && id !in a.process.value.seen && Registered(a.process.value, step.event.value)
  }

  /** How often the current process was to run the command's handler, and how often without error. */
  ghost function Executions(worlds: seq<World>, steps: seq<Step>, i: nat, id: string): (nat, nat)
    requires i < |worlds| == |steps| + 1
  {
    if i == 0 || steps[i - 1].Crash? || steps[i - 1].Start? then (0, 0) else
      var (ran, completed) := Executions(worlds, steps, i - 1, id);
      if !Runs(worlds[i - 1], steps[i - 1], id) then (ran, completed)
      else if steps[i - 1].outcome.Errored? then (ran + 1, completed)
      else (ran + 1, completed + 1)
  }

  lemma StepRuns(json: Json, a: World, step: Step, b: World, id: string)
    requires Next(json, a, step, b) && a.process.Some? && b.process.Some? && !step.Start?
    ensures var p, q := a.process.value, b.process.value;
            && q.ran[id] == p.ran[id] + (if Runs(a, step, id) then 1 else 0)
            && q.completed[id] == p.completed[id] + if Runs(a, step, id) && step.outcome.Returned? then 1 else 0
  {
    var p, q := a.process.value, b.process.value;
    if step.Deliver? && CommandIdOf(step.event).Some? {
      var own := CommandIdOf(step.event).value;
      if p.connected && own !in p.seen {
        UnseenCommandIsExecuted(json, a, step, b, own);
      } else {
        assert q == p;
      }
    } else {
      assert q.ran == p.ran && q.completed == p.completed;
    }
  }

  /** In every run a handler has run in the current process exactly once for every delivery of its unseen id to the
      connected process, and completed exactly once for each of those that did not err. */
  lemma {:induction false} HandlersRunExactlyWhenDue(json: Json, worlds: seq<World>, steps: seq<Step>, i: nat,
                                                     id: string)
    requires IsRun(json, worlds, steps) && i < |worlds| && worlds[i].process.Some?
    ensures (worlds[i].process.value.ran[id], worlds[i].process.value.completed[id]) == Executions(worlds, steps, i, id)
    decreases i
  {
    if i > 0 {
      assert Next(json, worlds[i - 1], steps[i - 1], worlds[i]);
      if !steps[i - 1].Start? {
        HandlersRunExactlyWhenDue(json, worlds, steps, i - 1, id);
        StepRuns(json, worlds[i - 1], steps[i - 1], worlds[i], id);
      }
    }
  }

  /** A delivery remembers no id but its own. */
  lemma DeliveryRemembersItsOwn(json: Json, a: World, step: Step, b: World, id: string)
    requires Next(json, a, step, b) && step.Deliver? && CommandIdOf(step.event) != Some(id)
    ensures id in b.process.value.seen <==> id in a.process.value.seen
  {
    var p, q := a.process.value, b.process.value;
    match CommandIdOf(step.event) {
      case None => assert q.seen == p.seen;
      case Some(other) =>
        if other !in p.seen && p.connected && !(HasHandler(p, step.event.value) && step.outcome.Errored?) {
          assert q.seen == p.seen[other := AckFor(p, step.event.value, other, step.outcome)];
        } else {
          assert q.seen == p.seen;
        }
    }
  }

  lemma StepLeavesUnseen(json: Json, a: World, step: Step, b: World, id: string)
    requires Next(json, a, step, b) && a.process.Some? && id !in a.process.value.seen
    requires !step.Crash? && !(step.Deliver? && Carries(step.event, id))
    ensures b.process.Some? && id !in b.process.value.seen
  {
    if step.Deliver? { DeliveryRemembersItsOwn(json, a, step, b, id); }
  }

  lemma {:induction false} StaysUnseen(json: Json, worlds: seq<World>, steps: seq<Step>, i: nat, j: nat, id: string)
    requires IsRun(json, worlds, steps) && i <= j < |worlds|
    requires worlds[i].process.Some? && id !in worlds[i].process.value.seen
    requires forall k :: i <= k < j ==> !steps[k].Crash? && !(steps[k].Deliver? && Carries(steps[k].event, id))
    ensures worlds[j].process.Some? && id !in worlds[j].process.value.seen
    decreases j
  {
    if i < j {
      StaysUnseen(json, worlds, steps, i, j - 1, id);
      StepLeavesUnseen(json, worlds[j - 1], steps[j - 1], worlds[j], id);
    }
  }

  /** A transient failure is not final: after a handler erred, the next delivery of its id to the connected process,
      whatever happened in between, runs the handler again. */
  lemma TransientFailureIsRetried(json: Json, worlds: seq<World>, steps: seq<Step>, i: nat, j: nat, id: string)
    requires IsRun(json, worlds, steps) && i < j < |steps|
    requires Runs(worlds[i], steps[i], id) && steps[i].outcome.Errored?
    requires forall k :: i < k < j ==> !steps[k].Crash? && !(steps[k].Deliver? && Carries(steps[k].event, id))
    requires steps[j].Deliver? && Carries(steps[j].event, id) && worlds[j].process.Some?
    requires worlds[j].process.value.connected && Registered(worlds[j].process.value, steps[j].event.value)
    ensures worlds[j + 1].process.Some?
    ensures worlds[j + 1].process.value.ran[id] == worlds[j].process.value.ran[id] + 1
  {
    assert Next(json, worlds[i], steps[i], worlds[i + 1]);
    UnseenCommandIsExecuted(json, worlds[i], steps[i], worlds[i + 1], id);
    StaysUnseen(json, worlds, steps, i + 1, j, id);
    assert Next(json, worlds[j], steps[j], worlds[j + 1]);
    UnseenCommandIsExecuted(json, worlds[j], steps[j], worlds[j + 1], id);
  }

  // ----- when an answered command is durable

  /** A restart would load this ack for the id. */
  predicate Durable(json: Json, store: Option<Data>, id: string, ack: Ack) {
    id in Entries(store) && json.decode(Entries(store)[id]) == Some(ack)
  }

  /** A Record whose write reaches nobody is never retried: the delivery is refused, the next one is answered from
      memory alone, and the journal is as it was, without the ack. */
  lemma LostRecordIsNeverRetried(json: Json, a: World, first: Step, b: World, second: Step, c: World, id: string)
    requires Next(json, a, first, b) && Next(json, b, second, c) && first.Deliver? && second.Deliver?
    requires CommandIdOf(first.event) == Some(id) && CommandIdOf(second.event) == Some(id)
    requires var p := a.process.value; p.journaled && p.connected && id !in p.seen
    requires HasHandler(a.process.value, first.event.value) ==> first.outcome.Returned?
    requires Undisturbed(first.calls) && !Lands(first.calls)
    ensures first.reply == Refusal(Some(id)) && c.store == a.store
    ensures second.reply == Answer(AckFor(a.process.value, first.event.value, id, first.outcome))
  {
  }

  /** The same through the dispatcher itself. */
  method DeliverTwiceLosingTheRecord(d: Dispatcher, ev: Event, id: string, outcome: Outcome,
                                     calls: seq<Call>, retry: seq<Call>)
    returns (first: Reply, second: Reply)
    requires d.Valid() && d.journal != null && d.connected && id !in d.seen && id !in Entries(d.Store())
    requires CommandIdOf(Some(ev)) == Some(id) && HasHandler(d.View(), ev) && outcome.Returned?
    requires Undisturbed(calls) && !Lands(calls) && |retry| == 2 * ATTEMPTS
    modifies d, d.journal.server
    ensures first == Refusal(Some(id)) && second == Answer(Ack(id, outcome.result, outcome.message))
    ensures d.Valid() && d.Store() == old(d.Store()) && !Holds(d.json, d.Store(), second.ack)
  {
    ghost var store := d.Store();
    first := d.HandleEvent(Some(ev), outcome, calls);
    assert d.Store() == store;
    second := d.HandleEvent(Some(ev), outcome, retry);
  }

  /** This step ran or accepted the command, and remembered its ack. */
  predicate Executes(a: World, step: Step, b: World, id: string) {
    && step.Deliver? && CommandIdOf(step.event) == Some(id)
    && a.process.Some? && id !in a.process.value.seen
    && b.process.Some? && id in b.process.value.seen
  }

  /** The commands the current process has executed without any write of their Record reaching the server. */
  ghost function Missed(worlds: seq<World>, steps: seq<Step>, i: nat): set<string>
    requires i < |worlds| == |steps| + 1
  {
    if i == 0 || steps[i - 1].Crash? || steps[i - 1].Start? then {}
    else Missed(worlds, steps, i - 1) + MissedAt(worlds[i - 1], steps[i - 1], worlds[i])
  }

  ghost function MissedAt(a: World, step: Step, b: World): set<string> {
    match step
    case Deliver(event, _, calls, _) =>
      (match CommandIdOf(event)
       case Some(id) => if Executes(a, step, b, id) && |calls| == 2 * ATTEMPTS && !Lands(calls) then {id} else {}
       case None => {})
    case _ => {}
  }

  /** Nobody else writes to the journal, and it stays below its bound. */
  ghost predicate Private(worlds: seq<World>, steps: seq<Step>) {
    && (forall i :: 0 <= i < |steps| ==> !steps[i].Foreign? && (steps[i].Deliver? ==> Undisturbed(steps[i].calls)))
    && (forall i :: 0 <= i < |worlds| ==> |Entries(worlds[i].store)| < MAX_JOURNAL_ENTRIES)
  }

  /** The process remembers everything in the journal, and of what it remembers the journal lacks just `missed`. */
  ghost predicate InStep(json: Json, w: World, missed: set<string>) {
    w.process.Some? ==>
      var seen := w.process.value.seen;
      && w.process.value.journaled && missed <= seen.Keys && Entries(w.store).Keys <= seen.Keys
      && forall id :: id in seen ==> (Durable(json, w.store, id, seen[id]) <==> id !in missed)
  }

  lemma AddedIsIt(data: Data, id: string, raw: string)
    ensures |data[id := raw]| <= |data| + 1
  {
    assert data[id := raw].Keys == data.Keys + {id};
    assert |data[id := raw]| == |data[id := raw].Keys| && |data| == |data.Keys|;
  }

  /** A Record among no other writers adds the entry or changes nothing, as the schedule has it. */
  lemma PrivateRecord(json: Json, store: Option<Data>, ack: Ack, calls: seq<Call>, store': Option<Data>, ok: bool)
    requires Undisturbed(calls) && |Entries(store)| < MAX_JOURNAL_ENTRIES
    requires JournalStep(json, store, ack, calls, store', ok)
    ensures store' == if Lands(calls) then Some(Entries(store)[ack.commandId := json.encode(ack)]) else store
  {
    var id, raw := ack.commandId, json.encode(ack);
    var trace: seq<Write> :| Journaled(store, id, raw, calls, trace, ok) && store' == Final(store, trace);
    AddedIsIt(Entries(store), id, raw);
    AloneOnlyAdds(store, trace, id, raw);
  }

  /** A command remembered and recorded, or remembered only. */
  lemma RememberedKeepsInStep(json: Json, seen: map<string, Ack>, store: Option<Data>,
                              missed: set<string>, ack: Ack, lands: bool)
    requires RoundTrips(json) && missed <= seen.Keys && Entries(store).Keys <= seen.Keys && ack.commandId !in seen
    requires forall id :: id in seen ==> (Durable(json, store, id, seen[id]) <==> id !in missed)
    ensures var id := ack.commandId;
            var seen', missed' := seen[id := ack], missed + if lands then {} else {id};
            var store' := if lands then Some(Entries(store)[id := json.encode(ack)]) else store;
            && missed' <= seen'.Keys && Entries(store').Keys <= seen'.Keys
            && forall k :: k in seen' ==> (Durable(json, store', k, seen'[k]) <==> k !in missed')
  {
    var id := ack.commandId;
    var store' := if lands then Some(Entries(store)[id := json.encode(ack)]) else store;
    assert json.decode(json.encode(ack)) == Some(ack);
    assert forall k :: k in seen ==> (Durable(json, store', k, seen[k]) <==> Durable(json, store, k, seen[k]));
  }

  lemma DeliverKeepsInStep(json: Json, a: World, step: Step, b: World, missed: set<string>)
    requires RoundTrips(json) && Next(json, a, step, b) && step.Deliver? && Undisturbed(step.calls)
    requires |Entries(a.store)| < MAX_JOURNAL_ENTRIES && InStep(json, a, missed)
    ensures InStep(json, b, missed + MissedAt(a, step, b))
  {
    var p, q := a.process.value, b.process.value;
    var id := CommandIdOf(step.event);
    if id.Some? && Executes(a, step, b, id.value) {
      var ack := AckFor(p, step.event.value, id.value, step.outcome);
      PrivateRecord(json, a.store, ack, step.calls, b.store, step.reply.Answer?);
      RememberedKeepsInStep(json, p.seen, a.store, missed, ack, Lands(step.calls));
      assert q.seen == p.seen[id.value := ack];
    } else {
      assert q.seen == p.seen && b.store == a.store;
      assert missed + MissedAt(a, step, b) == missed;
    }
  }

  ghost predicate DurableIffNotMissed(json: Json, worlds: seq<World>, steps: seq<Step>, i: nat)
    requires i < |worlds| == |steps| + 1
  {
    InStep(json, worlds[i], Missed(worlds, steps, i))
  }

  lemma StartsInStep(json: Json, worlds: seq<World>, steps: seq<Step>)
    requires IsRun(json, worlds, steps)
    ensures DurableIffNotMissed(json, worlds, steps, 0)
  {
  }

  lemma MissedNext(worlds: seq<World>, steps: seq<Step>, i: nat)
    requires i < |steps| && |worlds| == |steps| + 1
    ensures Missed(worlds, steps, i + 1) ==
            if steps[i].Crash? || steps[i].Start? then {}
            else Missed(worlds, steps, i) + MissedAt(worlds[i], steps[i], worlds[i + 1])
  {
  }

  /** Crashes, starts and transitions of the link. */
  lemma OtherStepKeepsInStep(json: Json, a: World, step: Step, b: World, missed: set<string>)
    requires Next(json, a, step, b) && !step.Foreign? && !step.Deliver? && InStep(json, a, missed)
    ensures InStep(json, b, if step.Crash? || step.Start? then {} else missed)
  {
  }

  lemma StepKeepsInStep(json: Json, worlds: seq<World>, steps: seq<Step>, i: nat)
    requires RoundTrips(json) && IsRun(json, worlds, steps) && Private(worlds, steps) && i < |steps|
    requires DurableIffNotMissed(json, worlds, steps, i)
    ensures DurableIffNotMissed(json, worlds, steps, i + 1)
  {
    var a, step, b, missed := worlds[i], steps[i], worlds[i + 1], Missed(worlds, steps, i);
    MissedNext(worlds, steps, i);
    if step.Deliver? {
      DeliverKeepsInStep(json, a, step, b, missed);
    } else {
      OtherStepKeepsInStep(json, a, step, b, missed);
      assert missed + {} == missed;
    }
  }

  /** In every run without other writers and below the bound, what a process remembers, and so every answer it
      gives, is durable if and only if it was loaded at start or the Record of the delivery that executed it got
      a write through: its first read was served and its first write request reached the server. */
  lemma {:induction false} DurableExactlyWhenRecorded(json: Json, worlds: seq<World>, steps: seq<Step>, i: nat)
    requires RoundTrips(json) && IsRun(json, worlds, steps) && Private(worlds, steps) && i < |worlds|
    ensures DurableIffNotMissed(json, worlds, steps, i)
    decreases i
  {
    if i == 0 {
      StartsInStep(json, worlds, steps);
    } else {
      DurableExactlyWhenRecorded(json, worlds, steps, i - 1);
      StepKeepsInStep(json, worlds, steps, i - 1);
    }
  }

  /** For the answers themselves. */
  lemma AnswersAreDurableExactlyWhen(json: Json, worlds: seq<World>, steps: seq<Step>, i: nat, id: string)
    requires RoundTrips(json) && IsRun(json, worlds, steps) && Private(worlds, steps) && i < |steps|
    requires steps[i].Deliver? && steps[i].reply.Answer? && CommandIdOf(steps[i].event) == Some(id)
    ensures Durable(json, worlds[i + 1].store, id, steps[i].reply.ack) <==> id !in Missed(worlds, steps, i + 1)
  {
    DurableExactlyWhenRecorded(json, worlds, steps, i + 1);
    assert Next(json, worlds[i], steps[i], worlds[i + 1]);
    var seen := worlds[i + 1].process.value.seen;
    assert id in seen && seen[id] == steps[i].reply.ack;
  }
}
