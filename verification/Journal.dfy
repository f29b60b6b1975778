/** The ConfigMap journal of internal/command/journal.go, against an API server other writers also use. */
module Journal {
  import opened Common

  datatype CommandResult = Unspecified | Accepted | Applied | Failed

  datatype Ack = Ack(commandId: string, result: CommandResult, message: string)

  /** The JSON encoding of acks, left uninterpreted up to its round trip. */
  datatype Json = Json(encode: Ack -> string, decode: string -> Option<Ack>)

  ghost predicate RoundTrips(j: Json) {
    forall a :: j.decode(j.encode(a)) == Some(a)
  }

  const MAX_JOURNAL_ENTRIES: nat := 1000
  const ATTEMPTS: nat := 3

  type Data = map<string, string>

  // ----- the API server

  datatype ConfigMap = ConfigMap(version: nat, data: Data)

  /** What other writers may do to the object. */
  datatype Edit = Put(data: Data) | Remove

  /** Whether a request is served, lost on the way in, or served with its response lost. */
  datatype Fault = Healthy | RequestLost | ResponseLost

  /** One API call as scheduled by the outside world: foreign edits land first, then the call meets its fate. */
  datatype Call = Call(edits: seq<Edit>, fault: Fault)

  const QUIET: Call := Call([], Healthy)

  /** A call that works, among writers that never remove the object. */
  predicate Benign(call: Call) {
    call.fault.Healthy? && Remove !in call.edits
  }

  datatype ApiError = NotFound | AlreadyExists | Conflict | Unavailable

  // ----- what happens to the object

  /** One write to the object: whether it was one of ours, and what it left there. */
  datatype Write = Write(own: bool, data: Option<Data>)

  /** What write i of a trace found. */
  ghost function Before(store: Option<Data>, trace: seq<Write>, i: nat): Option<Data>
    requires i <= |trace|
  {
    if i == 0 then store else trace[i - 1].data
  }

  ghost function Final(store: Option<Data>, trace: seq<Write>): Option<Data> {
    Before(store, trace, |trace|)
  }

  ghost function Foreign(edits: seq<Edit>): (trace: seq<Write>)
    ensures |trace| == |edits| && forall i :: 0 <= i < |trace| ==> !trace[i].own
  {
    seq(|edits|, i requires 0 <= i < |edits| => Write(false, Result(edits[i])))
  }

  function Result(edit: Edit): Option<Data> {
    if edit.Put? then Some(edit.data) else None
  }

  /** The writes of others in a trace. */
  ghost function Others(trace: seq<Write>): seq<Write> {
    if trace == [] then [] else
      Others(trace[..|trace| - 1]) + if trace[|trace| - 1].own then [] else [trace[|trace| - 1]]
  }

  /** What others do around these calls. */
  ghost function AllForeign(calls: seq<Call>): seq<Write> {
    if calls == [] then [] else AllForeign(calls[..|calls| - 1]) + Foreign(calls[|calls| - 1].edits)
  }

  lemma {:induction false} OthersConcat(a: seq<Write>, b: seq<Write>)
    ensures Others(a + b) == Others(a) + Others(b)
  {
    if b == [] {
      assert a + b == a;
    } else {
      assert (a + b)[..|a + b| - 1] == a + b[..|b| - 1];
      OthersConcat(a, b[..|b| - 1]);
    }
  }

  lemma {:induction false} OthersOfForeign(trace: seq<Write>)
    requires forall i :: 0 <= i < |trace| ==> !trace[i].own
    ensures Others(trace) == trace
  {
    if trace != [] { OthersOfForeign(trace[..|trace| - 1]); }
  }

  lemma OthersOfCall(edits: seq<Edit>, happens: bool, data: Data)
    ensures Others(Foreign(edits) + Ours(happens, data)) == Foreign(edits)
  {
    OthersConcat(Foreign(edits), Ours(happens, data));
    OthersOfForeign(Foreign(edits));
    assert Others([]) == [] && Foreign(edits) + [] == Foreign(edits);
    if happens { assert Ours(happens, data)[..0] == []; }
  }

  lemma AllForeignNext(calls: seq<Call>, i: nat)
    requires i < |calls|
    ensures AllForeign(calls[..i + 1]) == AllForeign(calls[..i]) + Foreign(calls[i].edits)
  {
    assert calls[..i + 1][..i] == calls[..i];
  }

  /** The write of a request that reaches the server and finds what it needs. */
  ghost function Ours(happens: bool, data: Data): seq<Write> {
    if happens then [Write(true, Some(data))] else []
  }

  /** A create writes when it reaches a server without the object. */
  ghost predicate Creates(store: Option<Data>, call: Call) {
    !call.fault.RequestLost? && Final(store, Foreign(call.edits)) == None
  }

  /** An update writes when it reaches the server before anybody else has written since the read. */
  predicate Updates(call: Call) {
    !call.fault.RequestLost? && call.edits == []
  }

  class ApiServer {
    var revision: nat
    var stored: Option<ConfigMap>
    /** Every write since the beginning, oldest first. */
    ghost var log: seq<Write>

    constructor ()
      ensures Valid() && stored == None && log == []
    {
      revision, stored, log := 0, None, [];
    }

    ghost predicate Valid()
      reads this
    {
      Contents() == Final(None, log) && (stored.Some? ==> stored.value.version <= revision)
    }

    ghost function Contents(): Option<Data>
      reads this
    {
      if stored.Some? then Some(stored.value.data) else None
    }

    method Store(data: Option<Data>, ghost own: bool)
      requires Valid()
      modifies this
      ensures Valid() && revision == old(revision) + 1 && log == old(log) + [Write(own, data)]
      ensures stored == if data.Some? then Some(ConfigMap(revision, data.value)) else None
    {
      revision := revision + 1;
      stored := if data.Some? then Some(ConfigMap(revision, data.value)) else None;
      log := log + [Write(own, data)];
    }

    /** Other writers act: if they do, the object is afterwards gone or newer than everything before. */
    method Interfere(edits: seq<Edit>)
      requires Valid()
      modifies this
      ensures Valid() && revision >= old(revision)
      ensures log == old(log) + Foreign(edits) && Contents() == Final(old(Contents()), Foreign(edits))
      ensures edits == [] ==> stored == old(stored)
      ensures edits != [] ==> stored == None || stored.value.version > old(revision)
    {
      for i := 0 to |edits|
        invariant Valid() && revision >= old(revision)
        invariant log == old(log) + Foreign(edits)[..i]
        invariant Contents() == Before(old(Contents()), Foreign(edits), i)
        invariant i == 0 ==> stored == old(stored)
        invariant i > 0 ==> stored == None || stored.value.version > old(revision)
      {
        Store(if edits[i].Put? then Some(edits[i].data) else None, false);
        assert Foreign(edits)[..i + 1] == Foreign(edits)[..i] + [Foreign(edits)[i]];
      }
      assert Foreign(edits)[..|edits|] == Foreign(edits);
    }

    method Get(call: Call) returns (cm: Option<ConfigMap>, error: Option<ApiError>)
      requires Valid()
      modifies this
      ensures Valid() && revision >= old(revision)
      ensures log == old(log) + Foreign(call.edits) && Contents() == Final(old(Contents()), Foreign(call.edits))
      ensures cm == if call.fault.Healthy? then stored else None
      ensures error == if !call.fault.Healthy? then Some(Unavailable)
                       else if stored == None then Some(NotFound) else None
    {
      Interfere(call.edits);
      cm, error := None, None;
      if !call.fault.Healthy? { return None, Some(Unavailable); }
      if stored == None { return None, Some(NotFound); }
      cm := stored;
    }

    method Create(data: Data, call: Call) returns (error: Option<ApiError>)
      requires Valid()
      modifies this
      ensures Valid() && revision >= old(revision)
      ensures log == old(log) + (Foreign(call.edits) + Ours(Creates(old(Contents()), call), data))
      ensures error == if !call.fault.Healthy? then Some(Unavailable)
                       else if Creates(old(Contents()), call) then None else Some(AlreadyExists)
    {
      Interfere(call.edits);
      if call.fault.RequestLost? { return Some(Unavailable); }
      if stored.Some? {
        return if call.fault.Healthy? then Some(AlreadyExists) else Some(Unavailable);
      }
      Store(Some(data), true);
      error := if call.fault.Healthy? then None else Some(Unavailable);
    }

    /** Optimistic concurrency: the write happens only over the very version that was read. */
    method Update(cm: ConfigMap, call: Call) returns (error: Option<ApiError>)
      requires Valid() && stored.Some? && stored.value.version == cm.version
      modifies this
      ensures Valid() && revision >= old(revision)
      ensures log == old(log) + (Foreign(call.edits) + Ours(Updates(call), cm.data))
      ensures error == if !call.fault.Healthy? then Some(Unavailable)
                       else if call.edits == [] then None
                       else if Final(None, Foreign(call.edits)) == None then Some(NotFound) else Some(Conflict)
    {
      Interfere(call.edits);
      if call.fault.RequestLost? { return Some(Unavailable); }
      if stored == None {
        return if call.fault.Healthy? then Some(NotFound) else Some(Unavailable);
      }
      if stored.value.version != cm.version {
        return if call.fault.Healthy? then Some(Conflict) else Some(Unavailable);
      }
      Store(Some(cm.data), true);
      error := if call.fault.Healthy? then None else Some(Unavailable);
    }
  }

  // ----- eviction

  /** `kept` holds as many of `full`'s entries as the journal may, unchanged, among them `own`. */
  ghost predicate Evicted(full: Data, own: string, kept: Data) {
    && own in full && own in kept
    && |kept| == Min(|full|, MAX_JOURNAL_ENTRIES)
    && forall k :: k in kept ==> k in full && kept[k] == full[k]
  }

  /** What a successful Record does to the contents it was applied to. */
  ghost predicate Recorded(base: Data, id: string, raw: string, after: Data) {
    Evicted(base[id := raw], id, after)
  }

  /** A write of Record's: the first entry of a new object, or an entry added to what was there. */
  ghost predicate OwnWrite(before: Option<Data>, id: string, raw: string, after: Option<Data>) {
    && after.Some?
    && if before.None? then after.value == map[id := raw] else Recorded(before.value, id, raw, after.value)
  }

  /** Every write of ours in a trace is of that kind, whatever other writers did in between. */
  ghost predicate Lawful(store: Option<Data>, trace: seq<Write>, id: string, raw: string) {
    forall i :: 0 <= i < |trace| && trace[i].own ==> OwnWrite(Before(store, trace, i), id, raw, trace[i].data)
  }

  lemma LawfulConcat(store: Option<Data>, a: seq<Write>, b: seq<Write>, id: string, raw: string)
    requires Lawful(store, a, id, raw) && Lawful(Final(store, a), b, id, raw)
    ensures Lawful(store, a + b, id, raw) && Final(store, a + b) == Final(Final(store, a), b)
  {
    forall i | 0 <= i < |a + b| && (a + b)[i].own
      ensures OwnWrite(Before(store, a + b, i), id, raw, (a + b)[i].data)
    {
      if i < |a| {
        assert a[i].own && Before(store, a, i) == Before(store, a + b, i);
      } else {
        assert b[i - |a|].own && Before(Final(store, a), b, i - |a|) == Before(store, a + b, i);
      }
    }
  }

  /** Foreign edits followed by at most one write of ours that is lawful where it lands. */
  lemma LawfulCall(store: Option<Data>, edits: seq<Edit>, happens: bool, data: Data, id: string, raw: string)
    requires happens ==> OwnWrite(Final(store, Foreign(edits)), id, raw, Some(data))
    ensures Lawful(store, Foreign(edits) + Ours(happens, data), id, raw)
  {
    LawfulConcat(store, Foreign(edits), Ours(happens, data), id, raw);
  }

  /** Whatever a write of ours removes, it removes by eviction: the entries it found, with its own, exceeded the
      bound. */
  lemma OwnWritesLoseOnlyByEviction(store: Option<Data>, trace: seq<Write>, id: string, raw: string, i: nat, k: string)
    requires Lawful(store, trace, id, raw) && i < |trace| && trace[i].own
    requires Before(store, trace, i).Some? && k in Before(store, trace, i).value && k != id
    ensures var base, after := Before(store, trace, i).value, trace[i].data;
            after.Some? && (if k in after.value then after.value[k] == base[k]
                            else |base[id := raw]| > MAX_JOURNAL_ENTRIES == |after.value|)
  {
    var base, after := Before(store, trace, i).value, trace[i].data.value;
    if |base[id := raw]| <= MAX_JOURNAL_ENTRIES {
      BelowBoundNothingIsLost(base, id, raw, after);
    }
  }

  /** Without other writers and below the bound, what our writes leave is the entry added, once any landed. */
  lemma {:induction false} AloneOnlyAdds(store: Option<Data>, trace: seq<Write>, id: string, raw: string)
    requires Lawful(store, trace, id, raw) && AllOwn(trace)
    requires |Entries(store)[id := raw]| <= MAX_JOURNAL_ENTRIES
    ensures Final(store, trace) == if trace == [] then store else Some(Entries(store)[id := raw])
  {
    if trace != [] {
      var front, n := trace[..|trace| - 1], |trace| - 1;
      assert forall i :: 0 <= i <= n ==> Before(store, front, i) == Before(store, trace, i);
      AloneOnlyAdds(store, front, id, raw);
      assert trace[n].own && OwnWrite(Before(store, trace, n), id, raw, trace[n].data);
      if Before(store, trace, n).Some? {
        var base := Before(store, trace, n).value;
        assert base[id := raw] == Entries(store)[id := raw];
        BelowBoundNothingIsLost(base, id, raw, trace[n].data.value);
      }
    }
  }

  predicate AllOwn(trace: seq<Write>) {
    forall i :: 0 <= i < |trace| ==> trace[i].own
  }

  /** Nothing is evicted below the bound: every foreign entry survives. */
  lemma BelowBoundNothingIsLost(base: Data, id: string, raw: string, after: Data)
    requires Recorded(base, id, raw, after) && |base[id := raw]| <= MAX_JOURNAL_ENTRIES
    ensures after == base[id := raw]
  {
    var full := base[id := raw];
    SubsetOfEqualSize(after.Keys, full.Keys);
    assert |after.Keys| == |after| && |full.Keys| == |full|;
  }

  lemma {:induction false} SubsetOfEqualSize(a: set<string>, b: set<string>)
    requires a <= b && |a| == |b|
    ensures a == b
    decreases a
  {
    if a != {} {
      var x :| x in a;
      SubsetOfEqualSize(a - {x}, b - {x});
      assert a == (a - {x}) + {x} && b == (b - {x}) + {x};
    } else {
      assert |b| == 0;
    }
  }

  /** Above it exactly the excess goes, and never the entry being recorded. */
  lemma EvictionCount(base: Data, id: string, raw: string, after: Data)
    requires Recorded(base, id, raw, after)
    ensures |base[id := raw].Keys - after.Keys| == |base[id := raw]| - Min(|base[id := raw]|, MAX_JOURNAL_ENTRIES)
    ensures id in after && after[id] == raw
    ensures forall k :: k in after && k != id ==> k in base && after[k] == base[k]
  {
    var full := base[id := raw];
    assert full.Keys == after.Keys + (full.Keys - after.Keys);
  }

  /** A schedule the three attempts absorb: the calls work, nobody removes the object, and nobody writes
      during the last attempt. Earlier attempts may lose any number of races. */
  ghost predicate Absorbable(calls: seq<Call>) {
    && |calls| == 2 * ATTEMPTS
    && (forall i :: 0 <= i < |calls| ==> Benign(calls[i]))
    && calls[|calls| - 2] == QUIET && calls[|calls| - 1] == QUIET
  }

  /** Nobody else writes during these calls. */
  predicate Undisturbed(calls: seq<Call>) {
    |calls| == 2 * ATTEMPTS && forall i :: 0 <= i < |calls| ==> calls[i].edits == []
  }

  /** The first read is served and the first write request reaches the server. */
  predicate Lands(calls: seq<Call>)
    requires |calls| == 2 * ATTEMPTS
  {
    calls[0].fault.Healthy? && !calls[1].fault.RequestLost?
  }

  /** The calls an undisturbed Record makes all work; an object that must be created takes a second attempt. */
  predicate Works(calls: seq<Call>, there: bool)
    requires |calls| == 2 * ATTEMPTS
  {
    && calls[0].fault.Healthy? && calls[1].fault.Healthy?
    && (there || (calls[2].fault.Healthy? && calls[3].fault.Healthy?))
  }

  /** What a Record does: its writes are lawful; all other writes are what others do around the calls it made; success
      means that the last write of all was ours, over an existing object; and without other writers the schedule
      decides whether a write lands and whether the Record succeeds. */
  ghost predicate Journaled(store: Option<Data>, id: string, raw: string, calls: seq<Call>, trace: seq<Write>, ok: bool)
    requires |calls| == 2 * ATTEMPTS
  {
    && Lawful(store, trace, id, raw)
    && OnlyScheduled(calls, trace)
    && (ok ==> LandedLast(store, trace))
    && (Absorbable(calls) ==> ok)
    && (Undisturbed(calls) ==> AllOwn(trace) && (trace != [] <==> Lands(calls)) && ok == Works(calls, store.Some?))
  }

  /** Others wrote just what they do around the calls made so far. */
  ghost predicate OnlyScheduled(calls: seq<Call>, trace: seq<Write>) {
    exists made: nat :: made <= |calls| && Others(trace) == AllForeign(calls[..made])
  }

  ghost predicate LandedLast(store: Option<Data>, trace: seq<Write>) {
    trace != [] && trace[|trace| - 1].own && Before(store, trace, |trace| - 1).Some?
  }

  class ConfigMapJournal {
    const server: ApiServer
    const json: Json

    constructor (server: ApiServer, json: Json)
      ensures this.server == server && this.json == json
    {
      this.server := server;
      this.json := json;
    }

    /** Reads every recorded ack; an entry that does not decode fails the whole load. */
    method Load(call: Call) returns (loaded: Option<map<string, Ack>>)
      requires server.Valid()
      modifies server
      ensures server.Valid() && server.log == old(server.log) + Foreign(call.edits)
      ensures loaded.Some? ==> LoadedFrom(json, Entries(server.Contents()), loaded.value)
      ensures loaded.Some? <==> call.fault.Healthy? && Decodable(json, Entries(server.Contents()))
    {
      var cm, error := server.Get(call);
      if error == Some(NotFound) { return Some(map[]); }
      if error.Some? { return None; }
      var out: map<string, Ack> := map[];
      var todo := cm.value.data.Keys;
      while todo != {}
        invariant todo <= cm.value.data.Keys && out.Keys == cm.value.data.Keys - todo
        invariant forall id :: id in out ==> json.decode(cm.value.data[id]) == Some(out[id])
        decreases todo
      {
        var id :| id in todo;
        todo := todo - {id};
        var ack := json.decode(cm.value.data[id]);
        if ack == None { return None; }
        out := out[id := ack.value];
      }
      loaded := Some(out);
    }

    /** Drops arbitrary entries other than `own` until the bound holds. */
    method Evict(full: Data, own: string) returns (kept: Data)
      requires own in full
      ensures Evicted(full, own, kept) && |kept| == Min(|full|, 1000)
    {
      kept := full;
      var todo := full.Keys;
      while todo != {} && |kept| > MAX_JOURNAL_ENTRIES
        invariant todo <= full.Keys && own in kept
        invariant todo <= kept.Keys
        invariant |full| <= MAX_JOURNAL_ENTRIES ==> kept == full
        invariant |full| > MAX_JOURNAL_ENTRIES ==> |kept| >= MAX_JOURNAL_ENTRIES
        invariant kept.Keys <= todo + {own}
        invariant forall k :: k in kept ==> k in full && kept[k] == full[k]
        decreases todo
      {
        var id :| id in todo;
        todo := todo - {id};
        if id != own {
          ghost var before := kept;
          kept := kept - {id};
          assert before.Keys == kept.Keys + {id};
        }
      }
      if todo == {} {
        assert kept.Keys == {own};
        assert |kept| == |kept.Keys|;
      }
    }

    /** The contents with the entry added, within the bound. */
    method Added(data: Data, id: string, raw: string) returns (kept: Data)
      ensures OwnWrite(Some(data), id, raw, Some(kept))
    {
      kept := Evict(data[id := raw], id);
    }

    /** First use: creates the object; unless that fails, another attempt follows. */
    method CreateFirst(id: string, raw: string, put: Call) returns (decided: bool, ghost trace: seq<Write>)
      requires server.Valid() && server.stored == None
      modifies server
      ensures server.Valid() && server.log == old(server.log) + trace
      ensures Final(None, trace) == server.Contents() && PutBack(None, id, raw, put, trace, decided, false)
    {
      ghost var log := server.log;
      trace := Foreign(put.edits) + Ours(Creates(None, put), map[id := raw]);
      LawfulCall(None, put.edits, Creates(None, put), map[id := raw], id, raw);
      OthersOfCall(put.edits, Creates(None, put), map[id := raw]);
      var error := server.Create(map[id := raw], put);
      FinalConcat(None, log, trace);
      decided := !(error == None || error == Some(AlreadyExists));
    }

    /** Adds the entry to what was read; a lost race leaves the outcome open. */
    method UpdateOver(id: string, raw: string, cm: ConfigMap, put: Call)
      returns (decided: bool, ok: bool, ghost trace: seq<Write>)
      requires server.Valid() && server.stored == Some(cm)
      modifies server
      ensures server.Valid() && server.log == old(server.log) + trace
      ensures Final(Some(cm.data), trace) == server.Contents()
      ensures PutBack(Some(cm.data), id, raw, put, trace, decided, ok)
    {
      ghost var log := server.log;
      var kept := Added(cm.data, id, raw);
      trace := Foreign(put.edits) + Ours(Updates(put), kept);
      LawfulCall(Some(cm.data), put.edits, Updates(put), kept, id, raw);
      OthersOfCall(put.edits, Updates(put), kept);
      var error := server.Update(cm.(data := kept), put);
      FinalConcat(None, log, trace);
      decided, ok := error != Some(Conflict), error == None;
      UpdateOutcome(cm.data, kept, put);
    }

    /** One attempt, which decides the outcome unless the object had to be created or a race was lost. */
    method Attempt(id: string, raw: string, get: Call, put: Call)
      returns (decided: bool, ok: bool, ghost trace: seq<Write>)
      requires server.Valid()
      modifies server
      ensures server.Valid() && server.log == old(server.log) + trace
      ensures Final(old(server.Contents()), trace) == server.Contents()
      ensures Tried(old(server.Contents()), id, raw, get, put, trace, decided, ok)
    {
      decided, ok := true, false;
      ghost var store, second := server.Contents(), [];
      var cm, error := server.Get(get);
      if error == Some(NotFound) {
        decided, second := CreateFirst(id, raw, put);
      } else if error == None {
        decided, ok, second := UpdateOver(id, raw, cm.value, put);
      }
      trace := Foreign(get.edits) + second;
      AttemptOutcome(store, id, raw, get, put, second, decided, ok);
    }

    /** Creates the object on first use and retries conflicts; the calls happen as `calls` schedules them. */
    method Record(ack: Ack, calls: seq<Call>) returns (ok: bool, ghost trace: seq<Write>)
      requires server.Valid() && |calls| == 2 * ATTEMPTS
      modifies server
      ensures server.Valid() && server.log == old(server.log) + trace
      ensures Final(old(server.Contents()), trace) == server.Contents()
      ensures Journaled(old(server.Contents()), ack.commandId, json.encode(ack), calls, trace, ok)
    {
      var id, raw := ack.commandId, json.encode(ack);
      ok, trace := false, [];
      ghost var store := server.Contents();
      for attempt := 0 to ATTEMPTS
        invariant server.Valid() && !ok && server.log == old(server.log) + trace
        invariant server.Contents() == Final(store, trace)
        invariant Open(store, id, raw, calls, trace, attempt)
      {
        ghost var before := trace;
        var decided;
        ghost var more;
        decided, ok, more := Attempt(id, raw, calls[2 * attempt], calls[2 * attempt + 1]);
        trace := before + more;
        FinalConcat(store, before, more);
        RecordOutcome(store, id, raw, calls, before, attempt, more, decided, ok);
        if decided { return; }
      }
    }
  }

  // ----- how the calls of a Record add up

  /** What the writing call of an attempt does to the contents it follows. */
  ghost predicate PutBack(base: Option<Data>, id: string, raw: string, put: Call,
                          trace: seq<Write>, decided: bool, ok: bool) {
    && Lawful(base, trace, id, raw) && Others(trace) == Foreign(put.edits)
    && (ok ==> decided && LandedLast(base, trace))
    && (Benign(put) ==> Final(base, trace).Some? && (decided ==> ok))
    && (put.edits == [] ==> Alone(put.fault, base.Some?, trace, decided, ok))
  }

  /** A writing call among no other writers. */
  predicate Alone(fault: Fault, there: bool, trace: seq<Write>, decided: bool, ok: bool) {
    && AllOwn(trace)
    && (trace != [] <==> !fault.RequestLost?)
    && ok == (there && fault.Healthy?)
    && decided == (there || !fault.Healthy?)
  }

  lemma UpdateOutcome(data: Data, kept: Data, put: Call)
    ensures var trace := Foreign(put.edits) + Ours(Updates(put), kept);
            && (put == QUIET ==> LandedLast(Some(data), trace))
            && (Benign(put) ==> Final(Some(data), trace).Some?)
  {
    if Benign(put) && put.edits != [] {
      assert put.edits[|put.edits| - 1] in put.edits;
    }
  }

  /** What a whole attempt does: nothing of ours when its read is not served, otherwise its writing call. */
  ghost predicate Tried(store: Option<Data>, id: string, raw: string, get: Call, put: Call, trace: seq<Write>,
                        decided: bool, ok: bool) {
    && Lawful(store, trace, id, raw)
    && Others(trace) == Foreign(get.edits) + (if get.fault.Healthy? then Foreign(put.edits) else [])
    && (!decided ==> get.fault.Healthy?)
    && (ok ==> decided && LandedLast(store, trace))
    && (Benign(get) && Benign(put) ==> Final(store, trace).Some? && (decided ==> ok))
    && (get == QUIET && put == QUIET && store.Some? ==> ok)
    && (get.edits == [] && put.edits == [] ==>
          if get.fault.Healthy? then Alone(put.fault, store.Some?, trace, decided, ok)
          else trace == [] && decided && !ok)
  }

  lemma AttemptOutcome(store: Option<Data>, id: string, raw: string, get: Call, put: Call, second: seq<Write>,
                       decided: bool, ok: bool)
    requires get.fault.Healthy? ==> PutBack(Final(store, Foreign(get.edits)), id, raw, put, second, decided, ok)
    requires !get.fault.Healthy? ==> second == [] && decided && !ok
    ensures Tried(store, id, raw, get, put, Foreign(get.edits) + second, decided, ok)
    ensures Final(store, Foreign(get.edits) + second) == Final(Final(store, Foreign(get.edits)), second)
  {
    var first := Foreign(get.edits);
    LawfulConcat(store, first, second, id, raw);
    OthersConcat(first, second);
    OthersOfForeign(first);
    if get.edits == [] { assert first + second == second; }
  }

  /** Between two attempts of a Record: everything so far is lawful, and what the schedule allows to remain. */
  ghost predicate Open(store: Option<Data>, id: string, raw: string, calls: seq<Call>, trace: seq<Write>, attempt: nat)
    requires |calls| == 2 * ATTEMPTS
  {
    && Lawful(store, trace, id, raw)
    && attempt <= ATTEMPTS && Others(trace) == AllForeign(calls[..2 * attempt])
    && (Absorbable(calls) ==> attempt < ATTEMPTS && (attempt > 0 ==> Final(store, trace).Some?))
    && (attempt == 0 ==> trace == [])
    && (Undisturbed(calls) && attempt > 0 ==> attempt == 1 && Created(store, calls, trace))
  }

  /** The first attempt created the object. */
  ghost predicate Created(store: Option<Data>, calls: seq<Call>, trace: seq<Write>)
    requires |calls| == 2 * ATTEMPTS
  {
    AllOwn(trace) && trace != [] && store == None && calls[0].fault.Healthy? && calls[1].fault.Healthy?
  }

  lemma LandedLater(store: Option<Data>, a: seq<Write>, b: seq<Write>)
    requires LandedLast(Final(store, a), b)
    ensures LandedLast(store, a + b)
  {
    assert (a + b)[|a + b| - 1] == b[|b| - 1];
  }

  /** Among no other writers the first attempt decides, or creates the object and the second decides. */
  lemma AloneOutcome(store: Option<Data>, calls: seq<Call>, trace: seq<Write>, attempt: nat, more: seq<Write>,
                     decided: bool, ok: bool)
    requires Undisturbed(calls) && attempt <= 1 && (if attempt == 0 then trace == [] else Created(store, calls, trace))
    requires var get, put := calls[2 * attempt].fault, calls[2 * attempt + 1].fault;
             if get.Healthy? then Alone(put, Final(store, trace).Some?, more, decided, ok)
             else more == [] && decided && !ok
    requires attempt == 1 ==> Final(store, trace).Some?
    ensures AllOwn(trace + more)
    ensures decided ==> (trace + more != [] <==> Lands(calls)) && ok == Works(calls, store.Some?)
    ensures !decided ==> attempt == 0 && Created(store, calls, trace + more) && !ok
  {
  }

  lemma CreatedIsThere(store: Option<Data>, id: string, raw: string, trace: seq<Write>)
    requires Lawful(store, trace, id, raw) && AllOwn(trace) && trace != []
    ensures Final(store, trace).Some?
  {
    var n := |trace| - 1;
    assert trace[n].own && OwnWrite(Before(store, trace, n), id, raw, trace[n].data);
  }

  lemma InThree(a: seq<Write>, b: seq<Write>, c: seq<Write>)
    ensures a + b + c == a + (b + c)
  {
  }

  lemma AllForeignTwo(calls: seq<Call>, i: nat)
    requires i + 1 < |calls|
    ensures AllForeign(calls[..i + 2]) ==
            AllForeign(calls[..i]) + (Foreign(calls[i].edits) + Foreign(calls[i + 1].edits))
  {
    AllForeignNext(calls, i);
    AllForeignNext(calls, i + 1);
    InThree(AllForeign(calls[..i]), Foreign(calls[i].edits), Foreign(calls[i + 1].edits));
  }

  /** Up to which call an attempt has got. */
  function Reached(calls: seq<Call>, attempt: nat): nat
    requires 2 * attempt < |calls|
  {
    if calls[2 * attempt].fault.Healthy? then 2 * attempt + 2 else 2 * attempt + 1
  }

  lemma OthersAddUp(calls: seq<Call>, attempt: nat)
    requires |calls| == 2 * ATTEMPTS && attempt < ATTEMPTS
    ensures var get, put := calls[2 * attempt], calls[2 * attempt + 1];
            AllForeign(calls[..Reached(calls, attempt)]) == AllForeign(calls[..2 * attempt]) +
            (Foreign(get.edits) + (if get.fault.Healthy? then Foreign(put.edits) else []))
  {
    if calls[2 * attempt].fault.Healthy? {
      AllForeignTwo(calls, 2 * attempt);
    } else {
      AllForeignNext(calls, 2 * attempt);
      assert Foreign(calls[2 * attempt].edits) + [] == Foreign(calls[2 * attempt].edits);
    }
  }

  lemma OthersSoFar(calls: seq<Call>, trace: seq<Write>, attempt: nat, more: seq<Write>)
    requires |calls| == 2 * ATTEMPTS && attempt < ATTEMPTS && Others(trace) == AllForeign(calls[..2 * attempt])
    requires var get, put := calls[2 * attempt], calls[2 * attempt + 1];
             Others(more) == Foreign(get.edits) + (if get.fault.Healthy? then Foreign(put.edits) else [])
    ensures Others(trace + more) == AllForeign(calls[..Reached(calls, attempt)])
  {
    OthersConcat(trace, more);
    OthersAddUp(calls, attempt);
  }

  lemma RecordOutcome(store: Option<Data>, id: string, raw: string, calls: seq<Call>, trace: seq<Write>, attempt: nat,
                      more: seq<Write>, decided: bool, ok: bool)
    requires |calls| == 2 * ATTEMPTS && attempt < ATTEMPTS && Open(store, id, raw, calls, trace, attempt)
    requires Tried(Final(store, trace), id, raw, calls[2 * attempt], calls[2 * attempt + 1], more, decided, ok)
    ensures decided ==> Journaled(store, id, raw, calls, trace + more, ok)
    ensures !decided ==> Open(store, id, raw, calls, trace + more, attempt + 1) && !ok
  {
    LawfulConcat(store, trace, more, id, raw);
    OthersSoFar(calls, trace, attempt, more);
    assert OnlyScheduled(calls, trace + more);
    if ok { LandedLater(store, trace, more); }
    if Undisturbed(calls) {
      if attempt == 1 { CreatedIsThere(store, id, raw, trace); }
      AloneOutcome(store, calls, trace, attempt, more, decided, ok);
    }
  }

  lemma FinalConcat(store: Option<Data>, a: seq<Write>, b: seq<Write>)
    ensures Final(store, a + b) == Final(Final(store, a), b)
  {
  }

  function Entries(store: Option<Data>): Data {
    if store.Some? then store.value else map[]
  }

  predicate Decodable(json: Json, data: Data) {
    forall id :: id in data ==> json.decode(data[id]).Some?
  }

  ghost predicate LoadedFrom(json: Json, data: Data, acks: map<string, Ack>) {
    && acks.Keys == data.Keys
    && forall id :: id in data ==> json.decode(data[id]) == Some(acks[id])
  }
}
