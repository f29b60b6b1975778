/** A full-state replay sent by the lifecycle loop while the batching loop keeps sending: what the gateway is left
    with when the chunks of internal/capability/aggregate.go interleave with incremental updates. */
module Overtaking {
  import opened Common
  import opened Inventory
  import opened Checksum
  import opened Snapshot
  import opened Splitter
  import opened Sync

  // ----- a catalogue entry is what the last event that touched it left

  function At(m: map<string, Capability>, k: string): Option<Capability> {
    if k in m then Some(m[k]) else None
  }

  /** The event decides about this key, whatever the catalogue holds. */
  predicate Touches(c: Capability, k: string) {
    Key(c) == k || (c.action == Delete && c.group == "" && NameMatch(c, k))
  }

  function Left(c: Capability): Option<Capability> {
    if c.action == Delete then None else Some(c)
  }

  function LastTouch(cs: seq<Capability>, k: string): Option<Capability> {
    if cs == [] then None
    else if Touches(cs[|cs| - 1], k) then Some(cs[|cs| - 1])
    else LastTouch(cs[..|cs| - 1], k)
  }

  lemma FoldAt(m: map<string, Capability>, c: Capability, k: string)
    ensures At(Fold(m, c), k) == if Touches(c, k) then Left(c) else At(m, k)
  {
  }

  lemma {:induction false} FoldAllAt(m: map<string, Capability>, cs: seq<Capability>, k: string)
    ensures At(FoldAll(m, cs), k) == if LastTouch(cs, k).Some? then Left(LastTouch(cs, k).value) else At(m, k)
  {
    if cs != [] {
      FoldAllAt(m, cs[..|cs| - 1], k);
      FoldAt(FoldAll(m, cs[..|cs| - 1]), cs[|cs| - 1], k);
    }
  }

  lemma {:induction false} LastTouchConcat(a: seq<Capability>, b: seq<Capability>, k: string)
    ensures LastTouch(a + b, k) == if LastTouch(b, k).Some? then LastTouch(b, k) else LastTouch(a, k)
  {
    if b == [] {
      assert a + b == a;
    } else {
      assert (a + b)[..|a + b| - 1] == a + b[..|b| - 1];
      LastTouchConcat(a, b[..|b| - 1], k);
    }
  }

  lemma SameEntries(m: map<string, Capability>, n: map<string, Capability>)
    requires forall k :: At(m, k) == At(n, k)
    ensures m == n
  {
    assert forall k :: k in m ==> At(m, k) == Some(m[k]) && k in n;
    assert forall k :: k in n ==> At(n, k) == Some(n[k]) && k in m;
  }

  /** Events a catalogue has already seen change nothing when they, and all that followed, are folded again. */
  lemma Refold(m: map<string, Capability>, seen: seq<Capability>, later: seq<Capability>)
    ensures FoldAll(FoldAll(m, seen), seen + later) == FoldAll(m, seen + later)
  {
    forall k
      ensures At(FoldAll(FoldAll(m, seen), seen + later), k) == At(FoldAll(m, seen + later), k)
    {
      FoldAllAt(FoldAll(m, seen), seen + later, k);
      FoldAllAt(m, seen, k);
      FoldAllAt(m, seen + later, k);
      LastTouchConcat(seen, later, k);
    }
    SameEntries(FoldAll(FoldAll(m, seen), seen + later), FoldAll(m, seen + later));
  }

  // ----- what a terminal update leaves

  function Events(us: seq<Update>): seq<Capability> {
    if us == [] then [] else Events(us[..|us| - 1]) + us[|us| - 1].caps
  }

  ghost function FullSyncKeys(us: seq<Update>): set<string> {
    if us == [] then {} else
      FullSyncKeys(us[..|us| - 1]) + if us[|us| - 1].fullSync then Keys(us[|us| - 1].caps) else {}
  }

  ghost predicate NoneTerminal(us: seq<Update>) {
    forall i :: 0 <= i < |us| ==> !IsTerminal(us[i])
  }

  lemma {:induction false} ReceiveEvents(g: Gateway, us: seq<Update>)
    requires NoneTerminal(us)
    ensures ReceiveAll(g, us) == Gateway(FoldAll(g.catalog, Events(us)), g.listed + FullSyncKeys(us))
  {
    if us != [] {
      ReceiveEvents(g, us[..|us| - 1]);
      FoldAllConcat(g.catalog, Events(us[..|us| - 1]), us[|us| - 1].caps);
    }
  }

  /** Whatever interleaved before it, an entry survives the terminal update if and only if the replay listed it and
      the catalogue still held it: an entry that only incremental updates brought is dropped again. */
  lemma SurvivesTerminalIff(g: Gateway, us: seq<Update>, terminal: Update, k: string)
    requires g.listed == {} && NoneTerminal(us) && IsTerminal(terminal)
    ensures ReceiveAll(g, us + [terminal]).listed == {}
    ensures At(ReceiveAll(g, us + [terminal]).catalog, k) ==
            if k in FullSyncKeys(us) then At(ReceiveAll(g, us).catalog, k) else None
  {
    ReceiveEvents(g, us);
    assert (us + [terminal])[..|us|] == us;
  }

  // ----- the two senders interleaved

  /** Whether the last update to touch an entry was the replay's: its chunk came after every incremental update
      about the entry. */
  function LastIsReplay(us: seq<Update>, k: string): Option<bool> {
    if us == [] then None
    else if LastTouch(us[|us| - 1].caps, k).Some? then Some(us[|us| - 1].fullSync)
    else LastIsReplay(us[..|us| - 1], k)
  }

  ghost predicate AllFullSync(us: seq<Update>) {
    forall i :: 0 <= i < |us| ==> us[i].fullSync
  }

  lemma LastTouchSnoc(us: seq<Update>, k: string)
    requires us != []
    ensures var last := us[|us| - 1];
            LastTouch(Events(us), k) ==
            if LastTouch(last.caps, k).Some? then LastTouch(last.caps, k) else LastTouch(Events(us[..|us| - 1]), k)
  {
    LastTouchConcat(Events(us[..|us| - 1]), us[|us| - 1].caps, k);
  }

  /** The last touch of an interleaving is the last touch of the sender who touched last. */
  lemma {:induction false} LastTouchOfMerge(us: seq<Update>, a: seq<Update>, b: seq<Update>, k: string)
    requires Merges(us, a, b) && Incremental(a) && AllFullSync(b)
    ensures LastTouch(Events(us), k) ==
            match LastIsReplay(us, k)
            case Some(true) => LastTouch(Events(b), k)
            case _ => LastTouch(Events(a), k)
    ensures LastTouch(Events(b), k).Some? ==> LastIsReplay(us, k).Some?
    ensures LastIsReplay(us, k).Some? ==> LastTouch(Events(us), k).Some?
    ensures LastIsReplay(us, k) == Some(false) ==> LastTouch(Events(a), k).Some?
    ensures LastIsReplay(us, k) == None ==> LastTouch(Events(a), k) == None
  {
    if us != [] {
      var front, last := us[..|us| - 1], us[|us| - 1];
      LastTouchSnoc(us, k);
      if a != [] && a[|a| - 1] == last && Merges(front, a[..|a| - 1], b) {
        LastTouchOfMerge(front, a[..|a| - 1], b, k);
        LastTouchSnoc(a, k);
      } else {
        LastTouchOfMerge(front, a, b[..|b| - 1], k);
        LastTouchSnoc(b, k);
      }
    }
  }

  lemma {:induction false} KeysOfMerge(us: seq<Update>, a: seq<Update>, b: seq<Update>)
    requires Merges(us, a, b) && Incremental(a) && AllFullSync(b)
    ensures FullSyncKeys(us) == Keys(Events(b))
  {
    if us != [] {
      var front, last := us[..|us| - 1], us[|us| - 1];
      if a != [] && a[|a| - 1] == last && Merges(front, a[..|a| - 1], b) {
        KeysOfMerge(front, a[..|a| - 1], b);
      } else {
        KeysOfMerge(front, a, b[..|b| - 1]);
        KeysConcat(Events(b[..|b| - 1]), last.caps);
      }
    }
  }

  lemma {:induction false} MergeNoneTerminal(us: seq<Update>, a: seq<Update>, b: seq<Update>)
    requires Merges(us, a, b) && NoneTerminal(a) && NoneTerminal(b)
    ensures NoneTerminal(us)
  {
    if us != [] {
      var front, last := us[..|us| - 1], us[|us| - 1];
      if a != [] && a[|a| - 1] == last && Merges(front, a[..|a| - 1], b) {
        MergeNoneTerminal(front, a[..|a| - 1], b);
      } else {
        MergeNoneTerminal(front, a, b[..|b| - 1]);
      }
    }
  }

  lemma {:induction false} ChunkedEvents(fullSync: bool, sum: string, chunks: seq<seq<Capability>>)
    ensures Events(Chunked(fullSync, sum, chunks)) == Flatten(chunks)
  {
    if chunks != [] {
      var front, last := chunks[..|chunks| - 1], chunks[|chunks| - 1];
      assert chunks == front + [last];
      assert Chunked(fullSync, sum, chunks)[..|chunks| - 1] == Chunked(fullSync, sum, front);
      ChunkedEvents(fullSync, sum, front);
      FlattenSnoc(front, last);
    }
  }

  /** A listed live entry is touched by itself alone. */
  lemma {:induction false} LastTouchOfListing(caps: seq<Capability>, snapshot: map<string, Capability>, k: string)
    requires Live(snapshot)
    requires forall i :: 0 <= i < |caps| ==> Key(caps[i]) in snapshot && snapshot[Key(caps[i])] == caps[i]
    ensures LastTouch(caps, k) == if k in Keys(caps) then At(snapshot, k) else None
    ensures k in Keys(caps) ==> k in snapshot
  {
    if caps != [] {
      var front, last := caps[..|caps| - 1], caps[|caps| - 1];
      assert caps == front + [last];
      LastTouchOfListing(front, snapshot, k);
      KeysConcat(front, [last]);
      assert last.action != Delete by { assert caps[|caps| - 1] == last; }
    }
  }

  /** A replay's chunks: full-sync, never terminal, listing just the copy. */
  lemma ChunksOf(budget: nat, copy: seq<Capability>, sum: string)
    ensures var b := Chunked(true, sum, Split(budget, copy)); AllFullSync(b) && NoneTerminal(b) && Events(b) == copy
  {
    SplitChunksNonEmpty(budget, copy);
    ChunkedEvents(true, sum, Split(budget, copy));
  }

  lemma CopyTouches(copy: seq<Capability>, snapshot: map<string, Capability>, k: string)
    requires Live(snapshot) && Lists(copy, snapshot)
    ensures Keys(copy) == snapshot.Keys && LastTouch(copy, k) == At(snapshot, k)
  {
    WholeListing(copy, snapshot);
    LastTouchOfListing(copy, snapshot, k);
  }

  // ----- what the gateway is left with

  /** The gateway after a replay of a copy, interleaved with incremental updates, and its terminal update. */
  ghost function AfterReplay(g: Gateway, us: seq<Update>, sum: string): Gateway {
    ReceiveAll(g, us + [Update(true, [], sum)])
  }

  ghost predicate Amid(us: seq<Update>, a: seq<Update>, budget: nat, copy: seq<Capability>,
                       snapshot: map<string, Capability>, sum: string) {
    && Live(snapshot) && Lists(copy, snapshot)
    && Incremental(a) && Merges(us, a, Chunked(true, sum, Split(budget, copy)))
  }

  /** Entry by entry: what the copy did not list is gone, what a chunk listed after the last incremental update
      about it is as in the copy, and everything else is up to date. */
  lemma EntryAfterReplay(g: Gateway, us: seq<Update>, a: seq<Update>, budget: nat, copy: seq<Capability>,
                         snapshot: map<string, Capability>, sum: string, k: string)
    requires g.listed == {} && Amid(us, a, budget, copy, snapshot, sum)
    ensures At(AfterReplay(g, us, sum).catalog, k) ==
            if k !in snapshot then None
            else if LastIsReplay(us, k) == Some(true) then Some(snapshot[k])
            else At(FoldAll(snapshot, Events(a)), k)
    ensures AfterReplay(g, us, sum).listed == {}
  {
    var b := Chunked(true, sum, Split(budget, copy));
    ChunksOf(budget, copy, sum);
    CopyTouches(copy, snapshot, k);
    MergeNoneTerminal(us, a, b);
    SurvivesTerminalIff(g, us, Update(true, [], sum), k);
    KeysOfMerge(us, a, b);
    ReceiveEvents(g, us);
    FoldAllAt(g.catalog, Events(us), k);
    FoldAllAt(snapshot, Events(a), k);
    LastTouchOfMerge(us, a, b, k);
  }

  /** Incremental updates left an entry the copy does not list. */
  predicate NewKey(a: seq<Update>, snapshot: map<string, Capability>, k: string) {
    && k !in snapshot
    && LastTouch(Events(a), k).Some? && LastTouch(Events(a), k).value.action != Delete
  }

  /** The entry's chunk was sent after incremental updates had deleted or replaced the entry. */
  predicate BroughtBack(us: seq<Update>, a: seq<Update>, snapshot: map<string, Capability>, k: string) {
    && k in snapshot && LastIsReplay(us, k) == Some(true)
    && LastTouch(Events(a), k).Some? && Left(LastTouch(Events(a), k).value) != Some(snapshot[k])
  }

  lemma EntryIsCurrentIff(g: Gateway, us: seq<Update>, a: seq<Update>, budget: nat, copy: seq<Capability>,
                          snapshot: map<string, Capability>, sum: string, k: string)
    requires g.listed == {} && Amid(us, a, budget, copy, snapshot, sum)
    ensures At(AfterReplay(g, us, sum).catalog, k) == At(FoldAll(snapshot, Events(a)), k)
            <==> !NewKey(a, snapshot, k) && !BroughtBack(us, a, snapshot, k)
  {
    EntryAfterReplay(g, us, a, budget, copy, snapshot, sum, k);
    FoldAllAt(snapshot, Events(a), k);
  }

  /** The replay left an entry wrong, and no later event puts it right. */
  predicate LeftWrong(us: seq<Update>, a: seq<Update>, later: seq<Capability>,
                      snapshot: map<string, Capability>, k: string) {
    LastTouch(later, k).None? && (NewKey(a, snapshot, k) || BroughtBack(us, a, snapshot, k))
  }

  lemma LaterEntryIff(g: Gateway, us: seq<Update>, a: seq<Update>, later: seq<Capability>, budget: nat,
                      copy: seq<Capability>, snapshot: map<string, Capability>, sum: string, k: string)
    requires g.listed == {} && Amid(us, a, budget, copy, snapshot, sum)
    ensures At(FoldAll(AfterReplay(g, us, sum).catalog, later), k) == At(FoldAll(snapshot, Events(a) + later), k)
            <==> !LeftWrong(us, a, later, snapshot, k)
  {
    EntryIsCurrentIff(g, us, a, budget, copy, snapshot, sum, k);
    FoldAllAt(AfterReplay(g, us, sum).catalog, later, k);
    FoldAllConcat(snapshot, Events(a), later);
    FoldAllAt(FoldAll(snapshot, Events(a)), later, k);
  }

  /** The gateway ends level with the events that followed the copy if and only if no entry is left wrong. */
  lemma ReplayAmidUpdates(g: Gateway, us: seq<Update>, a: seq<Update>, later: seq<Capability>, budget: nat,
                          copy: seq<Capability>, snapshot: map<string, Capability>, sum: string)
    requires g.listed == {} && Amid(us, a, budget, copy, snapshot, sum)
    ensures FoldAll(AfterReplay(g, us, sum).catalog, later) == FoldAll(snapshot, Events(a) + later)
            <==> forall k :: !LeftWrong(us, a, later, snapshot, k)
  {
    var holds, wants := FoldAll(AfterReplay(g, us, sum).catalog, later), FoldAll(snapshot, Events(a) + later);
    forall k
      ensures At(holds, k) == At(wants, k) <==> !LeftWrong(us, a, later, snapshot, k)
    {
      LaterEntryIff(g, us, a, later, budget, copy, snapshot, sum, k);
    }
    if forall k :: !LeftWrong(us, a, later, snapshot, k) {
      SameEntries(holds, wants);
    }
  }

  // ----- the same for a run of the aggregator

  lemma {:induction false} EventsConcat(a: seq<Update>, b: seq<Update>)
    ensures Events(a + b) == Events(a) + Events(b)
  {
    if b == [] {
      assert a + b == a;
    } else {
      assert (a + b)[..|a + b| - 1] == a + b[..|b| - 1];
      EventsConcat(a, b[..|b| - 1]);
    }
  }

  lemma BatchEvents(w: Codec, budget: nat, after: State, batch: seq<Capability>)
    ensures Events(BatchUpdates(w, budget, after, batch)) == batch
  {
    SplitChunksNonEmpty(budget, batch);
    ChunkedEvents(false, Combined(w, after.digests), Split(budget, batch));
  }

  /** The last batch of a run: its events at the end, its updates at the end. */
  lemma LastBatch(w: Codec, budget: nat, s: State, batches: seq<seq<Capability>>) returns (after: State)
    requires batches != []
    ensures var front, last := batches[..|batches| - 1], batches[|batches| - 1];
            && Flatten(batches) == Flatten(front) + last
            && RunUpdates(w, budget, s, batches) ==
               RunUpdates(w, budget, s, front) + BatchUpdates(w, budget, after, last)
  {
    var front, last := batches[..|batches| - 1], batches[|batches| - 1];
    after := ApplyAll(w, s, Flatten(batches));
    FlattenSnoc(front, last);
    assert front + [last] == batches;
  }

  lemma {:induction false} RunEvents(w: Codec, budget: nat, s: State, batches: seq<seq<Capability>>)
    ensures Events(RunUpdates(w, budget, s, batches)) == Flatten(batches)
  {
    if batches != [] {
      var front, last := batches[..|batches| - 1], batches[|batches| - 1];
      var before := RunUpdates(w, budget, s, front);
      var after := LastBatch(w, budget, s, batches);
      RunEvents(w, budget, s, front);
      BatchEvents(w, budget, after, last);
      EventsConcat(before, BatchUpdates(w, budget, after, last));
    }
  }

  lemma EventsInTwo(us: seq<Update>, cut: nat)
    requires cut <= |us|
    ensures Events(us[..cut]) + Events(us[cut..]) == Events(us)
  {
    assert us == us[..cut] + us[cut..];
    EventsConcat(us[..cut], us[cut..]);
  }

  lemma FlagsInTwo(us: seq<Update>, cut: nat)
    requires cut <= |us| && forall i :: 0 <= i < |us| ==> !us[i].fullSync && us[i].caps != []
    ensures Incremental(us[..cut]) && NoneTerminal(us[cut..])
  {
  }

  /** The updates of a run, before and after some point, carry its events in order and no full sync. */
  lemma RunInTwo(w: Codec, budget: nat, s: State, batches: seq<seq<Capability>>, cut: nat)
    requires cut <= |RunUpdates(w, budget, s, batches)|
    ensures var run := RunUpdates(w, budget, s, batches);
            && Incremental(run[..cut]) && NoneTerminal(run[cut..])
            && Events(run[..cut]) + Events(run[cut..]) == Flatten(batches)
  {
    RunNeverEmpty(w, budget, s, batches);
    RunEvents(w, budget, s, batches);
    EventsInTwo(RunUpdates(w, budget, s, batches), cut);
    FlagsInTwo(RunUpdates(w, budget, s, batches), cut);
  }

  /** Folding all events of a run over the snapshot in its midst gives the snapshot at its end. */
  lemma RunFromItsMidst(w: Codec, s: State, cs: seq<Capability>, n: nat)
    requires WellKeyed(s) && n <= |cs|
    ensures Live(StateAt(w, s, cs, n).snapshot)
    ensures FoldAll(StateAt(w, s, cs, n).snapshot, cs) == ApplyAll(w, s, cs).snapshot
  {
    RunKeepsWellKeyed(w, s, cs[..n]);
    RunKeepsWellKeyed(w, s, cs);
    assert cs == cs[..n] + cs[n..];
    Refold(s.snapshot, cs[..n], cs[n..]);
  }

  /** While the aggregator applies and sends batches from s, a replay copies the snapshot after n of the events; its
      chunks interleave with the first updates of the run, its terminal update follows, and the rest of the run
      comes after it. Whatever the gateway held before, it ends with exactly the aggregator's snapshot if and only
      if no entry the rest of the run leaves alone was new to the copy or listed by a chunk that came too late. */
  lemma ReplayAmidBatches(w: Codec, budget: nat, s: State, batches: seq<seq<Capability>>, n: nat, copy: seq<Capability>,
                          sum: string, us: seq<Update>, cut: nat, g: Gateway)
    requires WellKeyed(s) && g.listed == {} && n <= |Flatten(batches)| && cut <= |RunUpdates(w, budget, s, batches)|
    requires Lists(copy, StateAt(w, s, Flatten(batches), n).snapshot)
    requires Merges(us, RunUpdates(w, budget, s, batches)[..cut], Chunked(true, sum, Split(budget, copy)))
    ensures var run, snapshot := RunUpdates(w, budget, s, batches), StateAt(w, s, Flatten(batches), n).snapshot;
            ReceiveAll(AfterReplay(g, us, sum), run[cut..]).catalog == ApplyAll(w, s, Flatten(batches)).snapshot
            <==> forall k :: !LeftWrong(us, run[..cut], Events(run[cut..]), snapshot, k)
  {
    var run := RunUpdates(w, budget, s, batches);
    RunInTwo(w, budget, s, batches, cut);
    RunFromItsMidst(w, s, Flatten(batches), n);
    ReceiveEvents(AfterReplay(g, us, sum), run[cut..]);
    ReplayAmidUpdates(g, us, run[..cut], Events(run[cut..]), budget, copy,
                      StateAt(w, s, Flatten(batches), n).snapshot, sum);
  }

  // ----- chunks that come too late

  lemma {:induction false} MergesInTurn(a: seq<Update>, b: seq<Update>)
    ensures Merges(a + b, a, b)
  {
    if b != [] {
      MergesInTurn(a, b[..|b| - 1]);
      assert (a + b)[..|a + b| - 1] == a + b[..|b| - 1];
    } else if a != [] {
      MergesInTurn(a[..|a| - 1], b);
      assert (a + b)[..|a + b| - 1] == a[..|a| - 1] + b;
    }
  }

  lemma {:induction false} LastOfFullSync(a: seq<Update>, b: seq<Update>, k: string)
    requires AllFullSync(b) && LastTouch(Events(b), k).Some?
    ensures LastIsReplay(a + b, k) == Some(true)
  {
    if b != [] {
      assert (a + b)[..|a + b| - 1] == a + b[..|b| - 1];
      LastTouchSnoc(b, k);
      if LastTouch(b[|b| - 1].caps, k).None? {
        LastOfFullSync(a, b[..|b| - 1], k);
      }
    }
  }

  /** When the copy was taken but its chunks are sent after a batch's updates, the replay undoes the whole batch:
      what it deleted comes back, what it replaced is the old entry again, and what it added is gone. */
  lemma LateChunksUndoBatch(g: Gateway, a: seq<Update>, budget: nat, copy: seq<Capability>,
                            snapshot: map<string, Capability>, sum: string)
    requires g.listed == {} && Live(snapshot) && Lists(copy, snapshot) && Incremental(a)
    ensures AfterReplay(g, a + Chunked(true, sum, Split(budget, copy)), sum).catalog == snapshot
  {
    var b := Chunked(true, sum, Split(budget, copy));
    MergesInTurn(a, b);
    ChunksOf(budget, copy, sum);
    forall k
      ensures At(AfterReplay(g, a + b, sum).catalog, k) == At(snapshot, k)
    {
      CopyTouches(copy, snapshot, k);
      if k in snapshot { LastOfFullSync(a, b, k); }
      EntryAfterReplay(g, a + b, a, budget, copy, snapshot, sum, k);
    }
    SameEntries(AfterReplay(g, a + b, sum).catalog, snapshot);
  }

  // ----- the terminal update's checksum

  /** The incremental updates about this entry, if any, left it as the copy lists it. */
  predicate AsListed(a: seq<Update>, snapshot: map<string, Capability>, k: string) {
    LastTouch(Events(a), k).Some? ==> Left(LastTouch(Events(a), k).value) == At(snapshot, k)
  }

  lemma EntryIsListedIff(g: Gateway, us: seq<Update>, a: seq<Update>, budget: nat, copy: seq<Capability>,
                         snapshot: map<string, Capability>, sum: string, k: string)
    requires g.listed == {} && Amid(us, a, budget, copy, snapshot, sum)
    ensures At(AfterReplay(g, us, sum).catalog, k) == At(snapshot, k) <==>
            (k in snapshot && LastIsReplay(us, k) == Some(false) ==> AsListed(a, snapshot, k))
  {
    EntryAfterReplay(g, us, a, budget, copy, snapshot, sum, k);
    FoldAllAt(snapshot, Events(a), k);
    ChunksOf(budget, copy, sum);
    LastTouchOfMerge(us, a, Chunked(true, sum, Split(budget, copy)), k);
  }

  /** After the terminal update the gateway holds just the copy if and only if every listed entry with an incremental
      update after its chunk was left as it was listed. */
  lemma CopyIsInstalledIff(g: Gateway, us: seq<Update>, a: seq<Update>, budget: nat, copy: seq<Capability>,
                           snapshot: map<string, Capability>, sum: string)
    requires g.listed == {} && Amid(us, a, budget, copy, snapshot, sum)
    ensures AfterReplay(g, us, sum).catalog == snapshot <==>
            forall k :: k in snapshot && LastIsReplay(us, k) == Some(false) ==> AsListed(a, snapshot, k)
  {
    var after := AfterReplay(g, us, sum).catalog;
    forall k
      ensures At(after, k) == At(snapshot, k) <==>
              (k in snapshot && LastIsReplay(us, k) == Some(false) ==> AsListed(a, snapshot, k))
    {
      EntryIsListedIff(g, us, a, budget, copy, snapshot, sum, k);
    }
    if forall k :: k in snapshot && LastIsReplay(us, k) == Some(false) ==> AsListed(a, snapshot, k) {
      SameEntries(after, snapshot);
    }
  }

  /** The terminal update carries the checksum of the copy, so it does not reveal what the replay dropped: when the
      interleaved updates are all about entries the copy does not list, the gateway ends with the copy, its own
      recomputation agrees with the terminal update's checksum, and yet every entry those updates left is missing. */
  lemma DroppedEntriesGoUnnoticed(w: Codec, budget: nat, s: State, copy: seq<Capability>,
                                  us: seq<Update>, a: seq<Update>,
                                  g: Gateway, listing: seq<Capability>)
    requires WellKeyed(s) && Exact(w, s) && g.listed == {}
    requires Amid(us, a, budget, copy, s.snapshot, Combined(w, s.digests))
    requires forall k :: k in s.snapshot ==> LastTouch(Events(a), k).None?
    requires Lists(listing, AfterReplay(g, us, Combined(w, s.digests)).catalog)
    ensures AfterReplay(g, us, Combined(w, s.digests)).catalog == s.snapshot
    ensures Combined(w, s.digests) == Combined(w, ListDigests(w, Somes(listing)))
    ensures forall k :: NewKey(a, s.snapshot, k) ==> k in FoldAll(s.snapshot, Events(a)) && k !in s.snapshot
  {
    var sum := Combined(w, s.digests);
    CopyIsInstalledIff(g, us, a, budget, copy, s.snapshot, sum);
    CacheMatchesListing(w, s, listing);
    forall k | NewKey(a, s.snapshot, k)
      ensures k in FoldAll(s.snapshot, Events(a))
    {
      FoldAllAt(s.snapshot, Events(a), k);
    }
  }
}
