/** What the capability updates mean to a gateway that folds them: incremental batches, replay, abort. */
module Sync {
  import opened Common
  import opened Inventory
  import opened Checksum
  import opened Snapshot
  import opened Splitter

  datatype Update = Update(fullSync: bool, caps: seq<Capability>, checksum: string)

  function Chunked(fullSync: bool, sum: string, chunks: seq<seq<Capability>>): seq<Update> {
    seq(|chunks|, i requires 0 <= i < |chunks| => Update(fullSync, chunks[i], sum))
  }

  /** The updates of one coalesced batch: split to the budget, each with the post-batch checksum. */
  ghost function BatchUpdates(w: Codec, budget: nat, after: State, batch: seq<Capability>): seq<Update> {
    Chunked(false, Combined(w, after.digests), Split(budget, batch))
  }

  ghost function RunUpdates(w: Codec, budget: nat, s: State, batches: seq<seq<Capability>>): seq<Update> {
    if batches == [] then [] else
      var front, last := batches[..|batches| - 1], batches[|batches| - 1];
      RunUpdates(w, budget, s, front) + BatchUpdates(w, budget, ApplyAll(w, s, Flatten(batches)), last)
  }

  function ReplayUpdates(budget: nat, caps: seq<Capability>, sum: string): seq<Update> {
    Chunked(true, sum, Split(budget, caps)) + [Update(true, [], sum)]
  }

  // ----- the receiver

  /** The gateway's catalogue, and the keys a full sync in progress has listed so far. */
  datatype Gateway = Gateway(catalog: map<string, Capability>, listed: set<string>)

  function Keys(caps: seq<Capability>): set<string> {
    set c | c in caps :: Key(c)
  }

  predicate IsTerminal(u: Update) {
    u.fullSync && u.caps == []
  }

  /** Missing entries are deleted only on the empty full-sync update. */
  ghost function Receive(g: Gateway, u: Update): Gateway {
    if IsTerminal(u) then
      Gateway(map k | k in g.catalog && k in g.listed :: g.catalog[k], {})
    else
      Gateway(FoldAll(g.catalog, u.caps), if u.fullSync then g.listed + Keys(u.caps) else g.listed)
  }

  ghost function ReceiveAll(g: Gateway, us: seq<Update>): Gateway {
    if us == [] then g else Receive(ReceiveAll(g, us[..|us| - 1]), us[|us| - 1])
  }

  lemma {:induction false} ReceiveAllConcat(g: Gateway, a: seq<Update>, b: seq<Update>)
    ensures ReceiveAll(g, a + b) == ReceiveAll(ReceiveAll(g, a), b)
  {
    if b == [] {
      assert a + b == a;
    } else {
      assert (a + b)[..|a + b| - 1] == a + b[..|b| - 1];
      ReceiveAllConcat(g, a, b[..|b| - 1]);
    }
  }

  lemma KeysConcat(a: seq<Capability>, b: seq<Capability>)
    ensures Keys(a + b) == Keys(a) + Keys(b)
  {
  }

  /** Chunking is invisible to the receiver: non-empty chunks fold like their concatenation. */
  lemma {:induction false} ReceiveChunks(g: Gateway, fullSync: bool, sum: string, chunks: seq<seq<Capability>>)
    requires forall i :: 0 <= i < |chunks| ==> chunks[i] != []
    ensures ReceiveAll(g, Chunked(fullSync, sum, chunks)) ==
            Gateway(FoldAll(g.catalog, Flatten(chunks)),
                    if fullSync then g.listed + Keys(Flatten(chunks)) else g.listed)
  {
    if chunks != [] {
      var front, last := chunks[..|chunks| - 1], chunks[|chunks| - 1];
      assert chunks == front + [last];
      assert Chunked(fullSync, sum, chunks)[..|chunks| - 1] == Chunked(fullSync, sum, front);
      ReceiveChunks(g, fullSync, sum, front);
      FlattenSnoc(front, last);
      FoldAllConcat(g.catalog, Flatten(front), last);
      KeysConcat(Flatten(front), last);
    }
  }

  lemma SplitChunksNonEmpty(budget: nat, caps: seq<Capability>)
    ensures Flatten(Split(budget, caps)) == caps
    ensures forall i :: 0 <= i < |Split(budget, caps)| ==> Split(budget, caps)[i] != []
  {
    GreedyIsBest(budget, caps);
    forall i | 0 <= i < |Split(budget, caps)|
      ensures Split(budget, caps)[i] != []
    {
      assert Admissible(budget, Split(budget, caps)[i]);
    }
  }

  // ----- incremental updates

  /** A receiver that starts level with the aggregator holds exactly its snapshot after every batch. */
  lemma {:induction false} ReceiverTracksSnapshot(w: Codec, budget: nat, s: State,
                                                batches: seq<seq<Capability>>, g: Gateway)
    requires WellKeyed(s) && g.catalog == s.snapshot
    ensures ReceiveAll(g, RunUpdates(w, budget, s, batches)) ==
            Gateway(ApplyAll(w, s, Flatten(batches)).snapshot, g.listed)
  {
    if batches != [] {
      var front, last := batches[..|batches| - 1], batches[|batches| - 1];
      assert batches == front + [last];
      FlattenSnoc(front, last);
      ApplyAllConcat(w, s, Flatten(front), last);
      ReceiverTracksSnapshot(w, budget, s, front, g);
      RunKeepsWellKeyed(w, s, Flatten(front));
      var before := ApplyAll(w, s, Flatten(front));
      RunKeepsWellKeyed(w, before, last);
      SplitChunksNonEmpty(budget, last);
      var after := ApplyAll(w, s, Flatten(batches));
      ReceiveChunks(Gateway(before.snapshot, g.listed), false, Combined(w, after.digests), Split(budget, last));
      ReceiveAllConcat(g, RunUpdates(w, budget, s, front), BatchUpdates(w, budget, after, last));
    }
  }

  /** Every chunk of the last batch carries the checksum a receiver recomputes over its own catalogue,
      listed in any order, once that batch has arrived; `batches` may be any prefix of a run. */
  lemma ChunkChecksumsDescribeReceiver(w: Codec, budget: nat, batches: seq<seq<Capability>>,
                                       u: Update, listing: seq<Capability>)
    requires batches != [] && NeverSpoiled(w, EMPTY, Flatten(batches))
    requires u in BatchUpdates(w, budget, ApplyAll(w, EMPTY, Flatten(batches)), batches[|batches| - 1])
    requires Lists(listing, ReceiveAll(Gateway(map[], {}), RunUpdates(w, budget, EMPTY, batches)).catalog)
    ensures u in RunUpdates(w, budget, EMPTY, batches)
    ensures u.checksum == Combined(w, ListDigests(w, Somes(listing)))
  {
    ReceiverTracksSnapshot(w, budget, EMPTY, batches, Gateway(map[], {}));
    IncrementalChecksumIsExact(w, Flatten(batches), listing);
  }

  // ----- full-state replay

  ghost predicate Live(snapshot: map<string, Capability>) {
    forall k :: k in snapshot ==> Key(snapshot[k]) == k && snapshot[k].action != Delete
  }

  lemma OverlayUpsert(m: map<string, Capability>, l: map<string, Capability>, c: Capability)
    ensures (m + l)[Key(c) := c] == m + l[Key(c) := c]
  {
  }

  /** Folding listed live entries overwrites their keys and touches nothing else. */
  lemma {:induction false} FoldListed(m: map<string, Capability>, caps: seq<Capability>,
                                    snapshot: map<string, Capability>)
    requires Live(snapshot)
    requires forall i :: 0 <= i < |caps| ==> Key(caps[i]) in snapshot && snapshot[Key(caps[i])] == caps[i]
    ensures FoldAll(m, caps) == m + Listed(caps, snapshot)
  {
    if caps != [] {
      var front, last := caps[..|caps| - 1], caps[|caps| - 1];
      assert caps == front + [last];
      FoldListed(m, front, snapshot);
      ListedGrows(front, last, snapshot);
      OverlayUpsert(m, Listed(front, snapshot), last);
      assert last.action != Delete by { assert caps[|caps| - 1] == last; }
    }
  }

  lemma WholeListing(caps: seq<Capability>, snapshot: map<string, Capability>)
    requires Live(snapshot) && Lists(caps, snapshot)
    ensures Listed(caps, snapshot) == snapshot && Keys(caps) == snapshot.Keys
  {
    forall k | k in snapshot
      ensures k in Keys(caps)
    {
      assert snapshot[k] in caps && Key(snapshot[k]) == k;
    }
  }

  lemma FinishSync(g: Gateway, snapshot: map<string, Capability>, u: Update)
    requires IsTerminal(u)
    ensures Receive(Gateway(g.catalog + snapshot, snapshot.Keys), u) == Gateway(snapshot, {})
  {
  }

  lemma BeforeTerminal(budget: nat, caps: seq<Capability>, snapshot: map<string, Capability>, sum: string, g: Gateway)
    requires Live(snapshot) && Lists(caps, snapshot) && g.listed == {}
    ensures ReceiveAll(g, Chunked(true, sum, Split(budget, caps))) == Gateway(g.catalog + snapshot, snapshot.Keys)
  {
    SplitChunksNonEmpty(budget, caps);
    WholeListing(caps, snapshot);
    FoldListed(g.catalog, caps, snapshot);
    ReceiveChunks(g, true, sum, Split(budget, caps));
  }

  /** A completed replay leaves the receiver with exactly the copied snapshot, whatever it held before. */
  lemma ReplayInstallsSnapshot(budget: nat, caps: seq<Capability>, snapshot: map<string, Capability>,
                               sum: string, g: Gateway)
    requires Live(snapshot) && Lists(caps, snapshot) && g.listed == {}
    ensures ReceiveAll(g, ReplayUpdates(budget, caps, sum)) == Gateway(snapshot, {})
  {
    var chunks, terminal := Chunked(true, sum, Split(budget, caps)), Update(true, [], sum);
    assert ReplayUpdates(budget, caps, sum)[..|chunks|] == chunks;
    BeforeTerminal(budget, caps, snapshot, sum, g);
    FinishSync(g, snapshot, terminal);
  }

  /** Every update of a replay, the terminal one included, carries the checksum recomputed over the copied snapshot,
      listed in any order, when no event falls between the copy and the checksum. */
  lemma ReplayChecksumsDescribeCopy(w: Codec, budget: nat, s: State, caps: seq<Capability>, u: Update,
                                    listing: seq<Capability>)
    requires WellKeyed(s) && Exact(w, s) && Lists(listing, s.snapshot)
    requires u in ReplayUpdates(budget, caps, Combined(w, s.digests))
    ensures u.fullSync && u.checksum == Combined(w, ListDigests(w, Somes(listing)))
  {
    CacheMatchesListing(w, s, listing);
  }

  /** A replay cut off after n chunks has refreshed the entries of those chunks and lost none. */
  lemma AbortedReplayLosesNothing(budget: nat, caps: seq<Capability>, snapshot: map<string, Capability>, sum: string,
                                  g: Gateway, n: nat)
    requires Live(snapshot) && Lists(caps, snapshot) && n <= |Split(budget, caps)|
    ensures var g' := ReceiveAll(g, ReplayUpdates(budget, caps, sum)[..n]);
            var seen := Flatten(Split(budget, caps)[..n]);
            g'.catalog == g.catalog + Listed(seen, snapshot) && g.catalog.Keys <= g'.catalog.Keys
  {
    var chunks := Split(budget, caps);
    var front, rest := chunks[..n], chunks[n..];
    assert chunks == front + rest;
    SplitChunksNonEmpty(budget, caps);
    FlattenConcat(front, rest);
    var seen := Flatten(front);
    assert forall i :: 0 <= i < |seen| ==> seen[i] == caps[i];
    assert ReplayUpdates(budget, caps, sum)[..n] == Chunked(true, sum, front);
    ReceiveChunks(g, true, sum, front);
    FoldListed(g.catalog, seen, snapshot);
  }

  // ----- terminal updates

  function Terminals(us: seq<Update>): nat {
    if us == [] then 0 else Terminals(us[..|us| - 1]) + if IsTerminal(us[|us| - 1]) then 1 else 0
  }

  lemma {:induction false} TerminalsConcat(a: seq<Update>, b: seq<Update>)
    ensures Terminals(a + b) == Terminals(a) + Terminals(b)
  {
    if b == [] {
      assert a + b == a;
    } else {
      assert (a + b)[..|a + b| - 1] == a + b[..|b| - 1];
      TerminalsConcat(a, b[..|b| - 1]);
    }
  }

  lemma {:induction false} NoTerminals(us: seq<Update>)
    requires forall i :: 0 <= i < |us| ==> us[i].caps != []
    ensures Terminals(us) == 0
  {
    if us != [] { NoTerminals(us[..|us| - 1]); }
  }

  /** A replay of a copy with its checksum, cut off after some updates or complete. */
  datatype Replay = Replay(copy: seq<Capability>, sum: string, cut: nat)

  ghost function Replayed(budget: nat, r: Replay): seq<Update> {
    var us := ReplayUpdates(budget, r.copy, r.sum);
    us[..Min(r.cut, |us|)]
  }

  ghost predicate Completed(budget: nat, r: Replay) {
    |ReplayUpdates(budget, r.copy, r.sum)| <= r.cut
  }

  ghost function Replays(budget: nat, replays: seq<Replay>): seq<Update> {
    if replays == [] then [] else
      Replays(budget, replays[..|replays| - 1]) + Replayed(budget, replays[|replays| - 1])
  }

  ghost function Completions(budget: nat, replays: seq<Replay>): nat {
    if replays == [] then 0 else
      Completions(budget, replays[..|replays| - 1]) + if Completed(budget, replays[|replays| - 1]) then 1 else 0
  }

  // ----- the two senders: the batching loop, and the lifecycle loop that replays

  /** us interleaves a and b, each in its own order. */
  ghost predicate Merges(us: seq<Update>, a: seq<Update>, b: seq<Update>) {
    if us == [] then a == [] && b == []
    else
      var front, last := us[..|us| - 1], us[|us| - 1];
      || (a != [] && a[|a| - 1] == last && Merges(front, a[..|a| - 1], b))
      || (b != [] && b[|b| - 1] == last && Merges(front, a, b[..|b| - 1]))
  }

  ghost predicate Incremental(us: seq<Update>) {
    forall i :: 0 <= i < |us| ==> !us[i].fullSync
  }

  lemma {:induction false} TerminalsOfMerge(us: seq<Update>, a: seq<Update>, b: seq<Update>)
    requires Merges(us, a, b)
    ensures Terminals(us) == Terminals(a) + Terminals(b)
  {
    if us != [] {
      var front, last := us[..|us| - 1], us[|us| - 1];
      if a != [] && a[|a| - 1] == last && Merges(front, a[..|a| - 1], b) {
        TerminalsOfMerge(front, a[..|a| - 1], b);
      } else {
        TerminalsOfMerge(front, a, b[..|b| - 1]);
      }
    }
  }

  lemma {:induction false} RunNeverEmpty(w: Codec, budget: nat, s: State, batches: seq<seq<Capability>>)
    ensures forall i :: 0 <= i < |RunUpdates(w, budget, s, batches)| ==>
              !RunUpdates(w, budget, s, batches)[i].fullSync && RunUpdates(w, budget, s, batches)[i].caps != []
  {
    if batches != [] {
      RunNeverEmpty(w, budget, s, batches[..|batches| - 1]);
      SplitChunksNonEmpty(budget, batches[|batches| - 1]);
    }
  }

  lemma ReplayedTerminals(budget: nat, r: Replay)
    ensures Terminals(Replayed(budget, r)) == if Completed(budget, r) then 1 else 0
  {
    var out, front := Replayed(budget, r), Chunked(true, r.sum, Split(budget, r.copy));
    SplitChunksNonEmpty(budget, r.copy);
    if Completed(budget, r) {
      assert out[..|out| - 1] == front;
      NoTerminals(front);
    } else {
      assert out == front[..|out|];
      NoTerminals(out);
    }
  }

  lemma {:induction false} ReplaysTerminals(budget: nat, replays: seq<Replay>)
    ensures Terminals(Replays(budget, replays)) == Completions(budget, replays)
  {
    if replays != [] {
      var front, last := replays[..|replays| - 1], replays[|replays| - 1];
      ReplaysTerminals(budget, front);
      TerminalsConcat(Replays(budget, front), Replayed(budget, last));
      ReplayedTerminals(budget, last);
    }
  }

  /** However a run of batches and any number of replays, each cut off anywhere, interleave, the empty full-sync
      updates are exactly the completed replays. */
  lemma TerminalsAreCompletedReplays(w: Codec, budget: nat, s: State, batches: seq<seq<Capability>>, cut: nat,
                                     replays: seq<Replay>, us: seq<Update>)
    requires cut <= |RunUpdates(w, budget, s, batches)|
    requires Merges(us, RunUpdates(w, budget, s, batches)[..cut], Replays(budget, replays))
    ensures Terminals(us) == Completions(budget, replays)
  {
    RunNeverEmpty(w, budget, s, batches);
    NoTerminals(RunUpdates(w, budget, s, batches)[..cut]);
    ReplaysTerminals(budget, replays);
    TerminalsOfMerge(us, RunUpdates(w, budget, s, batches)[..cut], Replays(budget, replays));
  }
}
