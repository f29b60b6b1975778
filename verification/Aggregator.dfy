/** The Aggregator of internal/capability/aggregate.go: state updated in place, batching loop, chunked sends. */
module Aggregator {
  import opened Common
  import opened Inventory
  import opened Checksum
  import opened Snapshot
  import opened Splitter
  import opened Sync

  /** What one select of the batching loop can receive. */
  datatype Signal = Arrived(cap: Capability) | Closed | WindowElapsed | Cancelled {
    predicate EndsBatch() { Closed? || WindowElapsed? }
  }

  /** The signals up to here ran out or ended with a cancellation. */
  predicate Cancels(signals: seq<Signal>, used: nat)
    requires used <= |signals|
  {
    used == |signals| || (used > 0 && signals[used - 1].Cancelled?)
  }

  function Arrivals(signals: seq<Signal>): seq<Capability> {
    if signals == [] then [] else
      Arrivals(signals[..|signals| - 1]) +
      match signals[|signals| - 1]
      case Arrived(c) => [c]
      case _ => []
  }

  lemma TakeSignal(signals: seq<Signal>, pos: nat)
    requires pos < |signals|
    ensures Arrivals(signals[..pos + 1]) ==
            Arrivals(signals[..pos]) + if signals[pos].Arrived? then [signals[pos].cap] else []
  {
    assert signals[..pos + 1][..pos] == signals[..pos];
  }

  function MatchedIn(keys: set<string>, c: Capability): set<string> {
    set k | k in keys && NameMatch(c, k)
  }

  lemma MatchedGrows(keys: set<string>, k: string, c: Capability)
    ensures MatchedIn(keys + {k}, c) == MatchedIn(keys, c) + if NameMatch(c, k) then {k} else {}
  {
  }

  /** Removing the event's own key first and then the matches among the rest removes just the doomed keys. */
  lemma RemovedInTwo(snapshot: map<string, Capability>, digests: map<string, string>, c: Capability)
    requires c.action == Delete && c.group == ""
    ensures var matched := MatchedIn((snapshot - {Key(c)}).Keys, c);
            && snapshot - {Key(c)} - matched == snapshot - Doomed(snapshot, c)
            && digests - {Key(c)} - matched == digests - Doomed(snapshot, c)
  {
    assert {Key(c)} + MatchedIn((snapshot - {Key(c)}).Keys, c) == Doomed(snapshot, c);
  }

  /** One more batch: what it does to the state and what it adds to the updates. */
  lemma RunGrows(w: Codec, budget: nat, s: State, batches: seq<seq<Capability>>, batch: seq<Capability>)
    ensures Flatten(batches + [batch]) == Flatten(batches) + batch
    ensures ApplyAll(w, s, Flatten(batches) + batch) == ApplyAll(w, ApplyAll(w, s, Flatten(batches)), batch)
    ensures RunUpdates(w, budget, s, batches + [batch]) ==
            RunUpdates(w, budget, s, batches) + BatchUpdates(w, budget, ApplyAll(w, s, Flatten(batches) + batch), batch)
  {
    FlattenSnoc(batches, batch);
    ApplyAllConcat(w, s, Flatten(batches), batch);
    assert (batches + [batch])[..|batches|] == batches;
  }

  /** What a run of the batching loop has done: the arrivals `seen` were applied in order; all but `unsent` were
      grouped into batches; and the updates of those batches were sent as far as the client accepted them. */
  ghost predicate Ran(w: Codec, budget: nat, s0: State, accept0: nat, batches: seq<seq<Capability>>,
                      unsent: seq<Capability>, seen: seq<Capability>, s: State, log: seq<Update>, ok: bool) {
    var us := RunUpdates(w, budget, s0, batches);
    && Flatten(batches) + unsent == seen
    && s == ApplyAll(w, s0, seen)
    && ok == (|us| <= accept0)
    && log == us[..Min(|us|, accept0)]
  }

  /** The same between two batches, when nothing is pending and nothing was refused. */
  ghost predicate Served(w: Codec, budget: nat, s0: State, accept0: nat, batches: seq<seq<Capability>>,
                         seen: seq<Capability>, s: State, log: seq<Update>, accept: nat) {
    && Flatten(batches) == seen
    && s == ApplyAll(w, s0, seen)
    && log == RunUpdates(w, budget, s0, batches)
    && |log| + accept == accept0
  }

  lemma NothingYet(w: Codec, budget: nat, s0: State, accept0: nat)
    ensures Served(w, budget, s0, accept0, [], [], s0, [], accept0)
  {
  }

  /** Everything seen is served: nothing unsent, nothing refused. */
  lemma AllServed(w: Codec, budget: nat, s0: State, accept0: nat, batches: seq<seq<Capability>>,
                  seen: seq<Capability>, s: State, log: seq<Update>, accept: nat)
    requires Served(w, budget, s0, accept0, batches, seen, s, log, accept)
    ensures Ran(w, budget, s0, accept0, batches, [], seen, s, log, true)
  {
    assert Flatten(batches) + [] == seen;
  }

  /** One more batch, abandoned before anything of it was sent. */
  lemma BatchAbandoned(w: Codec, budget: nat, s0: State, accept0: nat, batches: seq<seq<Capability>>,
                       seen: seq<Capability>, s: State, log: seq<Update>, accept: nat, batch: seq<Capability>)
    requires Served(w, budget, s0, accept0, batches, seen, s, log, accept)
    ensures Ran(w, budget, s0, accept0, batches, batch, seen + batch, ApplyAll(w, s, batch), log, true)
  {
    RunGrows(w, budget, s0, batches, batch);
  }

  /** One more batch, sent in full. */
  lemma BatchSent(w: Codec, budget: nat, s0: State, accept0: nat, batches: seq<seq<Capability>>,
                  seen: seq<Capability>, s: State, log: seq<Update>, accept: nat, batch: seq<Capability>)
    requires Served(w, budget, s0, accept0, batches, seen, s, log, accept)
    requires |BatchUpdates(w, budget, ApplyAll(w, s, batch), batch)| <= accept
    ensures var more := BatchUpdates(w, budget, ApplyAll(w, s, batch), batch);
            Served(w, budget, s0, accept0, batches + [batch], seen + batch,
                   ApplyAll(w, s, batch), log + more, accept - |more|)
  {
    RunGrows(w, budget, s0, batches, batch);
  }

  /** One more batch, refused after some of its updates. */
  lemma BatchRefused(w: Codec, budget: nat, s0: State, accept0: nat, batches: seq<seq<Capability>>,
                     seen: seq<Capability>, s: State, log: seq<Update>, accept: nat, batch: seq<Capability>)
    requires Served(w, budget, s0, accept0, batches, seen, s, log, accept)
    requires |BatchUpdates(w, budget, ApplyAll(w, s, batch), batch)| > accept
    ensures var more := BatchUpdates(w, budget, ApplyAll(w, s, batch), batch);
            Ran(w, budget, s0, accept0, batches + [batch], [], seen + batch,
                ApplyAll(w, s, batch), log + more[..accept], false)
  {
    RunGrows(w, budget, s0, batches, batch);
    var more := BatchUpdates(w, budget, ApplyAll(w, s, batch), batch);
    assert Flatten(batches + [batch]) + [] == seen + batch;
    PrefixInto(log, more, accept);
  }

  /** The loop ends when a send is refused, the watchers close, the context is cancelled or the signals run out;
      only a cancellation leaves arrivals unsent. */
  predicate Ended(signals: seq<Signal>, used: nat, unsent: seq<Capability>, ok: bool)
    requires used <= |signals|
  {
    && (!ok || Cancels(signals, used) || (used > 0 && signals[used - 1].Closed?))
    && (unsent != [] ==> ok && Cancels(signals, used))
  }

  /** Where the loop stands after some signals: over, or with everything seen served. */
  ghost predicate Account(w: Codec, budget: nat, s0: State, accept0: nat, signals: seq<Signal>, used: nat,
                          batches: seq<seq<Capability>>, unsent: seq<Capability>, s: State, log: seq<Update>,
                          accept: nat, ok: bool, done: bool) {
    && used <= |signals|
    && if done
       then Ran(w, budget, s0, accept0, batches, unsent, Arrivals(signals[..used]), s, log, ok)
            && Ended(signals, used, unsent, ok)
       else ok && unsent == [] && Served(w, budget, s0, accept0, batches, Arrivals(signals[..used]), s, log, accept)
  }

  /** A signal that is no arrival: a stale window, or the end. */
  lemma AccountSignal(w: Codec, budget: nat, s0: State, accept0: nat, signals: seq<Signal>, pos: nat,
                      batches: seq<seq<Capability>>, s: State, log: seq<Update>, accept: nat)
    requires pos < |signals| && !signals[pos].Arrived?
    requires Served(w, budget, s0, accept0, batches, Arrivals(signals[..pos]), s, log, accept)
    ensures Account(w, budget, s0, accept0, signals, pos + 1, batches, [], s, log,
                    accept, true, !signals[pos].WindowElapsed?)
  {
    TakeSignal(signals, pos);
    assert Arrivals(signals[..pos]) + [] == Arrivals(signals[..pos]);
    AllServed(w, budget, s0, accept0, batches, Arrivals(signals[..pos]), s, log, accept);
  }

  /** One more batch: abandoned on cancellation, sent in full, or refused part-way. */
  lemma AccountBatch(w: Codec, budget: nat, s0: State, accept0: nat, signals: seq<Signal>, pos: nat, next: nat,
                     batches: seq<seq<Capability>>, s: State, log: seq<Update>, accept: nat,
                     batch: seq<Capability>, stop: bool)
    requires pos < next <= |signals| && Arrivals(signals[..next]) == Arrivals(signals[..pos]) + batch
    requires Served(w, budget, s0, accept0, batches, Arrivals(signals[..pos]), s, log, accept)
    requires stop ==> Cancels(signals, next)
    ensures var s' := ApplyAll(w, s, batch);
            var us := BatchUpdates(w, budget, s', batch);
            var n := if stop then 0 else Min(|us|, accept);
            var ok := stop || |us| <= accept;
            Account(w, budget, s0, accept0, signals, next, if stop then batches else batches + [batch],
                    if stop then batch else [], s', log + us[..n], accept - n, ok, stop || !ok)
  {
    var seen, us := Arrivals(signals[..pos]), BatchUpdates(w, budget, ApplyAll(w, s, batch), batch);
    assert log + us[..0] == log && us[..|us|] == us;
    if stop {
      BatchAbandoned(w, budget, s0, accept0, batches, seen, s, log, accept, batch);
    } else if |us| <= accept {
      BatchSent(w, budget, s0, accept0, batches, seen, s, log, accept, batch);
    } else {
      BatchRefused(w, budget, s0, accept0, batches, seen, s, log, accept, batch);
    }
  }

  lemma BatchArrivals(signals: seq<Signal>, pos: nat, next: nat, batch: seq<Capability>)
    requires pos < next <= |signals| && signals[pos].Arrived? && batch != [] && batch[0] == signals[pos].cap
    requires Arrivals(signals[..next]) == Arrivals(signals[..pos + 1]) + batch[1..]
    ensures Arrivals(signals[..next]) == Arrivals(signals[..pos]) + batch
  {
    TakeSignal(signals, pos);
    assert batch == [batch[0]] + batch[1..];
  }

  lemma SizedSnoc(batches: seq<seq<Capability>>, batch: seq<Capability>, maxBatch: nat)
    requires Sized(batches, maxBatch) && 1 <= |batch| <= maxBatch
    ensures Sized(batches + [batch], maxBatch)
  {
  }

  lemma PrefixInto(a: seq<Update>, b: seq<Update>, n: nat)
    requires n <= |b|
    ensures (a + b)[..|a| + n] == a + b[..n]
  {
  }

  lemma TerminalLast(us: seq<Update>, last: Update, accept: nat)
    ensures (us + [last])[..Min(|us| + 1, accept)] ==
            us[..Min(|us|, accept)] + if |us| < accept then [last] else []
  {
  }

  ghost predicate Sized(batches: seq<seq<Capability>>, maxBatch: nat) {
    forall i :: 0 <= i < |batches| ==> 1 <= |batches[i]| <= maxBatch
  }

  type Positive = n: nat | n > 0 witness 1

  class Aggregator {
    const w: Codec
    const maxBatch: Positive
    const maxBatchBytes: int
    var snapshot: map<string, Capability>
    var digests: map<string, string>
    /** The updates accepted by the stream client, in order. */
    var sent: seq<Update>
    /** How many more sends the client accepts before its context is cancelled. */
    var accept: nat

    constructor (w: Codec, maxBatch: int, maxBatchBytes: int, accept: nat)
      ensures View() == EMPTY && sent == [] && this.accept == accept
      ensures this.w == w && this.maxBatchBytes == maxBatchBytes
      ensures this.maxBatch == if maxBatch <= 0 then 64 else maxBatch
    {
      this.w := w;
      this.maxBatch := if maxBatch <= 0 then 64 else maxBatch;
      this.maxBatchBytes := maxBatchBytes;
      snapshot, digests, sent := map[], map[], [];
      this.accept := accept;
    }

    function View(): State
      reads this
    {
      State(snapshot, digests)
    }

    method CurrentChecksum() returns (sum: string)
      ensures sum == Combined(w, digests)
    {
      sum := ChecksumDigests(w, digests);
    }

    /** Drops from both maps every entry a name-only DELETE matches, ranging over the snapshot. */
    method RemoveMatches(c: Capability)
      modifies this`snapshot, this`digests
      ensures snapshot == old(snapshot) - MatchedIn(old(snapshot.Keys), c)
      ensures digests == old(digests) - MatchedIn(old(snapshot.Keys), c)
    {
      ghost var keys := snapshot.Keys;
      var todo := snapshot.Keys;
      while todo != {}
        invariant todo <= keys
        invariant snapshot == old(snapshot) - MatchedIn(keys - todo, c)
        invariant digests == old(digests) - MatchedIn(keys - todo, c)
        decreases todo
      {
        var k :| k in todo;
        MatchedGrows(keys - todo, k, c);
        assert keys - (todo - {k}) == keys - todo + {k};
        todo := todo - {k};
        if NameMatch(c, k) {
          snapshot := snapshot - {k};
          digests := digests - {k};
        }
      }
      assert keys - todo == keys;
    }

    method ApplyEvent(c: Capability)
      modifies this`snapshot, this`digests
      ensures View() == Apply(w, old(View()), c)
    {
      var key := Key(c);
      if c.action == Delete {
        snapshot := snapshot - {key};
        digests := digests - {key};
        if c.group == "" {
          RemoveMatches(c);
          RemovedInTwo(old(snapshot), old(digests), c);
        }
        return;
      }
      snapshot := snapshot[key := c];
      var sum := DigestCapability(w, c);
      if sum.Some? {
        digests := digests[key := sum.value];
      }
    }

    method SendChunk(fullSync: bool, caps: seq<Capability>, sum: string) returns (ok: bool)
      modifies this`sent, this`accept
      ensures ok == (old(accept) > 0)
      ensures sent == old(sent) + (if ok then [Update(fullSync, caps, sum)] else [])
      ensures accept == if ok then old(accept) - 1 else old(accept)
    {
      ok := accept > 0;
      if ok {
        sent := sent + [Update(fullSync, caps, sum)];
        accept := accept - 1;
      }
    }

    /** Sends chunks in order until one is refused. */
    method SendChunks(fullSync: bool, chunks: seq<seq<Capability>>, sum: string) returns (ok: bool)
      modifies this`sent, this`accept
      ensures ok == (|chunks| <= old(accept))
      ensures sent == old(sent) + Chunked(fullSync, sum, chunks)[..Min(|chunks|, old(accept))]
      ensures accept == old(accept) - Min(|chunks|, old(accept))
    {
      ok := true;
      for i := 0 to |chunks|
        invariant ok && i <= old(accept) && accept == old(accept) - i
        invariant sent == old(sent) + Chunked(fullSync, sum, chunks)[..i]
      {
        ok := SendChunk(fullSync, chunks[i], sum);
        if !ok { return; }
        assert Chunked(fullSync, sum, chunks)[..i + 1] ==
               Chunked(fullSync, sum, chunks)[..i] + [Update(fullSync, chunks[i], sum)];
      }
    }

    method Send(batch: seq<Capability>) returns (ok: bool)
      modifies this`sent, this`accept
      ensures var us := BatchUpdates(w, Budget(maxBatchBytes), View(), batch);
              && ok == (|us| <= old(accept))
              && sent == old(sent) + us[..Min(|us|, old(accept))]
              && accept == old(accept) - Min(|us|, old(accept))
    {
      var sum := CurrentChecksum();
      var chunks := SplitByByteBudget(batch, maxBatchBytes);
      ok := SendChunks(false, chunks, sum);
    }

    /** Copies the snapshot's entries in the arbitrary order of a map range. */
    method CopySnapshot() returns (caps: seq<Capability>)
      requires WellKeyed(View())
      ensures Lists(caps, snapshot)
    {
      caps := [];
      var todo := snapshot.Keys;
      while todo != {}
        invariant todo <= snapshot.Keys && |caps| + |todo| == |snapshot|
        invariant forall i :: 0 <= i < |caps| ==> Key(caps[i]) in snapshot && snapshot[Key(caps[i])] == caps[i]
        invariant forall k :: k in snapshot && k !in todo ==> snapshot[k] in caps
        decreases todo
      {
        var k :| k in todo;
        todo := todo - {k};
        caps := caps + [snapshot[k]];
      }
    }

    /** Sends chunks of a full sync and then the terminal update; a refused send ends it. */
    method SendFullSync(chunks: seq<seq<Capability>>, sum: string) returns (ok: bool)
      modifies this`sent, this`accept
      ensures var us := Chunked(true, sum, chunks) + [Update(true, [], sum)];
              && ok == (|us| <= old(accept))
              && sent == old(sent) + us[..Min(|us|, old(accept))]
              && accept == old(accept) - Min(|us|, old(accept))
    {
      TerminalLast(Chunked(true, sum, chunks), Update(true, [], sum), accept);
      ok := SendChunks(true, chunks, sum);
      if !ok { return; }
      ok := SendChunk(true, [], sum);
    }

    /** Splits a copy and sends it as a full sync with the checksum of the moment. */
    method SendReplay(caps: seq<Capability>) returns (ok: bool)
      modifies this`sent, this`accept
      ensures var us := ReplayUpdates(Budget(maxBatchBytes), caps, Combined(w, digests));
              && ok == (|us| <= old(accept))
              && sent == old(sent) + us[..Min(|us|, old(accept))]
              && accept == old(accept) - Min(|us|, old(accept))
    {
      var sum := CurrentChecksum();
      var chunks := SplitByByteBudget(caps, maxBatchBytes);
      ok := SendFullSync(chunks, sum);
    }

    /** A full replay sends a listing of the snapshot and then the terminal update. */
    method ReplayFullState() returns (ok: bool, ghost copy: seq<Capability>)
      requires WellKeyed(View())
      modifies this`sent, this`accept
      ensures Lists(copy, snapshot)
      ensures var us := ReplayUpdates(Budget(maxBatchBytes), copy, Combined(w, digests));
              && ok == (|us| <= old(accept))
              && sent == old(sent) + us[..Min(|us|, old(accept))]
              && accept == old(accept) - Min(|us|, old(accept))
    {
      var caps := CopySnapshot();
      copy := caps;
      ok := SendReplay(caps);
    }

    /** The batching loop, for every order in which its selects can be served. */
    method Run(signals: seq<Signal>)
      returns (ok: bool, ghost batches: seq<seq<Capability>>, ghost unsent: seq<Capability>, ghost used: nat,
               ghost log: seq<Update>)
      modifies this`snapshot, this`digests, this`sent, this`accept
      ensures used <= |signals| && sent == old(sent) + log && Sized(batches, maxBatch)
      ensures Ended(signals, used, unsent, ok)
      ensures Ran(w, Budget(maxBatchBytes), old(View()), old(accept), batches, unsent, Arrivals(signals[..used]),
                  View(), log, ok)
    {
      ok, batches, unsent, used, log := true, [], [], 0, [];
      ghost var s0, accept0 := View(), accept;
      NothingYet(w, Budget(maxBatchBytes), s0, accept0);
      var pos, done := 0, false;
      while pos < |signals| && !done
        invariant pos <= |signals| && used == pos && sent == old(sent) + log && Sized(batches, maxBatch)
        invariant Account(w, Budget(maxBatchBytes), s0, accept0, signals, pos, batches, unsent,
                          View(), log, accept, ok, done)
        decreases |signals| - pos
      {
        ghost var more;
        ok, done, pos, batches, unsent, more := Turn(signals, pos, s0, accept0, batches, log);
        used, log := pos, log + more;
      }
      if !done {
        AllServed(w, Budget(maxBatchBytes), s0, accept0, batches, Arrivals(signals[..pos]), View(), log, accept);
      }
    }

    /** One turn of the batching loop. */
    method Turn(signals: seq<Signal>, pos: nat, ghost s0: State, ghost accept0: nat,
                ghost before: seq<seq<Capability>>, ghost log: seq<Update>)
      returns (ok: bool, done: bool, next: nat, ghost batches: seq<seq<Capability>>, ghost unsent: seq<Capability>,
               ghost more: seq<Update>)
      requires pos < |signals| && Sized(before, maxBatch)
      requires Served(w, Budget(maxBatchBytes), s0, accept0, before, Arrivals(signals[..pos]), View(), log, accept)
      modifies this`snapshot, this`digests, this`sent, this`accept
      ensures pos < next <= |signals| && sent == old(sent) + more && Sized(batches, maxBatch)
      ensures Account(w, Budget(maxBatchBytes), s0, accept0, signals, next, batches, unsent,
                      View(), log + more, accept, ok, done)
    {
      ghost var s, left := View(), accept;
      ok, done, next, batches, unsent, more := true, !signals[pos].WindowElapsed?, pos + 1, before, [], [];
      if !signals[pos].Arrived? {
        assert log + more == log;
        AccountSignal(w, Budget(maxBatchBytes), s0, accept0, signals, pos, before, s, log, left);
        return;
      }
      var stop;
      ghost var batch;
      stop, next, ok, batch, more := ServeBatch(signals, pos + 1, signals[pos].cap);
      BatchArrivals(signals, pos, next, batch);
      SizedSnoc(before, batch, maxBatch);
      AccountBatch(w, Budget(maxBatchBytes), s0, accept0, signals, pos, next, before, s, log, left, batch, stop);
      done := stop || !ok;
      batches, unsent := if stop then before else before + [batch], if stop then batch else [];
    }

    /** One coalesced burst: drained, and sent unless the context ended first. */
    method ServeBatch(signals: seq<Signal>, start: nat, first: Capability)
      returns (stop: bool, next: nat, ok: bool, ghost batch: seq<Capability>, ghost log: seq<Update>)
      requires start <= |signals|
      modifies this`snapshot, this`digests, this`sent, this`accept
      ensures start <= next <= |signals|
      ensures 1 <= |batch| <= maxBatch && batch[0] == first
      ensures Arrivals(signals[..next]) == Arrivals(signals[..start]) + batch[1..] && (stop ==> Cancels(signals, next))
      ensures View() == ApplyAll(w, old(View()), batch) && sent == old(sent) + log
      ensures var us := BatchUpdates(w, Budget(maxBatchBytes), View(), batch);
              var n := if stop then 0 else Min(|us|, old(accept));
              ok == (stop || |us| <= old(accept)) && log == us[..n] && accept == old(accept) - n
    {
      var drained;
      drained, stop, next := Drain(signals, start, first);
      batch, ok := drained, true;
      ghost var us := BatchUpdates(w, Budget(maxBatchBytes), View(), batch);
      log := us[..0];
      if !stop {
        log := us[..Min(|us|, accept)];
        ok := Send(drained);
      }
    }

    /** Coalesces a burst: applies arrivals until the batch is full, the window elapses or input ends. */
    method Drain(signals: seq<Signal>, start: nat, first: Capability)
      returns (batch: seq<Capability>, stop: bool, next: nat)
      requires start <= |signals|
      modifies this`snapshot, this`digests
      ensures start <= next <= |signals|
      ensures 1 <= |batch| <= maxBatch && batch[0] == first
      ensures Arrivals(signals[..next]) == Arrivals(signals[..start]) + batch[1..]
      ensures View() == ApplyAll(w, old(View()), batch)
      ensures |batch| < maxBatch ==>
                if stop then Cancels(signals, next) else next > start && signals[next - 1].EndsBatch()
      ensures |batch| == maxBatch ==> !stop
    {
      batch, stop, next := [first], false, start;
      ApplyOne(w, old(View()), [], first);
      ApplyEvent(first);
      while |batch| < maxBatch
        invariant start <= next <= |signals|
        invariant 1 <= |batch| <= maxBatch && batch[0] == first && !stop
        invariant Arrivals(signals[..next]) == Arrivals(signals[..start]) + batch[1..]
        invariant View() == ApplyAll(w, old(View()), batch)
        decreases |signals| - next
      {
        if next == |signals| {
          stop := true;
          return;
        }
        TakeSignal(signals, next);
        var signal := signals[next];
        next := next + 1;
        match signal {
          case Arrived(c) =>
            ApplyOne(w, old(View()), batch, c);
            ApplyEvent(c);
            batch := batch + [c];
          case Cancelled =>
            stop := true;
            return;
          case _ =>
            return;
        }
      }
    }
  }

  lemma ApplyOne(w: Codec, s: State, cs: seq<Capability>, c: Capability)
    ensures ApplyAll(w, s, cs + [c]) == Apply(w, ApplyAll(w, s, cs), c)
  {
    assert (cs + [c])[..|cs|] == cs;
  }
}
