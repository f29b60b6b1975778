/** The greedy byte-budget splitter of internal/capability/aggregate.go, and its optimality. */
module Splitter {
  import opened Common
  import opened Inventory

  const DEFAULT_MAX_BATCH_BYTES: nat := 2097152

  function Budget(maxBytes: int): nat {
    if maxBytes <= 0 then DEFAULT_MAX_BATCH_BYTES else maxBytes
  }

  /** Summed proto size of caps[i..j]. */
  function Cost(caps: seq<Capability>, i: nat, j: nat): nat
    requires i <= j <= |caps|
    decreases j
  {
    if i == j then 0 else Cost(caps, i, j - 1) + caps[j - 1].bytes
  }

  /** A chunk may exceed the budget only when it holds a single oversize member. */
  predicate Admissible(budget: nat, chunk: seq<Capability>) {
    chunk != [] && (|chunk| == 1 || Cost(chunk, 0, |chunk|) <= budget)
  }

  /** Every order-preserving split of caps into admissible chunks. */
  ghost predicate IsSplit(budget: nat, caps: seq<Capability>, chunks: seq<seq<Capability>>) {
    && Flatten(chunks) == caps
    && forall i :: 0 <= i < |chunks| ==> Admissible(budget, chunks[i])
  }

  /** Such a split with the fewest chunks. */
  ghost predicate IsBestSplit(budget: nat, caps: seq<Capability>, chunks: seq<seq<Capability>>) {
    IsSplit(budget, caps, chunks) && forall other :: IsSplit(budget, caps, other) ==> |chunks| <= |other|
  }

  lemma {:induction false} CostSplit(caps: seq<Capability>, i: nat, j: nat, k: nat)
    requires i <= j <= k <= |caps|
    ensures Cost(caps, i, k) == Cost(caps, i, j) + Cost(caps, j, k)
    decreases k
  {
    if j < k { CostSplit(caps, i, j, k - 1); }
  }

  lemma {:induction false} CostOfSlice(caps: seq<Capability>, i: nat, j: nat, n: nat)
    requires i <= j <= |caps| && n <= j - i
    ensures Cost(caps[i..j], 0, n) == Cost(caps, i, i + n)
    decreases n
  {
    if n > 0 { CostOfSlice(caps, i, j, n - 1); }
  }

  /** Where the greedy chunk that starts at i and already reaches n ends. */
  function End(budget: nat, caps: seq<Capability>, i: nat, n: nat): (r: nat)
    requires i <= n <= |caps|
    ensures n <= r <= |caps|
    decreases |caps| - n
  {
    if n < |caps| && Cost(caps, i, n + 1) <= budget then End(budget, caps, i, n + 1) else n
  }

  lemma {:induction false} EndSpec(budget: nat, caps: seq<Capability>, i: nat, n: nat)
    requires i <= n <= |caps|
    ensures End(budget, caps, i, n) > n ==> Cost(caps, i, End(budget, caps, i, n)) <= budget
    ensures forall m :: End(budget, caps, i, n) < m <= |caps| ==> Cost(caps, i, m) > budget
    decreases |caps| - n
  {
    if n < |caps| {
      if Cost(caps, i, n + 1) <= budget {
        EndSpec(budget, caps, i, n + 1);
      } else {
        forall m | n < m <= |caps|
          ensures Cost(caps, i, m) > budget
        {
          CostSplit(caps, i, n + 1, m);
        }
      }
    }
  }

  /** The split of caps[i..] that always takes the longest admissible chunk first. */
  function SplitFrom(budget: nat, caps: seq<Capability>, i: nat): seq<seq<Capability>>
    requires i <= |caps|
    decreases |caps| - i
  {
    if i == |caps| then []
    else
      var e := End(budget, caps, i, i + 1);
      [caps[i..e]] + SplitFrom(budget, caps, e)
  }

  function Split(budget: nat, caps: seq<Capability>): seq<seq<Capability>> {
    SplitFrom(budget, caps, 0)
  }

  lemma {:induction false} SplitFromIsSplit(budget: nat, caps: seq<Capability>, i: nat)
    requires i <= |caps|
    ensures IsSplit(budget, caps[i..], SplitFrom(budget, caps, i))
    decreases |caps| - i
  {
    if i < |caps| {
      var e := End(budget, caps, i, i + 1);
      EndSpec(budget, caps, i, i + 1);
      CostOfSlice(caps, i, e, e - i);
      SplitFromIsSplit(budget, caps, e);
      assert caps[i..] == caps[i..e] + caps[e..];
    }
  }

  /** Starting later never costs more chunks. */
  lemma {:induction false} SuffixNeedsNoMore(budget: nat, caps: seq<Capability>, i: nat, k: nat)
    requires i <= k <= |caps|
    ensures |SplitFrom(budget, caps, k)| <= |SplitFrom(budget, caps, i)|
    decreases |caps| - i
  {
    if k < |caps| {
      var e, f := End(budget, caps, i, i + 1), End(budget, caps, k, k + 1);
      if e <= k {
        SuffixNeedsNoMore(budget, caps, e, k);
      } else {
        EndSpec(budget, caps, i, i + 1);
        EndSpec(budget, caps, k, k + 1);
        CostSplit(caps, i, k, e);
        SuffixNeedsNoMore(budget, caps, e, f);
      }
    }
  }

  /** The greedy split uses the fewest chunks of all admissible order-preserving splits. */
  lemma {:induction false} SplitIsMinimal(budget: nat, caps: seq<Capability>, i: nat, other: seq<seq<Capability>>)
    requires i <= |caps| && IsSplit(budget, caps[i..], other)
    ensures |SplitFrom(budget, caps, i)| <= |other|
    decreases |other|
  {
    if i < |caps| {
      var e, m := End(budget, caps, i, i + 1), i + |other[0]|;
      assert caps[i..] == other[0] + Flatten(other[1..]);
      assert caps[i..m] == other[0] && caps[m..] == Flatten(other[1..]);
      CostOfSlice(caps, i, m, m - i);
      EndSpec(budget, caps, i, i + 1);
      SplitIsMinimal(budget, caps, m, other[1..]);
      SuffixNeedsNoMore(budget, caps, m, e);
    }
  }

  lemma GreedyIsBest(budget: nat, caps: seq<Capability>)
    ensures IsBestSplit(budget, caps, Split(budget, caps))
  {
    assert caps[0..] == caps;
    SplitFromIsSplit(budget, caps, 0);
    forall other | IsSplit(budget, caps, other)
      ensures |Split(budget, caps)| <= |other|
    {
      SplitIsMinimal(budget, caps, 0, other);
    }
  }

  /** Closing a greedy chunk moves it from what is left to split to what has been split. */
  lemma Flush(budget: nat, caps: seq<Capability>, chunks: seq<seq<Capability>>, begin: nat, i: nat)
    requires begin < i <= |caps| && End(budget, caps, begin, begin + 1) == i
    ensures chunks + SplitFrom(budget, caps, begin) == chunks + [caps[begin..i]] + SplitFrom(budget, caps, i)
  {
  }

  /** The loop: chunks closed so far, and the chunk being filled from `begin`. */
  method FillChunks(caps: seq<Capability>, budget: nat) returns (chunks: seq<seq<Capability>>)
    ensures chunks == Split(budget, caps)
  {
    chunks := [];
    var cur: seq<Capability> := [];
    var curBytes := 0;
    ghost var begin := 0;
    for i := 0 to |caps|
      invariant begin <= i && cur == caps[begin..i] && curBytes == Cost(caps, begin, i)
      invariant begin == i ==> i == 0
      invariant begin < i ==> End(budget, caps, begin, begin + 1) == End(budget, caps, begin, i)
      invariant Split(budget, caps) == chunks + SplitFrom(budget, caps, begin)
    {
      var sz := caps[i].bytes;
      if |cur| > 0 && curBytes + sz > budget {
        Flush(budget, caps, chunks, begin, i);
        chunks := chunks + [cur];
        cur := [];
        curBytes := 0;
        begin := i;
      }
      cur := cur + [caps[i]];
      curBytes := curBytes + sz;
    }
    if |cur| > 0 {
      Flush(budget, caps, chunks, begin, |caps|);
      chunks := chunks + [cur];
    }
    assert chunks + SplitFrom(budget, caps, |caps|) == chunks;
  }

  method SplitByByteBudget(caps: seq<Capability>, maxBytes: int) returns (chunks: seq<seq<Capability>>)
    ensures chunks == Split(Budget(maxBytes), caps)
    ensures IsBestSplit(if maxBytes > 0 then maxBytes else 2 * 1024 * 1024, caps, chunks)
  {
    var budget := if maxBytes <= 0 then DEFAULT_MAX_BATCH_BYTES else maxBytes;
    chunks := FillChunks(caps, budget);
    GreedyIsBest(budget, caps);
  }
}
