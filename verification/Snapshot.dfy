/** The snapshot and digest cache of internal/capability/aggregate.go, as functions of the watcher events. */
module Snapshot {
  import opened Common
  import opened Inventory
  import opened Checksum

  // ----- the keyed snapshot and its digest cache

  datatype State = State(snapshot: map<string, Capability>, digests: map<string, string>)

  const EMPTY: State := State(map[], map[])

  predicate HasPrefix(s: string, p: string) {
    p <= s
  }

  predicate OccursAt(s: string, p: string, i: int) {
    0 <= i && i + |p| <= |s| && s[i..i + |p|] == p
  }

  predicate Contains(s: string, p: string) {
    exists i :: 0 <= i <= |s| && OccursAt(s, p, i)
  }

  /** The key test of a name-only DELETE. */
  predicate NameMatch(c: Capability, key: string) {
    HasPrefix(key, c.kind + "/") && Contains(key, "/" + c.name + "/")
  }

  /** The keys a DELETE drops from a snapshot. */
  ghost function Doomed(snapshot: map<string, Capability>, c: Capability): set<string> {
    {Key(c)} + if c.group == "" then set k | k in snapshot && NameMatch(c, k) else {}
  }

  /** The upsert/delete rule on the snapshot alone; the gateway folds the updates with the same rule. */
  ghost function Fold(snapshot: map<string, Capability>, c: Capability): map<string, Capability> {
    if c.action == Delete then snapshot - Doomed(snapshot, c) else snapshot[Key(c) := c]
  }

  ghost function Apply(w: Codec, s: State, c: Capability): State {
    State(Fold(s.snapshot, c),
          if c.action == Delete then s.digests - Doomed(s.snapshot, c)
          else WithDigest(w, s.digests, c))
  }

  ghost function FoldAll(snapshot: map<string, Capability>, cs: seq<Capability>): map<string, Capability> {
    if cs == [] then snapshot else Fold(FoldAll(snapshot, cs[..|cs| - 1]), cs[|cs| - 1])
  }

  ghost function ApplyAll(w: Codec, s: State, cs: seq<Capability>): State {
    if cs == [] then s else Apply(w, ApplyAll(w, s, cs[..|cs| - 1]), cs[|cs| - 1])
  }

  /** Every key is its value's capability key, and only live entries have a cached digest. */
  ghost predicate WellKeyed(s: State) {
    && (forall k :: k in s.snapshot ==> Key(s.snapshot[k]) == k && s.snapshot[k].action != Delete)
    && s.digests.Keys <= s.snapshot.Keys
  }

  /** What a recomputation over the snapshot would cache. */
  function FreshDigests(w: Codec, snapshot: map<string, Capability>): map<string, string> {
    map k | k in snapshot && DigestCapability(w, snapshot[k]).Some? :: DigestCapability(w, snapshot[k]).value
  }

  lemma ApplyKeepsWellKeyed(w: Codec, s: State, c: Capability)
    requires WellKeyed(s)
    ensures WellKeyed(Apply(w, s, c))
  {
  }

  lemma FreshAfterDelete(w: Codec, m: map<string, Capability>, gone: set<string>)
    ensures FreshDigests(w, m - gone) == FreshDigests(w, m) - gone
  {
  }

  lemma FreshAfterUpsert(w: Codec, m: map<string, Capability>, c: Capability)
    ensures FreshDigests(w, m[Key(c) := c]) ==
            match DigestCapability(w, c)
            case None => FreshDigests(w, m) - {Key(c)}
            case Some(sum) => FreshDigests(w, m)[Key(c) := sum]
  {
  }

  /** The digest cache is what a recomputation would cache. */
  ghost predicate Exact(w: Codec, s: State) {
    s.digests == FreshDigests(w, s.snapshot)
  }

  /** An upsert that cannot be digested over an entry that could. */
  ghost predicate Spoils(w: Codec, s: State, c: Capability) {
    c.action != Delete && DigestCapability(w, c).None? && Key(c) in s.digests
  }

  /** Exactly one kind of event spoils an exact digest cache, by leaving the old digest behind. */
  lemma CacheExactness(w: Codec, s: State, c: Capability)
    requires Exact(w, s)
    ensures Exact(w, Apply(w, s, c)) <==> !Spoils(w, s, c)
  {
    if c.action == Delete {
      FreshAfterDelete(w, s.snapshot, Doomed(s.snapshot, c));
    } else {
      FreshAfterUpsert(w, s.snapshot, c);
      if DigestCapability(w, c).None? {
        assert Key(c) in s.digests <==> s.digests != s.digests - {Key(c)};
      }
    }
  }

  lemma {:induction false} RunKeepsWellKeyed(w: Codec, s: State, cs: seq<Capability>)
    requires WellKeyed(s)
    ensures WellKeyed(ApplyAll(w, s, cs))
    ensures ApplyAll(w, s, cs).snapshot == FoldAll(s.snapshot, cs)
  {
    if cs != [] {
      RunKeepsWellKeyed(w, s, cs[..|cs| - 1]);
      ApplyKeepsWellKeyed(w, ApplyAll(w, s, cs[..|cs| - 1]), cs[|cs| - 1]);
    }
  }

  /** The state after the first i events. */
  ghost function StateAt(w: Codec, s: State, cs: seq<Capability>, i: nat): State
    requires i <= |cs|
  {
    ApplyAll(w, s, cs[..i])
  }

  lemma StateAtNext(w: Codec, s: State, cs: seq<Capability>, i: nat)
    requires i < |cs|
    ensures StateAt(w, s, cs, i + 1) == Apply(w, StateAt(w, s, cs, i), cs[i])
  {
    assert cs[..i + 1][..i] == cs[..i];
  }

  /** No event meets a state it spoils. */
  ghost predicate NeverSpoiled(w: Codec, s: State, cs: seq<Capability>) {
    forall i :: 0 <= i < |cs| ==> !Spoils(w, StateAt(w, s, cs, i), cs[i])
  }

  lemma {:induction false} ExactUpTo(w: Codec, s: State, cs: seq<Capability>, i: nat)
    requires Exact(w, s) && NeverSpoiled(w, s, cs) && i <= |cs|
    ensures Exact(w, StateAt(w, s, cs, i))
    decreases i
  {
    if i > 0 {
      ExactUpTo(w, s, cs, i - 1);
      StateAtNext(w, s, cs, i - 1);
      CacheExactness(w, StateAt(w, s, cs, i - 1), cs[i - 1]);
    }
  }

  /** Over every sequence of events the cache is exact at every moment if and only if no event spoils it. */
  lemma CacheStaysExactIff(w: Codec, s: State, cs: seq<Capability>)
    requires Exact(w, s)
    ensures (forall i :: 0 <= i <= |cs| ==> Exact(w, StateAt(w, s, cs, i))) <==> NeverSpoiled(w, s, cs)
  {
    if NeverSpoiled(w, s, cs) {
      forall i | 0 <= i <= |cs|
        ensures Exact(w, StateAt(w, s, cs, i))
      {
        ExactUpTo(w, s, cs, i);
      }
    } else {
      var i :| 0 <= i < |cs| && Spoils(w, StateAt(w, s, cs, i), cs[i]);
      if Exact(w, StateAt(w, s, cs, i)) {
        CacheExactness(w, StateAt(w, s, cs, i), cs[i]);
        StateAtNext(w, s, cs, i);
        assert !Exact(w, StateAt(w, s, cs, i + 1));
      }
    }
  }

  lemma {:induction false} ApplyAllConcat(w: Codec, s: State, a: seq<Capability>, b: seq<Capability>)
    ensures ApplyAll(w, s, a + b) == ApplyAll(w, ApplyAll(w, s, a), b)
  {
    if b == [] {
      assert a + b == a;
    } else {
      assert (a + b)[..|a + b| - 1] == a + b[..|b| - 1];
      ApplyAllConcat(w, s, a, b[..|b| - 1]);
    }
  }

  lemma {:induction false} FoldAllConcat(m: map<string, Capability>, a: seq<Capability>, b: seq<Capability>)
    ensures FoldAll(m, a + b) == FoldAll(FoldAll(m, a), b)
  {
    if b == [] {
      assert a + b == a;
    } else {
      assert (a + b)[..|a + b| - 1] == a + b[..|b| - 1];
      FoldAllConcat(m, a, b[..|b| - 1]);
    }
  }

  // ----- incremental checksum against full recomputation

  /** `caps` lists each entry of the snapshot exactly once, in some order. */
  ghost predicate Lists(caps: seq<Capability>, snapshot: map<string, Capability>) {
    && |caps| == |snapshot|
    && (forall i :: 0 <= i < |caps| ==> Key(caps[i]) in snapshot && snapshot[Key(caps[i])] == caps[i])
    && (forall k :: k in snapshot ==> snapshot[k] in caps)
  }

  function Somes(caps: seq<Capability>): seq<Option<Capability>> {
    seq(|caps|, i requires 0 <= i < |caps| => Some(caps[i]))
  }

  function Listed(caps: seq<Capability>, snapshot: map<string, Capability>): map<string, Capability> {
    map k | k in snapshot && snapshot[k] in caps :: snapshot[k]
  }

  lemma ListedGrows(front: seq<Capability>, last: Capability, snapshot: map<string, Capability>)
    requires Key(last) in snapshot && snapshot[Key(last)] == last
    requires forall k :: k in snapshot ==> Key(snapshot[k]) == k
    ensures Listed(front + [last], snapshot) == Listed(front, snapshot)[Key(last) := last]
  {
  }

  lemma FreshAfterRepeat(w: Codec, m: map<string, Capability>, c: Capability)
    requires Key(c) in m ==> m[Key(c)] == c
    ensures FreshDigests(w, m[Key(c) := c]) == WithDigest(w, FreshDigests(w, m), c)
  {
    FreshAfterUpsert(w, m, c);
    if DigestCapability(w, c).None? {
      assert FreshDigests(w, m) - {Key(c)} == FreshDigests(w, m);
    }
  }

  /** Recomputation over a listing digests exactly the listed entries. */
  lemma {:induction false} ListDigestsOf(w: Codec, caps: seq<Capability>, snapshot: map<string, Capability>)
    requires forall i :: 0 <= i < |caps| ==> Key(caps[i]) in snapshot && snapshot[Key(caps[i])] == caps[i]
    requires forall k :: k in snapshot ==> Key(snapshot[k]) == k
    ensures ListDigests(w, Somes(caps)) == FreshDigests(w, Listed(caps, snapshot))
  {
    if caps != [] {
      var front, last := caps[..|caps| - 1], caps[|caps| - 1];
      assert caps == front + [last];
      assert Somes(caps)[..|caps| - 1] == Somes(front);
      ListDigestsOf(w, front, snapshot);
      ListedGrows(front, last, snapshot);
      FreshAfterRepeat(w, Listed(front, snapshot), last);
    }
  }

  /** An exact cache holds what recomputing over any listing of the snapshot would. */
  lemma CacheMatchesListing(w: Codec, s: State, caps: seq<Capability>)
    requires WellKeyed(s) && Exact(w, s) && Lists(caps, s.snapshot)
    ensures ListDigests(w, Somes(caps)) == s.digests
  {
    ListDigestsOf(w, caps, s.snapshot);
    assert Listed(caps, s.snapshot) == s.snapshot;
  }

  /** The incremental checksum equals the checksum recomputed over the snapshot listed in any order, after
      every sequence of upserts, deletes and name-only deletes that does not spoil the cache. */
  lemma IncrementalChecksumIsExact(w: Codec, cs: seq<Capability>, caps: seq<Capability>)
    requires NeverSpoiled(w, EMPTY, cs)
    requires Lists(caps, ApplyAll(w, EMPTY, cs).snapshot)
    ensures Combined(w, ApplyAll(w, EMPTY, cs).digests) == Combined(w, ListDigests(w, Somes(caps)))
  {
    EmptyIsExact(w);
    RunKeepsWellKeyed(w, EMPTY, cs);
    ExactUpTo(w, EMPTY, cs, |cs|);
    assert cs[..|cs|] == cs;
    CacheMatchesListing(w, ApplyAll(w, EMPTY, cs), caps);
  }

  /** The same entries can be marshalled in both snapshots, and the hash does not collide on what they marshal to. */
  ghost predicate Comparable(w: Codec, a: map<string, Capability>, b: map<string, Capability>) {
    a.Keys == b.Keys && forall k :: k in a ==> ComparableEntries(w, a[k], b[k])
  }

  predicate ComparableEntries(w: Codec, x: Capability, y: Capability) {
    match (w.marshal(x), w.marshal(y))
    case (Some(p), Some(q)) => Apart(w.digest, p, q)
    case (None, None) => true
    case _ => false
  }

  lemma EntriesAgreeIff(w: Codec, x: Capability, y: Capability)
    requires ComparableEntries(w, x, y)
    ensures DigestCapability(w, x) == DigestCapability(w, y) <==> w.marshal(x) == w.marshal(y)
    ensures DigestCapability(w, x).Some? <==> DigestCapability(w, y).Some?
  {
  }

  lemma DigestsAgreeIff(w: Codec, a: map<string, Capability>, b: map<string, Capability>)
    requires Comparable(w, a, b)
    ensures FreshDigests(w, a).Keys == FreshDigests(w, b).Keys
    ensures FreshDigests(w, a) == FreshDigests(w, b) <==> forall k :: k in a ==> w.marshal(a[k]) == w.marshal(b[k])
  {
    var x, y := FreshDigests(w, a), FreshDigests(w, b);
    forall k | k in a
      ensures k in x <==> k in y
      ensures w.marshal(a[k]) == w.marshal(b[k]) <==> (k in x && k in y ==> x[k] == y[k])
    {
      EntriesAgreeIff(w, a[k], b[k]);
    }
  }

  /** The checksum tells changed entries apart: two snapshots of the same keys have the same checksum if and only if
      every entry marshals alike, as long as the hashes do not collide on them. */
  lemma ChecksumDetectsChange(w: Codec, s: State, t: State, n: nat)
    requires Exact(w, s) && Exact(w, t) && Comparable(w, s.snapshot, t.snapshot)
    requires SameLength(s.digests, n) && SameLength(t.digests, n) && Apart(w.seal, Hashed(s.digests), Hashed(t.digests))
    ensures Combined(w, s.digests) == Combined(w, t.digests) <==>
            forall k :: k in s.snapshot ==> w.marshal(s.snapshot[k]) == w.marshal(t.snapshot[k])
  {
    DigestsAgreeIff(w, s.snapshot, t.snapshot);
    ChecksumTellsApart(w, s.digests, t.digests, n);
  }

  lemma EmptyIsExact(w: Codec)
    ensures WellKeyed(EMPTY) && Exact(w, EMPTY)
  {
  }

  // ----- which entries a name-only DELETE removes

  predicate SlashFree(s: string) {
    '/' !in s
  }

  predicate PlainIdentity(c: Capability) {
    SlashFree(c.kind) && SlashFree(c.group) && SlashFree(c.name) && SlashFree(c.version)
  }

  /** In a key of slash-free parts the slashes are exactly the three separators. */
  lemma KeySlashes(c: Capability, i: nat)
    requires PlainIdentity(c) && i < |Key(c)|
    ensures var a := |c.kind|; var b := a + 1 + |c.group|; var d := b + 1 + |c.name|;
            Key(c)[i] == '/' <==> i == a || i == b || i == d
  {
    var a := |c.kind|;
    var b := a + 1 + |c.group|;
    var d := b + 1 + |c.name|;
    var k := Key(c);
    assert k[a] == '/' && k[b] == '/' && k[d] == '/';
    if i < a { assert k[i] == c.kind[i]; }
    else if a < i < b { assert k[i] == c.group[i - a - 1]; }
    else if b < i < d { assert k[i] == c.name[i - b - 1]; }
    else if d < i { assert k[i] == c.version[i - d - 1]; }
  }

  lemma KindPrefix(c: Capability, kind: string)
    requires PlainIdentity(c) && SlashFree(kind)
    ensures HasPrefix(Key(c), kind + "/") <==> c.kind == kind
  {
    var k, p := Key(c), kind + "/";
    assert k == (c.kind + "/") + (c.group + "/" + c.name + "/" + c.version);
    if HasPrefix(k, p) {
      assert k[..|kind|] == p[..|kind|] == kind && k[|kind|] == p[|kind|] == '/';
      KeySlashes(c, |kind|);
      assert forall j :: 0 <= j < |kind| ==> k[j] == kind[j] != '/';
      assert k[|c.kind|] == '/' && k[..|c.kind|] == c.kind;
    }
  }

  lemma PartIsInside(c: Capability, name: string)
    requires c.group == name || c.name == name
    ensures Contains(Key(c), "/" + name + "/")
  {
    if c.group == name {
      assert Key(c) == c.kind + ("/" + name + "/") + (c.name + "/" + c.version);
      assert OccursAt(Key(c), "/" + name + "/", |c.kind|);
    } else {
      var head := c.kind + "/" + c.group;
      assert Key(c) == head + ("/" + name + "/") + c.version;
      assert OccursAt(Key(c), "/" + name + "/", |head|);
    }
  }

  /** A slash-delimited run without inner slashes lies between two neighbouring slashes. */
  lemma DelimitedRun(k: string, a: nat, b: nat, d: nat, name: string, i: int)
    requires a < b < d < |k| && forall j :: 0 <= j < |k| ==> (k[j] == '/' <==> j == a || j == b || j == d)
    requires SlashFree(name) && OccursAt(k, "/" + name + "/", i)
    ensures name == k[a + 1..b] || name == k[b + 1..d]
  {
    var p := "/" + name + "/";
    var run := k[i..i + |p|];
    assert run == p;
    assert forall j :: 0 <= j < |p| ==> k[i + j] == run[j];
    var e := i + |p| - 1;
    assert p[0] == '/' && p[|p| - 1] == '/';
    assert k[i + 0] == '/' && k[i + (|p| - 1)] == '/';
    assert forall j :: 0 <= j < |name| ==> k[i + 1 + j] == name[j];
    var inner := k[i + 1..e];
    assert inner == name;
    assert forall j :: i < j < e ==> k[j] == inner[j - i - 1] && inner[j - i - 1] in name;
    assert !(i < b < e) by { assert k[b] == '/'; }
  }

  lemma InnerPart(c: Capability, name: string)
    requires PlainIdentity(c) && SlashFree(name)
    ensures Contains(Key(c), "/" + name + "/") <==> c.group == name || c.name == name
  {
    if c.group == name || c.name == name {
      PartIsInside(c, name);
    }
    if Contains(Key(c), "/" + name + "/") {
      var i :| OccursAt(Key(c), "/" + name + "/", i);
      var a := |c.kind|;
      var b := a + 1 + |c.group|;
      var d := b + 1 + |c.name|;
      forall j | 0 <= j < |Key(c)|
        ensures Key(c)[j] == '/' <==> j == a || j == b || j == d
      {
        KeySlashes(c, j);
      }
      DelimitedRun(Key(c), a, b, d, name, i);
      assert Key(c)[a + 1..b] == c.group && Key(c)[b + 1..d] == c.name;
    }
  }

  /** The entries of a kind whose name or group equals a given name. */
  ghost function Related(m: map<string, Capability>, kind: string, name: string): set<string> {
    set k | k in m && m[k].kind == kind && (m[k].name == name || m[k].group == name)
  }

  lemma NameMatchMeans(c: Capability, e: Capability)
    requires PlainIdentity(c) && PlainIdentity(e)
    ensures NameMatch(c, Key(e)) <==> e.kind == c.kind && (e.name == c.name || e.group == c.name)
  {
    KindPrefix(e, c.kind);
    InnerPart(e, c.name);
  }

  /** A name-only DELETE removes, from snapshot and digests alike, precisely the entries of its kind whose
      name or group equals the given name. */
  lemma NameOnlyDelete(w: Codec, s: State, c: Capability)
    requires WellKeyed(s) && c.action == Delete && c.group == "" && PlainIdentity(c)
    requires forall k :: k in s.snapshot ==> PlainIdentity(s.snapshot[k])
    ensures Apply(w, s, c) == State(s.snapshot - Related(s.snapshot, c.kind, c.name),
                                    s.digests - Related(s.snapshot, c.kind, c.name))
  {
    forall k | k in s.snapshot
      ensures NameMatch(c, k) <==> k in Related(s.snapshot, c.kind, c.name)
    {
      NameMatchMeans(c, s.snapshot[k]);
    }
    NameMatchMeans(c, c);
    var doomed := Doomed(s.snapshot, c);
    assert doomed - {Key(c)} == Related(s.snapshot, c.kind, c.name) - {Key(c)};
    assert Key(c) in s.snapshot ==> Key(c) in Related(s.snapshot, c.kind, c.name);
  }

  /** The entries the DELETE event names: its kind and its name. */
  ghost function Named(m: map<string, Capability>, kind: string, name: string): set<string> {
    set k | k in m && m[k].kind == kind && m[k].name == name
  }

  ghost predicate GroupClash(m: map<string, Capability>, kind: string, name: string, k: string) {
    k in m && m[k].kind == kind && m[k].group == name && m[k].name != name
  }

  /** So the documented kind-and-name deletion is what happens exactly when no other tracked entry of that
      kind has the name as its group. */
  lemma DeletesByKindAndName(w: Codec, s: State, c: Capability)
    requires WellKeyed(s) && c.action == Delete && c.group == "" && PlainIdentity(c)
    requires forall k :: k in s.snapshot ==> PlainIdentity(s.snapshot[k])
    ensures Apply(w, s, c).snapshot == s.snapshot - Named(s.snapshot, c.kind, c.name)
            <==> forall k :: !GroupClash(s.snapshot, c.kind, c.name, k)
  {
    NameOnlyDelete(w, s, c);
    var related, named := Related(s.snapshot, c.kind, c.name), Named(s.snapshot, c.kind, c.name);
    if forall k :: !GroupClash(s.snapshot, c.kind, c.name, k) {
      assert forall k :: k in related ==> GroupClash(s.snapshot, c.kind, c.name, k) || k in named;
      assert related == named;
    } else {
      var k :| GroupClash(s.snapshot, c.kind, c.name, k);
      assert k in s.snapshot - named && k !in s.snapshot - related;
    }
  }
}
