/** The full-state checksum of internal/capability/checksum.go: sorted keys, cached or recomputed digests. */
module Checksum {
  import opened Common
  import opened Inventory

  /** The encodings the agent relies on, left uninterpreted: deterministic proto marshalling
      (which may fail), SHA-256 of one message, and the hex SHA-256 of the combined stream. Byte slices
      and Go strings are both sequences of bytes, one char per byte. */
  datatype Codec = Codec(marshal: Capability -> Option<string>,
                         digest: string -> string,
                         seal: string -> string)

  function Key(c: Capability): string {
    c.kind + "/" + c.group + "/" + c.name + "/" + c.version
  }

  function DigestCapability(w: Codec, c: Capability): Option<string> {
    match w.marshal(c)
    case None => None
    case Some(raw) => Some(w.digest(raw))
  }

  // ----- the order of sort.Strings, and why sorted key lists are canonical

  predicate Less(a: string, b: string) {
    b != [] && (a == [] || a[0] < b[0] || (a[0] == b[0] && Less(a[1..], b[1..])))
  }

  /** The strings agree up to place i, where the first one ends or has the smaller character. */
  predicate SmallerAt(a: string, b: string, i: nat) {
    i <= |a| && i < |b| && a[..i] == b[..i] && (i == |a| || a[i] < b[i])
  }

  lemma SmallerLater(a: string, b: string, i: nat)
    requires a != [] && b != [] && a[0] == b[0]
    ensures SmallerAt(a, b, i + 1) <==> SmallerAt(a[1..], b[1..], i)
  {
    if i < |a| && i + 1 < |b| {
      assert a[..i + 1] == [a[0]] + a[1..][..i] && b[..i + 1] == [b[0]] + b[1..][..i];
    }
  }

  lemma HeadsInOrder(a: string, b: string, i: nat)
    requires SmallerAt(a, b, i)
    ensures a == [] || a[0] <= b[0]
  {
    if i > 0 { assert a[..i][0] == b[..i][0]; }
  }

  /** The order is the lexicographic one: decided at the first difference, a proper prefix coming first. */
  lemma {:induction false} LessIsLexicographic(a: string, b: string)
    ensures Less(a, b) <==> exists i: nat :: SmallerAt(a, b, i)
  {
    forall i: nat | SmallerAt(a, b, i)
      ensures a == [] || a[0] <= b[0]
      ensures i == 0 && a != [] ==> a[0] < b[0]
    {
      HeadsInOrder(a, b, i);
    }
    if a != [] && b != [] && a[0] == b[0] {
      LessIsLexicographic(a[1..], b[1..]);
      if Less(a, b) {
        var i: nat :| SmallerAt(a[1..], b[1..], i);
        SmallerLater(a, b, i);
      }
      if exists i: nat :: SmallerAt(a, b, i) {
        var i: nat :| SmallerAt(a, b, i);
        assert i > 0;
        SmallerLater(a, b, i - 1);
      }
    } else if Less(a, b) {
      assert SmallerAt(a, b, 0);
    }
  }

  lemma {:induction false} LessIrreflexive(a: string)
    ensures !Less(a, a)
  {
    if a != [] { LessIrreflexive(a[1..]); }
  }

  lemma {:induction false} LessTotal(a: string, b: string)
    ensures a == b || Less(a, b) || Less(b, a)
  {
    if a != [] && b != [] && a[0] == b[0] {
      LessTotal(a[1..], b[1..]);
      assert a == [a[0]] + a[1..] && b == [b[0]] + b[1..];
    }
  }

  lemma {:induction false} LessTransitive(a: string, b: string, c: string)
    requires Less(a, b) && Less(b, c)
    ensures Less(a, c)
  {
    if a != [] && a[0] == b[0] && b[0] == c[0] {
      LessTransitive(a[1..], b[1..], c[1..]);
    }
  }

  predicate StrictlySorted(keys: seq<string>) {
    forall i, j :: 0 <= i < j < |keys| ==> Less(keys[i], keys[j])
  }

  function Elements<T>(xs: seq<T>): set<T> {
    set x | x in xs
  }

  /** A set of keys has at most one strictly sorted listing. */
  lemma {:induction false} SortedListingUnique(a: seq<string>, b: seq<string>)
    requires StrictlySorted(a) && StrictlySorted(b) && Elements(a) == Elements(b)
    ensures a == b
  {
    if a == [] {
      assert forall i :: 0 <= i < |b| ==> b[i] in Elements(b);
    } else {
      assert a[0] in Elements(b);
      assert b != [] && b[0] in Elements(a);
      HeadIsLeast(a, b[0]);
      HeadIsLeast(b, a[0]);
      if a[0] != b[0] {
        LessTransitive(a[0], b[0], a[0]);
        LessIrreflexive(a[0]);
      }
      TailElements(a);
      TailElements(b);
      SortedListingUnique(a[1..], b[1..]);
      assert a == [a[0]] + a[1..] && b == [b[0]] + b[1..];
    }
  }

  lemma HeadIsLeast(a: seq<string>, k: string)
    requires StrictlySorted(a) && k in a
    ensures a[0] == k || Less(a[0], k)
  {
    var i :| 0 <= i < |a| && a[i] == k;
  }

  lemma TailElements(a: seq<string>)
    requires StrictlySorted(a) && a != []
    ensures Elements(a[1..]) == Elements(a) - {a[0]}
  {
    LessIrreflexive(a[0]);
    forall k | k in a && k != a[0]
      ensures k in a[1..]
    {
      var i :| 0 <= i < |a| && a[i] == k;
      assert a[1..][i - 1] == k;
    }
    assert forall i :: 0 <= i < |a[1..]| ==> Less(a[0], a[1..][i]);
  }

  /** Inserting into a strictly sorted list; the list model of one step of sort.Strings. */
  function Insert(k: string, keys: seq<string>): (r: seq<string>)
    ensures Elements(r) == Elements(keys) + {k}
  {
    if keys == [] then [k]
    else if Less(k, keys[0]) then [k] + keys
    else
      var tail := Insert(k, keys[1..]);
      assert keys == [keys[0]] + keys[1..];
      assert forall x :: x in [keys[0]] + tail <==> x == keys[0] || x in Elements(tail);
      [keys[0]] + tail
  }

  lemma {:induction false} InsertSorted(k: string, keys: seq<string>)
    requires StrictlySorted(keys) && k !in keys
    ensures StrictlySorted(Insert(k, keys))
  {
    if keys != [] {
      if Less(k, keys[0]) {
        forall j | 0 <= j < |keys|
          ensures Less(k, keys[j])
        {
          if j > 0 { LessTransitive(k, keys[0], keys[j]); }
        }
      } else {
        LessTotal(k, keys[0]);
        InsertSorted(k, keys[1..]);
        var tail := Insert(k, keys[1..]);
        forall j | 0 <= j < |tail|
          ensures Less(keys[0], tail[j])
        {
          assert tail[j] in Elements(tail);
          if tail[j] != k {
            var i :| 0 <= i < |keys[1..]| && keys[1..][i] == tail[j];
            assert Less(keys[0], keys[i + 1]);
          }
        }
      }
    }
  }

  ghost predicate IsSortedListing(ks: set<string>, keys: seq<string>) {
    StrictlySorted(keys) && Elements(keys) == ks
  }

  lemma {:induction false} SortedListingExists(ks: set<string>)
    ensures exists keys :: IsSortedListing(ks, keys)
    decreases |ks|
  {
    if ks == {} {
      assert IsSortedListing(ks, []);
    } else {
      var k :| k in ks;
      SortedListingExists(ks - {k});
      var keys :| IsSortedListing(ks - {k}, keys);
      assert k !in Elements(keys);
      InsertSorted(k, keys);
      assert IsSortedListing(ks, Insert(k, keys));
    }
  }

  ghost function SortedKeys(ks: set<string>): (keys: seq<string>)
    ensures IsSortedListing(ks, keys)
  {
    SortedListingExists(ks);
    var keys :| IsSortedListing(ks, keys);
    keys
  }

  function Stream(keys: seq<string>, digests: map<string, string>): string
    requires forall k :: k in keys ==> k in digests
  {
    if keys == [] then "" else
      Stream(keys[..|keys| - 1], digests) + keys[|keys| - 1] + digests[keys[|keys| - 1]]
  }

  /** What is hashed for a digest map: no trace of map iteration order is left. */
  ghost function Hashed(digests: map<string, string>): string {
    var keys := SortedKeys(digests.Keys);
    assert forall k :: k in keys ==> k in Elements(keys);
    Stream(keys, digests)
  }

  /** The checksum as a function of the digest map alone. */
  ghost function Combined(w: Codec, digests: map<string, string>): string {
    w.seal(Hashed(digests))
  }

  method ChecksumDigests(w: Codec, digests: map<string, string>) returns (sum: string)
    ensures sum == Combined(w, digests)
  {
    // Ranging over the map yields its keys in an arbitrary order; sorting them restores a canonical one.
    var sorted: seq<string> := [];
    var rest := digests.Keys;
    while rest != {}
      invariant rest <= digests.Keys
      invariant StrictlySorted(sorted) && Elements(sorted) == digests.Keys - rest
      decreases rest
    {
      var k :| k in rest;
      assert k !in Elements(sorted);
      InsertSorted(k, sorted);
      sorted := Insert(k, sorted);
      rest := rest - {k};
    }
    SortedListingUnique(sorted, SortedKeys(digests.Keys));
    assert forall k :: k in sorted ==> k in Elements(sorted);
    var h := "";
    for i := 0 to |sorted|
      invariant h == Stream(sorted[..i], digests)
    {
      assert sorted[..i + 1][..i] == sorted[..i];
      h := h + sorted[i] + digests[sorted[i]];
    }
    assert sorted[..|sorted|] == sorted;
    sum := w.seal(h);
  }

  // ----- what the checksum tells apart

  /** The hash does not collide on these two. */
  predicate Apart(hash: string -> string, x: string, y: string) {
    hash(x) == hash(y) ==> x == y
  }

  /** All digests are equally long, as those of one hash function are. */
  predicate SameLength(digests: map<string, string>, n: nat) {
    forall k :: k in digests ==> |digests[k]| == n
  }

  /** Equally long tails of equal strings are equal, and so are the heads. */
  lemma EqualTails(a: string, b: string, x: string, y: string)
    requires a + x == b + y && |x| == |y|
    ensures a == b && x == y
  {
    assert |a| == |b|;
    assert a == (a + x)[..|a|] && b == (b + y)[..|b|];
    assert x == (a + x)[|a|..] && y == (b + y)[|b|..];
  }

  /** Over one list of keys, the stream determines every digest. */
  lemma {:induction false} StreamTellsApart(keys: seq<string>, a: map<string, string>, b: map<string, string>, n: nat)
    requires forall k :: k in keys ==> k in a && k in b
    requires SameLength(a, n) && SameLength(b, n) && Stream(keys, a) == Stream(keys, b)
    ensures forall k :: k in keys ==> a[k] == b[k]
  {
    if keys != [] {
      var front, last := keys[..|keys| - 1], keys[|keys| - 1];
      EqualTails(Stream(front, a) + last, Stream(front, b) + last, a[last], b[last]);
      EqualTails(Stream(front, a), Stream(front, b), last, last);
      StreamTellsApart(front, a, b, n);
      assert keys == front + [last];
    }
  }

  /** Two states of the same entries have the same checksum if and only if all their digests agree. */
  lemma ChecksumTellsApart(w: Codec, a: map<string, string>, b: map<string, string>, n: nat)
    requires Apart(w.seal, Hashed(a), Hashed(b)) && a.Keys == b.Keys && SameLength(a, n) && SameLength(b, n)
    ensures Combined(w, a) == Combined(w, b) <==> a == b
  {
    if Combined(w, a) == Combined(w, b) {
      var keys := SortedKeys(a.Keys);
      assert forall k :: k in keys <==> k in Elements(keys);
      StreamTellsApart(keys, a, b, n);
      assert forall k :: k in a ==> a[k] == b[k];
    }
  }

  lemma SortedPair(k1: string, k2: string)
    requires Less(k1, k2)
    ensures SortedKeys({k1, k2}) == [k1, k2]
  {
    var keys := [k1, k2];
    assert keys[0] in Elements(keys) && keys[1] in Elements(keys);
    SortedListingUnique(keys, SortedKeys({k1, k2}));
  }

  lemma SortedSingle(k: string)
    ensures SortedKeys({k}) == [k]
  {
    assert [k][0] in Elements([k]);
    SortedListingUnique([k], SortedKeys({k}));
  }

  /** Keys and digests are streamed without separators, so states of different entries can share a checksum: two
      entries, and one entry whose key spells out the first one's key and digest and the second one's key. */
  lemma DifferentKeysMayCollide(w: Codec, k1: string, k2: string, d1: string, d2: string)
    requires Less(k1, k2)
    ensures Combined(w, map[k1 := d1, k2 := d2]) == Combined(w, map[k1 + d1 + k2 := d2])
  {
    LessIrreflexive(k1);
    var two, one := map[k1 := d1, k2 := d2], map[k1 + d1 + k2 := d2];
    SortedPair(k1, k2);
    SortedSingle(k1 + d1 + k2);
    assert two.Keys == {k1, k2} && one.Keys == {k1 + d1 + k2};
    assert [k1, k2][..1] == [k1] && [k1][..0] == [];
    assert Stream([k1], two) == k1 + d1;
    assert Stream([k1, k2], two) == k1 + d1 + k2 + d2;
    assert [k1 + d1 + k2][..0] == [] && Stream([k1 + d1 + k2], one) == k1 + d1 + k2 + d2;
  }

  // ----- recomputation from a listing of capabilities

  function WithDigest(w: Codec, digests: map<string, string>, c: Capability): map<string, string> {
    match DigestCapability(w, c)
    case None => digests
    case Some(sum) => digests[Key(c) := sum]
  }

  /** Digests of a listing; nil entries and entries that cannot be marshalled are skipped. */
  function ListDigests(w: Codec, caps: seq<Option<Capability>>): map<string, string> {
    if caps == [] then map[] else
      var before := ListDigests(w, caps[..|caps| - 1]);
      match caps[|caps| - 1]
      case None => before
      case Some(c) => WithDigest(w, before, c)
  }

  /** The entry at this place of a listing is there, has this key, and can be digested. */
  predicate DigestedAt(w: Codec, caps: seq<Option<Capability>>, i: nat, k: string)
    requires i < |caps|
  {
    caps[i].Some? && Key(caps[i].value) == k && DigestCapability(w, caps[i].value).Some?
  }

  ghost predicate DigestedSomewhere(w: Codec, caps: seq<Option<Capability>>, k: string) {
    exists i :: 0 <= i < |caps| && DigestedAt(w, caps, i, k)
  }

  /** No later entry digests under this key. */
  ghost predicate DigestedLast(w: Codec, caps: seq<Option<Capability>>, i: nat, k: string) {
    i < |caps| && DigestedAt(w, caps, i, k) && forall j :: i < j < |caps| ==> !DigestedAt(w, caps, j, k)
  }

  lemma DigestedSnoc(w: Codec, caps: seq<Option<Capability>>, k: string)
    requires caps != []
    ensures DigestedSomewhere(w, caps, k) <==>
            DigestedSomewhere(w, caps[..|caps| - 1], k) || DigestedAt(w, caps, |caps| - 1, k)
    ensures forall i: nat :: DigestedLast(w, caps, i, k) && i < |caps| - 1 ==> DigestedLast(w, caps[..|caps| - 1], i, k)
  {
    var front, n := caps[..|caps| - 1], |caps| - 1;
    assert forall i :: 0 <= i < n ==> (DigestedAt(w, front, i, k) <==> DigestedAt(w, caps, i, k));
    if DigestedSomewhere(w, front, k) {
      var i :| 0 <= i < n && DigestedAt(w, front, i, k);
      assert DigestedAt(w, caps, i, k);
    }
  }

  /** Recomputation knows exactly the keys that some present entry digests under, and the last such entry wins. */
  lemma {:induction false} LaterEntriesWin(w: Codec, caps: seq<Option<Capability>>, k: string)
    ensures k in ListDigests(w, caps) <==> DigestedSomewhere(w, caps, k)
    ensures forall i: nat :: DigestedLast(w, caps, i, k) ==>
              k in ListDigests(w, caps) && Some(ListDigests(w, caps)[k]) == DigestCapability(w, caps[i].value)
  {
    if caps != [] {
      LaterEntriesWin(w, caps[..|caps| - 1], k);
      DigestedSnoc(w, caps, k);
    }
  }

  method StateChecksum(w: Codec, caps: seq<Option<Capability>>) returns (sum: string)
    ensures sum == Combined(w, ListDigests(w, caps))
  {
    var digests: map<string, string> := map[];
    for i := 0 to |caps|
      invariant digests == ListDigests(w, caps[..i])
    {
      assert caps[..i + 1][..i] == caps[..i];
      if caps[i].Some? {
        var d := DigestCapability(w, caps[i].value);
        if d.Some? {
          digests := digests[Key(caps[i].value) := d.value];
        }
      }
    }
    assert caps[..|caps|] == caps;
    sum := ChecksumDigests(w, digests);
  }
}
