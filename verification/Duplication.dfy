/**
 The duplicate scanner: a banded MinHash index over function fingerprints, against the
 all-pairs comparison it stands in for.
 */
module Duplication {
  import opened Base

  const SALTS: nat := 64
  const BANDS: nat := 16
  const ROWS: nat := SALTS / BANDS

  /** A 64-bit value. */
  type Word = x: nat | x < 0x1_0000_0000_0000_0000

  /** `title` is `file::qualified.name`. */
  datatype Fingerprint = Fingerprint(title: string, shingles: set<Word>)

  /** The text before the first "::", or the whole. */
  function FileOf(title: string): string {
    if |title| < 2 then title
    else if title[0] == ':' && title[1] == ':' then ""
    else [title[0]] + FileOf(title[1..])
  }

  /** One salted hash, cut to 61 bits. */
  function Mix(h: Word, salt: Word): nat {
    (((h as bv64 ^ salt as bv64) * 0x9E3779B97F4A7C15) & 0x1FFF_FFFF_FFFF_FFFF) as nat
  }

  // ---- What is to be reported --------------------------------------------------------

  ghost predicate IsMin(m: nat, shingles: set<Word>, salt: Word) {
    && (exists h :: h in shingles && Mix(h, salt) == m)
    && (forall h :: h in shingles ==> m <= Mix(h, salt))
  }

  /** Jaccard similarity at least nine tenths. */
  predicate Similar(a: set<Word>, b: set<Word>) {
    10 * |a * b| >= 9 * |a + b|
  }

  predicate CrossFile(a: Fingerprint, b: Fingerprint) {
    FileOf(a.title) != FileOf(b.title)
  }

  /** What comparing all pairs would report. */
  predicate NearDuplicate(a: Fingerprint, b: Fingerprint) {
    CrossFile(a, b) && Similar(a.shingles, b.shingles)
  }

  ghost predicate SameMin(a: set<Word>, b: set<Word>, salt: Word) {
    exists m :: IsMin(m, a, salt) && IsMin(m, b, salt)
  }

  ghost predicate AgreeOnBand(a: set<Word>, b: set<Word>, salts: seq<Word>, band: nat)
    requires |salts| == SALTS && band < BANDS
  {
    forall k :: band * ROWS <= k < (band + 1) * ROWS ==> SameMin(a, b, salts[k])
  }

  /** The two agree on every row of some band. */
  ghost predicate ShareBand(a: set<Word>, b: set<Word>, salts: seq<Word>)
    requires |salts| == SALTS
  {
    exists band :: 0 <= band < BANDS && AgreeOnBand(a, b, salts, band)
  }

  /** The unordered pair of titles, smaller first. */
  function Pair(a: Fingerprint, b: Fingerprint): (string, string) {
    if StringBefore(b.title, a.title) then (b.title, a.title) else (a.title, b.title)
  }

  // ---- Signatures ------------------------------------------------------------------------

  lemma MinUnique(m: nat, n: nat, shingles: set<Word>, salt: Word)
    requires IsMin(m, shingles, salt) && IsMin(n, shingles, salt)
    ensures m == n
  {
    hide Mix;
  }

  method Minimum(shingles: set<Word>, salt: Word) returns (m: nat)
    requires shingles != {}
    ensures IsMin(m, shingles, salt)
  {
    hide Mix;
    var h :| h in shingles;
    m := Mix(h, salt);
    var rest := shingles - {h};
    while rest != {}
      invariant rest <= shingles
      invariant exists h :: h in shingles && Mix(h, salt) == m
      invariant forall h :: h in shingles && h !in rest ==> m <= Mix(h, salt)
    {
      var other :| other in rest;
      if Mix(other, salt) < m { m := Mix(other, salt); }
      rest := rest - {other};
    }
  }

  ghost predicate IsSignature(signature: seq<nat>, shingles: set<Word>, salts: seq<Word>) {
    |signature| == |salts| && forall k :: 0 <= k < |salts| ==> IsMin(signature[k], shingles, salts[k])
  }

  method Signature(shingles: set<Word>, salts: seq<Word>) returns (signature: seq<nat>)
    requires shingles != {}
    ensures IsSignature(signature, shingles, salts)
  {
    hide IsMin;
    signature := [];
    for k := 0 to |salts|
      invariant |signature| == k
      invariant forall j :: 0 <= j < k ==> IsMin(signature[j], shingles, salts[j])
    {
      var m := Minimum(shingles, salts[k]);
      signature := signature + [m];
    }
  }

  function Slice(signature: seq<nat>, band: nat): seq<nat>
    requires |signature| == SALTS && band < BANDS
  {
    signature[band * ROWS..(band + 1) * ROWS]
  }

  lemma MinAgrees(m: nat, n: nat, a: set<Word>, b: set<Word>, salt: Word)
    requires IsMin(m, a, salt) && IsMin(n, b, salt)
    ensures SameMin(a, b, salt) <==> m == n
  {
    hide IsMin;
    if SameMin(a, b, salt) {
      var both :| IsMin(both, a, salt) && IsMin(both, b, salt);
      MinUnique(m, both, a, salt);
      MinUnique(n, both, b, salt);
    }
  }

  /** Slices are equal exactly when the bands agree. */
  lemma SlicesAgree(s: seq<nat>, t: seq<nat>, a: set<Word>, b: set<Word>, salts: seq<Word>, band: nat)
    requires |salts| == SALTS && band < BANDS && IsSignature(s, a, salts) && IsSignature(t, b, salts)
    ensures Slice(s, band) == Slice(t, band) <==> AgreeOnBand(a, b, salts, band)
  {
    hide IsMin;
    hide SameMin;
    forall k | band * ROWS <= k < (band + 1) * ROWS ensures SameMin(a, b, salts[k]) <==> s[k] == t[k] {
      MinAgrees(s[k], t[k], a, b, salts[k]);
    }
    if Slice(s, band) == Slice(t, band) {
      forall k | band * ROWS <= k < (band + 1) * ROWS ensures s[k] == t[k] {
        assert s[k] == Slice(s, band)[k - band * ROWS] && t[k] == Slice(t, band)[k - band * ROWS];
      }
    }
  }

  // ---- The index ---------------------------------------------------------------------------

  datatype Key = Key(band: nat, rows: seq<nat>)

  type Buckets = map<Key, seq<nat>>

  ghost predicate Signatures(signatures: seq<seq<nat>>, prints: seq<Fingerprint>, salts: seq<Word>) {
    |signatures| <= |prints| && forall x :: 0 <= x < |signatures| ==> IsSignature(signatures[x], prints[x].shingles, salts)
  }

  ghost predicate Sized(signatures: seq<seq<nat>>) {
    forall x :: 0 <= x < |signatures| ==> |signatures[x]| == SALTS
  }

  /** Fingerprint `x` is filed under `band`, when the last one has been filed under `partial` bands. */
  ghost predicate Filed(x: nat, band: nat, count: nat, partial: nat) {
    band < BANDS && x < count && (x == count - 1 ==> band < partial)
  }

  /** Each bucket holds exactly the filed fingerprints with its rows. */
  ghost predicate Indexed(buckets: Buckets, signatures: seq<seq<nat>>, partial: nat)
    requires Sized(signatures)
  {
    && (forall key, x: nat :: Holds(buckets, key, x) ==>
          Filed(x, key.band, |signatures|, partial) && Slice(signatures[x], key.band) == key.rows)
    && (forall x: nat, band: nat :: Filed(x, band, |signatures|, partial) ==>
          Holds(buckets, Key(band, Slice(signatures[x], band)), x))
  }

  ghost predicate Holds(buckets: Buckets, key: Key, x: nat) {
    key in buckets && x in buckets[key]
  }

  function Appended(buckets: Buckets, key: Key, x: nat): Buckets {
    buckets[key := (if key in buckets then buckets[key] else []) + [x]]
  }

  lemma AppendedHolds(buckets: Buckets, key: Key, x: nat, other: Key, y: nat)
    ensures Holds(Appended(buckets, key, x), other, y) <==> Holds(buckets, other, y) || (other == key && y == x)
  {
  }

  lemma IndexGrows(buckets: Buckets, signatures: seq<seq<nat>>, band: nat)
    requires Sized(signatures) && signatures != [] && band < BANDS && Indexed(buckets, signatures, band)
    ensures var last := |signatures| - 1;
            Indexed(Appended(buckets, Key(band, Slice(signatures[last], band)), last), signatures, band + 1)
  {
    hide Slice;
    hide Appended;
    hide Holds;
    var last := |signatures| - 1;
    var key := Key(band, Slice(signatures[last], band));
    var after := Appended(buckets, key, last);
    forall other, y: nat | Holds(after, other, y)
      ensures Filed(y, other.band, |signatures|, band + 1) && Slice(signatures[y], other.band) == other.rows
    {
      AppendedHolds(buckets, key, last, other, y);
    }
    forall x: nat, b: nat | Filed(x, b, |signatures|, band + 1)
      ensures Holds(after, Key(b, Slice(signatures[x], b)), x)
    {
      AppendedHolds(buckets, key, last, Key(b, Slice(signatures[x], b)), x);
      assert Filed(x, b, |signatures|, band) || (x == last && b == band);
    }
  }

  lemma IndexNext(buckets: Buckets, signatures: seq<seq<nat>>, signature: seq<nat>)
    requires Sized(signatures) && |signature| == SALTS && Indexed(buckets, signatures, BANDS)
    ensures Sized(signatures + [signature]) && Indexed(buckets, signatures + [signature], 0)
  {
    hide Slice;
    hide Holds;
    var more := signatures + [signature];
    assert forall x :: 0 <= x < |signatures| ==> more[x] == signatures[x];
    forall key, x: nat | Holds(buckets, key, x)
      ensures Filed(x, key.band, |more|, 0) && Slice(more[x], key.band) == key.rows
    {
      assert Filed(x, key.band, |signatures|, BANDS);
    }
    forall x: nat, band: nat | Filed(x, band, |more|, 0)
      ensures Holds(buckets, Key(band, Slice(more[x], band)), x)
    {
      assert Filed(x, band, |signatures|, BANDS);
    }
  }

  method File(buckets0: Buckets, ghost signatures: seq<seq<nat>>, signature: seq<nat>, index: nat)
    returns (buckets: Buckets)
    requires Sized(signatures) && |signatures| == index + 1 && signatures[index] == signature
    requires Indexed(buckets0, signatures, 0)
    ensures Indexed(buckets, signatures, BANDS)
  {
    hide Indexed;
    hide Slice;
    buckets := buckets0;
    for band := 0 to BANDS
      invariant Indexed(buckets, signatures, band)
    {
      IndexGrows(buckets, signatures, band);
      buckets := Appended(buckets, Key(band, Slice(signature, band)), index);
    }
  }

  lemma EmptyIndexed()
    ensures Indexed(map[], [], BANDS)
  {
  }

  /** Two fingerprints meet in some bucket. */
  ghost predicate Meet(buckets: Buckets, x: nat, y: nat) {
    exists key :: Holds(buckets, key, x) && Holds(buckets, key, y)
  }

  /** Two fingerprints meet exactly when they share a whole band, and nothing else is filed. */
  ghost predicate BandIndex(buckets: Buckets, prints: seq<Fingerprint>, salts: seq<Word>)
    requires |salts| == SALTS
  {
    && (forall key, x :: key in buckets && x in buckets[key] ==> x < |prints|)
    && (forall x: nat, y: nat :: x < |prints| && y < |prints| ==>
          (Meet(buckets, x, y) <==> ShareBand(prints[x].shingles, prints[y].shingles, salts)))
  }

  method Index(prints: seq<Fingerprint>, salts: seq<Word>) returns (buckets: Buckets)
    requires |salts| == SALTS && forall x :: 0 <= x < |prints| ==> prints[x].shingles != {}
    ensures BandIndex(buckets, prints, salts)
  {
    hide Indexed;
    hide IsSignature;
    hide ShareBand;
    hide Meet;
    buckets := map[];
    ghost var signatures: seq<seq<nat>> := [];
    EmptyIndexed();
    for x := 0 to |prints|
      invariant |signatures| == x && Signatures(signatures, prints, salts)
      invariant Sized(signatures) && Indexed(buckets, signatures, BANDS)
    {
      var signature := Signature(prints[x].shingles, salts);
      SignatureSized(signature, prints[x].shingles, salts);
      IndexNext(buckets, signatures, signature);
      signatures := signatures + [signature];
      buckets := File(buckets, signatures, signature, x);
    }
    MembersInRange(buckets, signatures);
    forall x: nat, y: nat | x < |prints| && y < |prints|
      ensures Meet(buckets, x, y) <==> ShareBand(prints[x].shingles, prints[y].shingles, salts)
    {
      MeetIff(buckets, signatures, prints, salts, x, y);
    }
  }

  lemma SignatureSized(signature: seq<nat>, shingles: set<Word>, salts: seq<Word>)
    requires IsSignature(signature, shingles, salts)
    ensures |signature| == |salts|
  {
  }

  lemma MeetIff(buckets: Buckets, signatures: seq<seq<nat>>, prints: seq<Fingerprint>, salts: seq<Word>, x: nat, y: nat)
    requires |salts| == SALTS && |signatures| == |prints| && Signatures(signatures, prints, salts)
    requires Sized(signatures) && Indexed(buckets, signatures, BANDS)
    requires x < |prints| && y < |prints|
    ensures Meet(buckets, x, y) <==> ShareBand(prints[x].shingles, prints[y].shingles, salts)
  {
    hide Slice;
    hide IsSignature;
    hide AgreeOnBand;
    forall band: nat | band < BANDS
      ensures Slice(signatures[x], band) == Slice(signatures[y], band) <==>
              AgreeOnBand(prints[x].shingles, prints[y].shingles, salts, band)
    {
      SlicesAgree(signatures[x], signatures[y], prints[x].shingles, prints[y].shingles, salts, band);
    }
    if Meet(buckets, x, y) {
      var key :| Holds(buckets, key, x) && Holds(buckets, key, y);
      assert AgreeOnBand(prints[x].shingles, prints[y].shingles, salts, key.band);
    }
    if ShareBand(prints[x].shingles, prints[y].shingles, salts) {
      var band :| 0 <= band < BANDS && AgreeOnBand(prints[x].shingles, prints[y].shingles, salts, band);
      assert Filed(x, band, |signatures|, BANDS) && Filed(y, band, |signatures|, BANDS);
      assert Holds(buckets, Key(band, Slice(signatures[x], band)), y);
    }
  }

  // ---- The pairs ----------------------------------------------------------------------------

  ghost predicate FromPair(pair: (string, string), prints: seq<Fingerprint>, x: nat, y: nat)
    requires x < |prints| && y < |prints|
  {
    NearDuplicate(prints[x], prints[y]) && pair == Pair(prints[x], prints[y])
  }

  /** `pairs` holds the near duplicates among `members`. */
  ghost predicate PairsAmong(pairs: set<(string, string)>, prints: seq<Fingerprint>, members: seq<nat>)
    requires forall x :: x in members ==> x < |prints|
  {
    && (forall pair :: pair in pairs ==> exists x, y :: x in members && y in members && FromPair(pair, prints, x, y))
    && (forall x, y :: x in members && y in members && NearDuplicate(prints[x], prints[y]) ==>
          Pair(prints[x], prints[y]) in pairs)
  }

  lemma Symmetric(a: Fingerprint, b: Fingerprint)
    ensures NearDuplicate(a, b) <==> NearDuplicate(b, a)
    ensures Pair(a, b) == Pair(b, a)
  {
    hide FileOf;
    StringOrder(a.title, b.title);
    assert a.shingles * b.shingles == b.shingles * a.shingles;
    assert a.shingles + b.shingles == b.shingles + a.shingles;
  }

  /** Every pair was made by two of `members`. */
  ghost predicate MadeBy(pairs: set<(string, string)>, prints: seq<Fingerprint>, members: seq<nat>)
    requires forall x :: x in members ==> x < |prints|
  {
    forall pair :: pair in pairs ==> exists x, y :: x in members && y in members && FromPair(pair, prints, x, y)
  }

  /** The near duplicate of `x` and `y`, if it is one, is among `pairs`. */
  ghost predicate Covered(pairs: set<(string, string)>, prints: seq<Fingerprint>, x: nat, y: nat) {
    x < |prints| && y < |prints| && (NearDuplicate(prints[x], prints[y]) ==> Pair(prints[x], prints[y]) in pairs)
  }

  /** The inner loop: one member against those after it. */
  method PairsFrom(prints: seq<Fingerprint>, members: seq<nat>, i: nat, pairs0: set<(string, string)>)
    returns (pairs: set<(string, string)>)
    requires i < |members| && forall x :: x in members ==> x < |prints|
    requires MadeBy(pairs0, prints, members)
    ensures pairs0 <= pairs && MadeBy(pairs, prints, members)
    ensures forall l :: i < l < |members| ==> Covered(pairs, prints, members[i], members[l])
  {
    hide FileOf;
    hide Similar;
    hide Pair;
    pairs := pairs0;
    for j := i + 1 to |members|
      invariant pairs0 <= pairs && MadeBy(pairs, prints, members)
      invariant forall l :: i < l < j ==> Covered(pairs, prints, members[i], members[l])
    {
      assert members[i] in members && members[j] in members;
      var a, b := prints[members[i]], prints[members[j]];
      if !CrossFile(a, b) { continue; }
      if Similar(a.shingles, b.shingles) {
        assert FromPair(Pair(a, b), prints, members[i], members[j]);
        pairs := pairs + {Pair(a, b)};
      }
    }
  }

  /** The two loops over one bucket. */
  method PairsWithin(prints: seq<Fingerprint>, members: seq<nat>) returns (pairs: set<(string, string)>)
    requires forall x :: x in members ==> x < |prints|
    ensures PairsAmong(pairs, prints, members)
  {
    hide NearDuplicate;
    hide Pair;
    pairs := {};
    for i := 0 to |members|
      invariant MadeBy(pairs, prints, members)
      invariant forall k, l :: 0 <= k < i && k < l < |members| ==> Covered(pairs, prints, members[k], members[l])
    {
      pairs := PairsFrom(prints, members, i, pairs);
    }
    forall x, y | x in members && y in members ensures Covered(pairs, prints, x, y) {
      var k :| 0 <= k < |members| && members[k] == x;
      var l :| 0 <= l < |members| && members[l] == y;
      Symmetric(prints[x], prints[y]);
      NotItself(prints[x]);
    }
  }

  lemma NotItself(a: Fingerprint)
    ensures !NearDuplicate(a, a)
  {
  }

  ghost predicate Reported(prints: seq<Fingerprint>, buckets: Buckets, pairs: set<(string, string)>, left: set<Key>) {
    && (forall pair :: pair in pairs ==>
          exists x: nat, y: nat :: x < |prints| && y < |prints| && Meet(buckets, x, y) && FromPair(pair, prints, x, y))
    && (forall key, x: nat, y: nat :: key !in left && Holds(buckets, key, x) && Holds(buckets, key, y) ==>
          Covered(pairs, prints, x, y))
  }

  lemma ReportedMore(prints: seq<Fingerprint>, buckets: Buckets, pairs: set<(string, string)>, left: set<Key>, key: Key,
                     more: set<(string, string)>)
    requires key in buckets && forall x :: x in buckets[key] ==> x < |prints|
    requires Reported(prints, buckets, pairs, left) && PairsAmong(more, prints, buckets[key])
    ensures Reported(prints, buckets, pairs + more, left - {key})
  {
    hide NearDuplicate;
    hide Pair;
    forall pair | pair in more
      ensures exists x: nat, y: nat :: x < |prints| && y < |prints| && Meet(buckets, x, y) && FromPair(pair, prints, x, y)
    {
      var x, y :| x in buckets[key] && y in buckets[key] && FromPair(pair, prints, x, y);
      assert Holds(buckets, key, x) && Holds(buckets, key, y);
      assert Meet(buckets, x, y);
    }
  }

  method CollectPairs(prints: seq<Fingerprint>, buckets: Buckets) returns (pairs: set<(string, string)>)
    requires forall key, x :: key in buckets && x in buckets[key] ==> x < |prints|
    ensures Reported(prints, buckets, pairs, {})
  {
    hide PairsAmong;
    pairs := {};
    var left := buckets.Keys;
    assert Reported(prints, buckets, pairs, left);
    hide Reported;
    while left != {}
      invariant left <= buckets.Keys
      invariant Reported(prints, buckets, pairs, left)
    {
      var key :| key in left;
      var more := PairsWithin(prints, buckets[key]);
      ReportedMore(prints, buckets, pairs, left, key, more);
      pairs, left := pairs + more, left - {key};
    }
  }

  /**
   The near duplicates reported are exactly the cross-file pairs that share a whole band
   and have Jaccard similarity at least nine tenths.
   */
  method Scan(prints: seq<Fingerprint>, salts: seq<Word>) returns (pairs: set<(string, string)>)
    requires |salts| == SALTS && forall x :: 0 <= x < |prints| ==> prints[x].shingles != {}
    ensures forall pair :: pair in pairs <==>
              exists x: nat, y: nat :: x < |prints| && y < |prints|
                && ShareBand(prints[x].shingles, prints[y].shingles, salts) && FromPair(pair, prints, x, y)
  {
    hide Indexed;
    hide NearDuplicate;
    hide Pair;
    hide ShareBand;
    hide Meet;
    var buckets := Index(prints, salts);
    pairs := CollectPairs(prints, buckets);
    forall pair, x: nat, y: nat | x < |prints| && y < |prints| && Meet(buckets, x, y) && FromPair(pair, prints, x, y)
      ensures pair in pairs
    {
      MeetReported(prints, buckets, pairs, x, y);
    }
  }

  lemma MembersInRange(buckets: Buckets, signatures: seq<seq<nat>>)
    requires Sized(signatures) && Indexed(buckets, signatures, BANDS)
    ensures forall key, x :: key in buckets && x in buckets[key] ==> x < |signatures|
  {
    forall key, x | key in buckets && x in buckets[key] ensures x < |signatures| {
      assert Holds(buckets, key, x);
    }
  }

  lemma MeetReported(prints: seq<Fingerprint>, buckets: Buckets, pairs: set<(string, string)>, x: nat, y: nat)
    requires Reported(prints, buckets, pairs, {}) && x < |prints| && y < |prints|
    requires Meet(buckets, x, y) && NearDuplicate(prints[x], prints[y])
    ensures Pair(prints[x], prints[y]) in pairs
  {
    hide NearDuplicate;
    hide Pair;
    var key :| Holds(buckets, key, x) && Holds(buckets, key, y);
  }

  // ---- Against comparing all pairs ------------------------------------------------------

  lemma {:induction false} MinExists(shingles: set<Word>, salt: Word)
    requires shingles != {}
    ensures exists m :: IsMin(m, shingles, salt)
    decreases |shingles|
  {
    hide Mix;
    var h :| h in shingles;
    var rest := shingles - {h};
    assert shingles == rest + {h};
    if rest == {} {
      assert IsMin(Mix(h, salt), shingles, salt);
    } else {
      MinExists(rest, salt);
      var m :| IsMin(m, rest, salt);
      assert IsMin(if Mix(h, salt) < m then Mix(h, salt) else m, shingles, salt);
    }
  }

  /** No salts can hide two functions with the same shingles in different files. */
  lemma EqualShinglesShareBand(a: Fingerprint, b: Fingerprint, salts: seq<Word>)
    requires |salts| == SALTS && a.shingles == b.shingles != {}
    ensures ShareBand(a.shingles, b.shingles, salts)
    ensures CrossFile(a, b) ==> NearDuplicate(a, b)
  {
    hide IsMin;
    hide FileOf;
    forall k | 0 <= k < ROWS ensures SameMin(a.shingles, b.shingles, salts[k]) {
      MinExists(a.shingles, salts[k]);
    }
    assert AgreeOnBand(a.shingles, b.shingles, salts, 0);
    assert a.shingles * b.shingles == a.shingles && a.shingles + b.shingles == a.shingles;
  }

  /** What the index reports, all-pairs comparison reports; equal shingles in two files are never missed. */
  lemma ScanAgainstAllPairs(prints: seq<Fingerprint>, salts: seq<Word>, pairs: set<(string, string)>)
    requires |salts| == SALTS && forall x :: 0 <= x < |prints| ==> prints[x].shingles != {}
    requires forall pair :: pair in pairs <==>
               exists x: nat, y: nat :: x < |prints| && y < |prints|
                 && ShareBand(prints[x].shingles, prints[y].shingles, salts) && FromPair(pair, prints, x, y)
    ensures forall pair :: pair in pairs ==>
              exists x: nat, y: nat :: x < |prints| && y < |prints| && FromPair(pair, prints, x, y)
    ensures forall x: nat, y: nat ::
              (x < |prints| && y < |prints| && CrossFile(prints[x], prints[y])
               && prints[x].shingles == prints[y].shingles)
              ==> Pair(prints[x], prints[y]) in pairs
  {
    hide ShareBand;
    hide Pair;
    hide FileOf;
    forall x: nat, y: nat | x < |prints| && y < |prints| && CrossFile(prints[x], prints[y])
      && prints[x].shingles == prints[y].shingles
      ensures Pair(prints[x], prints[y]) in pairs
    {
      EqualShinglesShareBand(prints[x], prints[y], salts);
      assert FromPair(Pair(prints[x], prints[y]), prints, x, y);
    }
  }
}
