/** The aspect calculator (`get_aspects`): for every body that is not a node,
    the bodies after it in snapshot order whose angular separation falls
    strictly inside an aspect's window, grouped by aspect name. */
module Aspects {
  import opened Dicts
  import opened Sky

  /** One row of an aspect table: its name, exact angle and orb. */
  datatype AspectDef = AspectDef(name: string, angle: real, orb: real)

  /** The major table; "conjuction" and "oposition" are the engine's own
      spellings and appear as such in every report. */
  const MajorAspects: seq<AspectDef> := [
    AspectDef("conjuction", 0.0, 10.0),
    AspectDef("oposition", 180.0, 10.0),
    AspectDef("trine", 120.0, 10.0),
    AspectDef("square", 90.0, 10.0),
    AspectDef("sextile", 60.0, 5.0)
  ]

  const MinorAspects: seq<AspectDef> := [
    AspectDef("semi-sextile", 30.0, 1.5),
    AspectDef("inconjunct", 150.0, 3.0),
    AspectDef("semi-square", 45.0, 3.0),
    AspectDef("trioctile", 135.0, 3.0),
    AspectDef("quintile", 72.0, 1.0),
    AspectDef("biquintile", 144.0, 1.0)
  ]

  function Selected(minor: bool): seq<AspectDef> {
    if minor then MinorAspects else MajorAspects
  }

  /** Both ends of the window are reduced modulo 360. */
  function AspectMax(t: AspectDef): Longitude {
    Mod360(t.angle + t.orb)
  }

  function AspectMin(t: AspectDef): Longitude {
    Mod360(t.angle - t.orb)
  }

  /** The aspect test: strict on both ends. */
  predicate Matches(t: AspectDef, diff: real) {
    AspectMin(t) < diff < AspectMax(t)
  }

  /** `abs(a - b)` of two longitudes, never reduced to the shorter arc. */
  function AngleDiff(p: RawPosition, q: RawPosition): Longitude {
    if p.angle >= q.angle then p.angle - q.angle else q.angle - p.angle
  }

  /** Separation of two bodies in the snapshot of a day. */
  function Sep(eph: Ephemeris, day: int, a: Body, b: Body): Longitude {
    AngleDiff(RawAt(eph, day, a), RawAt(eph, day, b))
  }

  predicate EndsWith(s: string, suffix: string) {
    |suffix| <= |s| && s[|s| - |suffix|..] == suffix
  }

  /** Bodies whose name ends in "Node" are never the subject of an aspect. */
  predicate IsNode(b: Body) {
    EndsWith(Name(b), "Node")
  }

  lemma IsNodeExactly(b: Body)
    ensures IsNode(b) <==> b == NorthNode || b == SouthNode
  {
  }

  /** The aspects of one subject: aspect name to the partners in it. */
  type Buckets = Dict<string, seq<Body>>

  /** The result: subject to its buckets. */
  type AspectMap = Dict<Body, Buckets>

  predicate Has(pa: Buckets, n: string, c: Body) {
    n in pa.vals && c in pa.vals[n]
  }

  predicate NonEmpty(pa: Buckets) {
    forall n :: n in pa.vals ==> pa.vals[n] != []
  }

  /** `planet_aspects[n].append(c)`, creating the list on a missing key. */
  function Append(pa: Buckets, n: string, c: Body): (r: Buckets)
    ensures forall m, x :: Has(r, m, x) <==> Has(pa, m, x) || (m == n && x == c)
    ensures NonEmpty(pa) ==> NonEmpty(r)
  {
    if n in pa.vals then Put(pa, n, pa.vals[n] + [c]) else Put(pa, n, [c])
  }

  /** The table's rows tried in order against one partner. */
  function AddHits(pa: Buckets, table: seq<AspectDef>, c: Body, diff: real): Buckets
    decreases |table|
  {
    if table == [] then pa
    else
      var t := table[0];
      AddHits(if Matches(t, diff) then Append(pa, t.name, c) else pa, table[1..], c, diff)
  }

  /** The remaining partners of subject `a`, in pool order. */
  function PartnerScan(pa: Buckets, eph: Ephemeris, day: int, a: Body, partners: seq<Body>,
                       table: seq<AspectDef>): Buckets
    decreases |partners|
  {
    if partners == [] then pa
    else
      var c := partners[0];
      PartnerScan(AddHits(pa, table, c, Sep(eph, day, a, c)), eph, day, a, partners[1..], table)
  }

  /** The remaining subjects: each is taken out of the pool before its
      partners are scanned, so its partners are exactly the bodies after it. */
  function AspectsLoop(acc: AspectMap, eph: Ephemeris, day: int, rest: seq<Body>,
                       table: seq<AspectDef>): AspectMap
    decreases |rest|
  {
    if rest == [] then acc
    else AspectsLoop(Subject(acc, eph, day, rest[0], rest[1..], table), eph, day, rest[1..], table)
  }

  /** One subject: skipped when it is a node, otherwise listed when it has at
      least one aspect with the bodies still in the pool. */
  function Subject(acc: AspectMap, eph: Ephemeris, day: int, a: Body, pool: seq<Body>,
                   table: seq<AspectDef>): AspectMap
  {
    if IsNode(a) then acc
    else
      var pa := PartnerScan(Empty(), eph, day, a, pool, table);
      if |pa.keys| != 0 then Put(acc, a, pa) else acc
  }

  /** What `get_aspects` returns for a day and a table. */
  function AspectsOf(eph: Ephemeris, day: int, table: seq<AspectDef>): AspectMap {
    AspectsLoop(Empty(), eph, day, AllBodies, table)
  }

  /** `get_aspects`: a working copy of the snapshot loses each subject as it is
      reached, and the subject is compared with what is left. */
  method GetAspects(eph: Ephemeris, day: int, minor: bool) returns (aspects: AspectMap)
    ensures aspects == AspectsOf(eph, day, Selected(minor))
  {
    var positions := GetPositionsRaw(eph, day);
    var snapshot := positions;
    var order := snapshot.keys;
    var table := Selected(minor);
    aspects := Empty();
    for i := 0 to |order|
      invariant positions.keys == order[i..]
      invariant forall b :: b in positions.vals ==> positions.vals[b] == RawAt(eph, day, b)
      invariant AspectsOf(eph, day, table) == AspectsLoop(aspects, eph, day, order[i..], table)
    {
      var aname := order[i];
      RemoveFirst(positions);
      positions := Remove(positions, aname);
      assert order[i..][1..] == order[i + 1..];
      if !IsNode(aname) {
        var planetAspects := PlanetAspects(eph, day, aname, snapshot.vals[aname], positions, table);
        if |planetAspects.keys| != 0 {
          aspects := Put(aspects, aname, planetAspects);
        }
      }
    }
  }

  /** The inner loops of `get_aspects`: subject `a` against every body left in
      the pool, each partner against every row of the table. */
  method PlanetAspects(eph: Ephemeris, day: int, a: Body, aposition: RawPosition,
                       pool: Dict<Body, RawPosition>, table: seq<AspectDef>)
    returns (planetAspects: Buckets)
    requires aposition == RawAt(eph, day, a)
    requires forall b :: b in pool.vals ==> pool.vals[b] == RawAt(eph, day, b)
    ensures planetAspects == PartnerScan(Empty(), eph, day, a, pool.keys, table)
  {
    planetAspects := Empty();
    for j := 0 to |pool.keys|
      invariant PartnerScan(Empty(), eph, day, a, pool.keys, table)
             == PartnerScan(planetAspects, eph, day, a, pool.keys[j..], table)
    {
      var bname := pool.keys[j];
      var diff := AngleDiff(aposition, pool.vals[bname]);
      ghost var before := planetAspects;
      for k := 0 to |table|
        invariant AddHits(before, table, bname, diff) == AddHits(planetAspects, table[k..], bname, diff)
      {
        var aspectMax := Mod360(table[k].angle + table[k].orb);
        var aspectMin := Mod360(table[k].angle - table[k].orb);
        if aspectMin < diff < aspectMax {
          planetAspects := Append(planetAspects, table[k].name, bname);
        }
        assert table[k..][1..] == table[k + 1..];
      }
      assert pool.keys[j..][1..] == pool.keys[j + 1..];
    }
  }

  // ---------------------------------------------------------------------
  // What the result holds

  /** Some row named `n` matches the separation. */
  ghost predicate Hits(table: seq<AspectDef>, n: string, diff: real) {
    exists i :: 0 <= i < |table| && table[i].name == n && Matches(table[i], diff)
  }

  /** `b` comes after `a` in the order `s`. */
  ghost predicate Follows(s: seq<Body>, a: Body, b: Body) {
    exists i, j :: 0 <= i < j < |s| && s[i] == a && s[j] == b
  }

  ghost predicate InSet(r: AspectMap, a: Body, n: string, b: Body) {
    a in r.vals && Has(r.vals[a], n, b)
  }

  /** No subject without an aspect, no aspect without a partner. */
  ghost predicate AllNonEmpty(r: AspectMap) {
    forall a :: a in r.vals ==> |r.vals[a].keys| != 0 && NonEmpty(r.vals[a])
  }

  lemma HitsCons(table: seq<AspectDef>, n: string, diff: real)
    requires table != []
    ensures Hits(table, n, diff)
        <==> (table[0].name == n && Matches(table[0], diff)) || Hits(table[1..], n, diff)
  {
    if Hits(table, n, diff) {
      var i :| 0 <= i < |table| && table[i].name == n && Matches(table[i], diff);
      if i > 0 {
        assert table[1..][i - 1] == table[i];
      }
    }
    if Hits(table[1..], n, diff) {
      var i :| 0 <= i < |table[1..]| && table[1..][i].name == n && Matches(table[1..][i], diff);
      assert table[i + 1] == table[1..][i];
    }
  }

  lemma FollowsCons(s: seq<Body>, a: Body, b: Body)
    requires s != []
    ensures Follows(s, a, b) <==> (s[0] == a && b in s[1..]) || Follows(s[1..], a, b)
  {
    if Follows(s, a, b) {
      FollowsSplit(s, a, b);
    }
    if s[0] == a && b in s[1..] {
      FollowsHead(s, a, b);
    }
    if Follows(s[1..], a, b) {
      FollowsTail(s, a, b);
    }
  }

  lemma FollowsSplit(s: seq<Body>, a: Body, b: Body)
    requires s != [] && Follows(s, a, b)
    ensures (s[0] == a && b in s[1..]) || Follows(s[1..], a, b)
  {
    var t := s[1..];
    var i, j :| 0 <= i < j < |s| && s[i] == a && s[j] == b;
    assert t[j - 1] == b;
    if i > 0 {
      assert t[i - 1] == a;
    }
  }

  lemma FollowsHead(s: seq<Body>, a: Body, b: Body)
    requires s != [] && s[0] == a && b in s[1..]
    ensures Follows(s, a, b)
  {
    var t := s[1..];
    var j :| 0 <= j < |t| && t[j] == b;
    assert s[j + 1] == b;
  }

  lemma FollowsTail(s: seq<Body>, a: Body, b: Body)
    requires s != [] && Follows(s[1..], a, b)
    ensures Follows(s, a, b)
  {
    var t := s[1..];
    var i, j :| 0 <= i < j < |t| && t[i] == a && t[j] == b;
    assert s[i + 1] == a && s[j + 1] == b;
  }

  lemma {:induction false} AddHitsSpec(pa: Buckets, table: seq<AspectDef>, c: Body, diff: real)
    ensures forall n, x :: Has(AddHits(pa, table, c, diff), n, x)
                       <==> Has(pa, n, x) || (x == c && Hits(table, n, diff))
    ensures NonEmpty(pa) ==> NonEmpty(AddHits(pa, table, c, diff))
    decreases |table|
  {
    if table != [] {
      var t := table[0];
      var pa' := if Matches(t, diff) then Append(pa, t.name, c) else pa;
      AddHitsSpec(pa', table[1..], c, diff);
      forall n ensures Hits(table, n, diff) <==> (t.name == n && Matches(t, diff)) || Hits(table[1..], n, diff) {
        HitsCons(table, n, diff);
      }
    }
  }

  lemma {:induction false} PartnerScanSpec(pa: Buckets, eph: Ephemeris, day: int, a: Body,
                                           partners: seq<Body>, table: seq<AspectDef>)
    ensures forall n, x :: Has(PartnerScan(pa, eph, day, a, partners, table), n, x)
                       <==> Has(pa, n, x) || (x in partners && Hits(table, n, Sep(eph, day, a, x)))
    ensures NonEmpty(pa) ==> NonEmpty(PartnerScan(pa, eph, day, a, partners, table))
    decreases |partners|
  {
    if partners != [] {
      var c := partners[0];
      var pa' := AddHits(pa, table, c, Sep(eph, day, a, c));
      AddHitsSpec(pa, table, c, Sep(eph, day, a, c));
      PartnerScanSpec(pa', eph, day, a, partners[1..], table);
      assert forall x :: x in partners <==> x == c || x in partners[1..];
    }
  }

  lemma SubjectSpec(acc: AspectMap, eph: Ephemeris, day: int, a0: Body, pool: seq<Body>,
                    table: seq<AspectDef>)
    requires a0 !in acc.vals
    ensures forall a, n, b :: (InSet(Subject(acc, eph, day, a0, pool, table), a, n, b)
      <==> InSet(acc, a, n, b) || (a == a0 && !IsNode(a0) && b in pool && Hits(table, n, Sep(eph, day, a0, b))))
    ensures AllNonEmpty(acc) ==> AllNonEmpty(Subject(acc, eph, day, a0, pool, table))
    ensures forall a :: a in Subject(acc, eph, day, a0, pool, table).vals ==> a in acc.vals || (a == a0 && !IsNode(a0))
  {
    if !IsNode(a0) {
      var pa := PartnerScan(Empty(), eph, day, a0, pool, table);
      PartnerScanSpec(Empty(), eph, day, a0, pool, table);
      if |pa.keys| != 0 {
        PutSubject(acc, a0, pa);
      } else {
        assert forall n :: n !in pa.vals;
      }
    }
  }

  lemma PutSubject(acc: AspectMap, a0: Body, pa: Buckets)
    requires a0 !in acc.vals && |pa.keys| != 0
    ensures forall a, n, b :: (InSet(Put(acc, a0, pa), a, n, b)
      <==> InSet(acc, a, n, b) || (a == a0 && Has(pa, n, b)))
    ensures AllNonEmpty(acc) && NonEmpty(pa) ==> AllNonEmpty(Put(acc, a0, pa))
    ensures forall a :: a in Put(acc, a0, pa).vals ==> a in acc.vals || a == a0
  {
  }

  lemma {:induction false} AspectsLoopSpec(acc: AspectMap, eph: Ephemeris, day: int, rest: seq<Body>,
                                           table: seq<AspectDef>)
    requires Distinct(rest)
    requires forall a :: a in rest ==> a !in acc.vals
    ensures forall a, n, b :: (InSet(AspectsLoop(acc, eph, day, rest, table), a, n, b)
      <==> InSet(acc, a, n, b) || (!IsNode(a) && Follows(rest, a, b) && Hits(table, n, Sep(eph, day, a, b))))
    ensures AllNonEmpty(acc) ==> AllNonEmpty(AspectsLoop(acc, eph, day, rest, table))
    ensures forall a :: a in AspectsLoop(acc, eph, day, rest, table).vals ==> a in acc.vals || (a in rest && !IsNode(a))
    decreases |rest|
  {
    if rest != [] {
      var a0 := rest[0];
      DistinctHead(rest);
      forall a, b ensures Follows(rest, a, b) <==> (a0 == a && b in rest[1..]) || Follows(rest[1..], a, b) {
        FollowsCons(rest, a, b);
      }
      SubjectSpec(acc, eph, day, a0, rest[1..], table);
      AspectsLoopSpec(Subject(acc, eph, day, a0, rest[1..], table), eph, day, rest[1..], table);
    }
  }

  /** The result of `get_aspects`: `b` is listed under aspect `n` of subject
      `a` exactly when `a` is not a node, `b` comes after `a` in snapshot
      order and some row named `n` matches their separation; every subject
      listed has an aspect, every aspect a partner, and no node is a subject. */
  lemma AspectsOfSpec(eph: Ephemeris, day: int, table: seq<AspectDef>)
    ensures forall a, n, b :: (InSet(AspectsOf(eph, day, table), a, n, b)
      <==> !IsNode(a) && Follows(AllBodies, a, b) && Hits(table, n, Sep(eph, day, a, b)))
    ensures AllNonEmpty(AspectsOf(eph, day, table))
    ensures forall a :: a in AspectsOf(eph, day, table).vals ==> !IsNode(a)
  {
    AllBodiesDistinct();
    AspectsLoopSpec(Empty(), eph, day, AllBodies, table);
  }

  /** A subject is listed exactly when it has at least one aspect partner. */
  lemma SubjectsHaveAspects(eph: Ephemeris, day: int, table: seq<AspectDef>, a: Body)
    ensures a in AspectsOf(eph, day, table).vals <==> exists n, b :: InSet(AspectsOf(eph, day, table), a, n, b)
  {
    var r := AspectsOf(eph, day, table);
    AspectsOfSpec(eph, day, table);
    if a in r.vals {
      var n := r.vals[a].keys[0];
      assert n in r.vals[a].vals;
      assert InSet(r, a, n, r.vals[a].vals[n][0]);
    }
  }

  /** No body aspects itself, and a pair is listed under one of its bodies
      only, the earlier one. */
  lemma PairsOnce(eph: Ephemeris, day: int, table: seq<AspectDef>, a: Body, b: Body, n: string, m: string)
    requires InSet(AspectsOf(eph, day, table), a, n, b)
    ensures a != b
    ensures !InSet(AspectsOf(eph, day, table), b, m, a)
  {
    AspectsOfSpec(eph, day, table);
    AllBodiesDistinct();
  }

  /** Python's `x % 360` on the range the tables reach. */
  lemma Mod360Near(x: real)
    requires -360.0 <= x < 720.0
    ensures Mod360(x) == if x < 0.0 then x + 360.0 else if x < 360.0 then x else x - 360.0
  {
    var k := (x / 360.0).Floor;
    if x < 0.0 {
      assert k == -1;
    } else if x < 360.0 {
      assert k == 0;
    } else {
      assert k == 1;
    }
  }

  /** The conjunction window reduces to (350, 10), which no separation meets. */
  lemma ConjunctionNeverMatches(diff: real)
    ensures AspectMin(MajorAspects[0]) == 350.0 && AspectMax(MajorAspects[0]) == 10.0
    ensures !Matches(MajorAspects[0], diff)
  {
    Mod360Near(-10.0);
    Mod360Near(10.0);
  }

  /** Every other row's window is the open interval angle ± orb, so a
      separation exactly at the edge is not an aspect. */
  lemma WindowsExact(t: AspectDef, diff: real)
    requires t in MajorAspects[1..] || t in MinorAspects
    ensures Matches(t, diff) <==> t.angle - t.orb < diff < t.angle + t.orb
    ensures !Matches(t, t.angle - t.orb) && !Matches(t, t.angle + t.orb)
  {
    Mod360Near(t.angle - t.orb);
    Mod360Near(t.angle + t.orb);
  }

  /** With the major table, "conjuction" is never listed. */
  lemma NoConjunction(eph: Ephemeris, day: int, a: Body, b: Body)
    ensures !InSet(AspectsOf(eph, day, MajorAspects), a, "conjuction", b)
  {
    AspectsOfSpec(eph, day, MajorAspects);
    NoConjunctionHit(Sep(eph, day, a, b));
  }

  /** Only the first major row is named "conjuction", and it never matches. */
  lemma NoConjunctionHit(diff: real)
    ensures !Hits(MajorAspects, "conjuction", diff)
  {
    ConjunctionNeverMatches(diff);
    forall i | 1 <= i < |MajorAspects| ensures MajorAspects[i].name != "conjuction" {
      assert |MajorAspects[i].name| < |"conjuction"|;
    }
  }
}
