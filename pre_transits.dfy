/** The bookkeeping of the aspect-transit scan (`get_aspect_transits`): a
    nested dictionary subject -> aspect -> partner -> record, filled by an
    exit pass and an entry pass. Writes happen only where a key is missing,
    at the level of a whole subject, of one aspect or of one partner, so a
    record once written is never replaced. */
module PreTransits {
  import opened Dicts
  import opened Sky
  import opened Aspects

  datatype Direction = Exiting | Entering

  /** The key a direction is reported under. */
  function DirectionName(d: Direction): (s: string)
    ensures s != [] && '\n' !in s
  {
    match d
    case Exiting => "exiting"
    case Entering => "entering"
  }

  /** The day an aspect is found ended or begun, and which of the two. */
  datatype Record = Record(date: int, direction: Direction)

  type Partners = Dict<Body, Record>

  type AspectRecords = Dict<string, Partners>

  /** `pre_transits`. */
  type PreMap = Dict<Body, AspectRecords>

  // ---------------------------------------------------------------------
  // Paths in the nested dictionary

  predicate HasAspect(pre: PreMap, a: Body, n: string) {
    a in pre.vals && n in pre.vals[a].vals
  }

  /** Partner `b` is recorded under aspect `n` of one subject's records. */
  predicate InRecords(ar: AspectRecords, n: string, b: Body) {
    n in ar.vals && b in ar.vals[n].vals
  }

  predicate HasLeaf(pre: PreMap, a: Body, n: string, b: Body) {
    a in pre.vals && InRecords(pre.vals[a], n, b)
  }

  function Leaf(pre: PreMap, a: Body, n: string, b: Body): Record
    requires HasLeaf(pre, a, n, b)
  {
    pre.vals[a].vals[n].vals[b]
  }

  /** `aspects_contains(aspects, planet_a, aspect, planet_b)`; `None` stands
      for an argument left out. Aspect names are never empty, so a given
      aspect is always a true value. */
  function AspectsContains(m: AspectMap, a: Body, aspect: Option<string>, b: Option<Body>): (r: bool)
    ensures aspect.None? ==> (r <==> a in m.vals)
    ensures aspect.Some? && b.None? ==> (r <==> a in m.vals && aspect.value in m.vals[a].vals)
    ensures aspect.Some? && b.Some? ==> (r <==> InSet(m, a, aspect.value, b.value))
  {
    if a !in m.vals then false
    else if aspect.Some? && aspect.value !in m.vals[a].vals then false
    else if aspect.Some? && b.Some? && b.value !in m.vals[a].vals[aspect.value] then false
    else true
  }

  // ---------------------------------------------------------------------
  // The helpers of the scan, on values

  /** `ensure_pre_path(planet_a, aspect)`: missing levels become empty. */
  function EnsurePath(pre: PreMap, a: Body, aspect: Option<string>): PreMap {
    var p := if a !in pre.vals then Put(pre, a, Empty()) else pre;
    if aspect.Some? && aspect.value !in p.vals[a].vals then Put(p, a, Put(p.vals[a], aspect.value, Empty()))
    else p
  }

  /** `pre_planet_b`: the path is made, then the record is stored. */
  function PlaceLeaf(pre: PreMap, a: Body, n: string, b: Body, rec: Record): PreMap {
    var p := EnsurePath(pre, a, Some(n));
    Put(p, a, Put(p.vals[a], n, Put(p.vals[a].vals[n], b, rec)))
  }

  /** The loop of `pre_aspect` over the partners from index `i` on. */
  function PlaceAll(pre: PreMap, a: Body, n: string, planets: seq<Body>, i: nat, rec: Record): PreMap
    decreases |planets| - i
  {
    if i < |planets| then PlaceAll(PlaceLeaf(pre, a, n, planets[i], rec), a, n, planets, i + 1, rec)
    else pre
  }

  /** `pre_aspect`: the aspect level is set to a fresh dictionary, then every
      partner is recorded. */
  function PreAspectOf(pre: PreMap, a: Body, n: string, planets: seq<Body>, rec: Record): PreMap {
    var p := EnsurePath(pre, a, None);
    PlaceAll(Put(p, a, Put(p.vals[a], n, Empty())), a, n, planets, 0, rec)
  }

  /** The loop of `pre_planet_a` over the aspects from index `i` on. */
  function PreAspects(pre: PreMap, a: Body, aspects: Buckets, i: nat, rec: Record): PreMap
    decreases |aspects.keys| - i
  {
    if i < |aspects.keys| then
      var n := aspects.keys[i];
      PreAspects(PreAspectOf(pre, a, n, aspects.vals[n], rec), a, aspects, i + 1, rec)
    else pre
  }

  /** `pre_planet_a`: the subject level is set to a fresh dictionary, then
      every aspect is recorded. */
  function PrePlanetAOf(pre: PreMap, a: Body, aspects: Buckets, rec: Record): PreMap {
    PreAspects(Put(pre, a, Empty()), a, aspects, 0, rec)
  }

  // ---------------------------------------------------------------------
  // One day of a pass, on values

  /** The innermost loop: a partner is looked at only when its record is
      missing, and recorded when the other set lacks it. */
  function PartnerLoop(pre: PreMap, a: Body, n: string, planets: seq<Body>, k: nat, other: AspectMap,
                       rec: Record): PreMap
    decreases |planets| - k
  {
    if k < |planets| then PartnerLoop(PartnerStep(pre, a, n, planets[k], other, rec), a, n, planets, k + 1, other, rec)
    else pre
  }

  /** One partner `b` of the partner loop. */
  function PartnerStep(pre: PreMap, a: Body, n: string, b: Body, other: AspectMap, rec: Record): PreMap {
    if !HasLeaf(pre, a, n, b) && !AspectsContains(other, a, Some(n), Some(b)) then PlaceLeaf(pre, a, n, b, rec)
    else pre
  }

  /** The loop over the aspects of subject `a` from index `j` on: an aspect
      already present is passed over, partners included; an aspect the other
      set lacks is recorded whole; otherwise its partners are looked at. */
  function AspectLoop(pre: PreMap, a: Body, aspects: Buckets, j: nat, other: AspectMap, rec: Record): PreMap
    decreases |aspects.keys| - j
  {
    if j < |aspects.keys| then
      var n := aspects.keys[j];
      AspectLoop(AspectStep(pre, a, n, aspects.vals[n], other, rec), a, aspects, j + 1, other, rec)
    else pre
  }

  /** One aspect `n` of the aspect loop, with its partners `planets`. */
  function AspectStep(pre: PreMap, a: Body, n: string, planets: seq<Body>, other: AspectMap, rec: Record): PreMap {
    if HasAspect(pre, a, n) then pre
    else if !AspectsContains(other, a, Some(n), None) then PreAspectOf(pre, a, n, planets, rec)
    else PartnerLoop(pre, a, n, planets, 0, other, rec)
  }

  /** One subject of the iterated set: a subject not yet recorded that the
      other set lacks is recorded whole; otherwise its aspects are looked at. */
  function Visit(pre: PreMap, a: Body, aspects: Buckets, other: AspectMap, rec: Record): PreMap {
    if a !in pre.vals && !AspectsContains(other, a, None, None) then PrePlanetAOf(pre, a, aspects, rec)
    else AspectLoop(pre, a, aspects, 0, other, rec)
  }

  /** The subjects of the iterated set `iter` from index `i` on. */
  function Subjects(pre: PreMap, iter: AspectMap, i: nat, other: AspectMap, rec: Record): PreMap
    decreases |iter.keys| - i
  {
    if i < |iter.keys| then
      var a := iter.keys[i];
      Subjects(Visit(pre, a, iter.vals[a], other, rec), iter, i + 1, other, rec)
    else pre
  }

  /** One day of a pass: every entry of `iter` that `other` lacks, recorded
      with `rec` wherever nothing is recorded yet. The exit pass iterates
      today's set against the day's, the entry pass the day's against
      today's. */
  function DayOf(pre: PreMap, iter: AspectMap, other: AspectMap, rec: Record): PreMap {
    Subjects(pre, iter, 0, other, rec)
  }

  // ---------------------------------------------------------------------
  // Growth: records are only added, and every added one is justified

  /** From `p` to `q` no record is removed or changed, and every new record
      is `rec` on an entry of `iter` that `other` lacks. */
  ghost predicate Grows(p: PreMap, q: PreMap, iter: AspectMap, other: AspectMap, rec: Record) {
    (forall a, n, b :: HasLeaf(p, a, n, b) ==> HasLeaf(q, a, n, b) && Leaf(q, a, n, b) == Leaf(p, a, n, b))
    && (forall a, n, b :: HasLeaf(q, a, n, b) && !HasLeaf(p, a, n, b) ==>
          Leaf(q, a, n, b) == rec && InSet(iter, a, n, b) && !InSet(other, a, n, b))
  }

  lemma GrowsTrans(p: PreMap, q: PreMap, r: PreMap, iter: AspectMap, other: AspectMap, rec: Record)
    requires Grows(p, q, iter, other, rec) && Grows(q, r, iter, other, rec)
    ensures Grows(p, r, iter, other, rec)
  {
  }

  /** Replacing the aspects of subject `a` by `ar` changes the paths under
      `a` only, and to those of `ar`. */
  lemma PutSubjectAspect(pre: PreMap, a: Body, ar: AspectRecords, a': Body, n': string)
    ensures HasAspect(Put(pre, a, ar), a', n') <==> if a' == a then n' in ar.vals else HasAspect(pre, a', n')
  {
  }

  lemma PutSubjectLeaf(pre: PreMap, a: Body, ar: AspectRecords, a': Body, n': string, b': Body)
    ensures HasLeaf(Put(pre, a, ar), a', n', b') <==> if a' == a then InRecords(ar, n', b') else HasLeaf(pre, a', n', b')
  {
  }

  /** Storing one partner's record under an existing aspect of a subject's
      records adds exactly that partner. */
  lemma PutRecordIn(ar: AspectRecords, n: string, b: Body, rec: Record, n': string, b': Body)
    requires n in ar.vals
    ensures InRecords(Put(ar, n, Put(ar.vals[n], b, rec)), n', b') <==> InRecords(ar, n', b') || (n' == n && b' == b)
  {
    var r := Put(ar, n, Put(ar.vals[n], b, rec));
    if n' == n {
      assert r.vals[n'] == Put(ar.vals[n], b, rec);
    } else {
      assert n' in r.vals <==> n' in ar.vals;
    }
  }

  /** A new empty aspect level holds no partner. */
  lemma PutEmptyIn(ar: AspectRecords, m: string, n': string, b': Body)
    requires m !in ar.vals
    ensures InRecords(Put(ar, m, Empty()), n', b') <==> InRecords(ar, n', b')
  {
    if n' == m {
      assert Put(ar, m, Empty()).vals[n'] == Empty<Body, Record>();
    }
  }

  lemma PutRecordValue(ar: AspectRecords, n: string, b: Body, rec: Record, n': string, b': Body)
    requires n in ar.vals && InRecords(Put(ar, n, Put(ar.vals[n], b, rec)), n', b')
    ensures Put(ar, n, Put(ar.vals[n], b, rec)).vals[n'].vals[b'] ==
              if n' == n && b' == b then rec else ar.vals[n'].vals[b']
  {
  }

  lemma PutSubjectValue(pre: PreMap, a: Body, ar: AspectRecords, a': Body, n': string, b': Body)
    requires HasLeaf(Put(pre, a, ar), a', n', b')
    ensures Leaf(Put(pre, a, ar), a', n', b') == if a' == a then ar.vals[n'].vals[b'] else Leaf(pre, a', n', b')
  {
  }

  /** `ensure_pre_path` creates levels only: no record changes. */
  lemma EnsurePathLeaf(pre: PreMap, a: Body, aspect: Option<string>, a': Body, n': string, b': Body)
    ensures HasLeaf(EnsurePath(pre, a, aspect), a', n', b') <==> HasLeaf(pre, a', n', b')
  {
    var p := if a !in pre.vals then Put(pre, a, Empty()) else pre;
    if a !in pre.vals {
      PutSubjectLeaf(pre, a, Empty(), a', n', b');
    }
    if aspect.Some? && aspect.value !in p.vals[a].vals {
      PutSubjectLeaf(p, a, Put(p.vals[a], aspect.value, Empty()), a', n', b');
      PutEmptyIn(p.vals[a], aspect.value, n', b');
    }
  }

  lemma EnsurePathValue(pre: PreMap, a: Body, aspect: Option<string>, a': Body, n': string, b': Body)
    requires HasLeaf(pre, a', n', b')
    ensures HasLeaf(EnsurePath(pre, a, aspect), a', n', b') && Leaf(EnsurePath(pre, a, aspect), a', n', b') == Leaf(pre, a', n', b')
  {
    EnsurePathLeaf(pre, a, aspect, a', n', b');
    var p := if a !in pre.vals then Put(pre, a, Empty()) else pre;
    if a !in pre.vals {
      PutSubjectLeaf(pre, a, Empty(), a', n', b');
      PutSubjectValue(pre, a, Empty(), a', n', b');
    }
    if aspect.Some? && aspect.value !in p.vals[a].vals {
      PutSubjectLeaf(p, a, Put(p.vals[a], aspect.value, Empty()), a', n', b');
      PutSubjectValue(p, a, Put(p.vals[a], aspect.value, Empty()), a', n', b');
    }
  }

  lemma EnsurePathAspect(pre: PreMap, a: Body, aspect: Option<string>, a': Body, n': string)
    ensures HasAspect(EnsurePath(pre, a, aspect), a', n') <==>
              HasAspect(pre, a', n') || (aspect.Some? && a' == a && n' == aspect.value)
  {
    var p := if a !in pre.vals then Put(pre, a, Empty()) else pre;
    if a !in pre.vals {
      PutSubjectAspect(pre, a, Empty(), a', n');
    }
    if aspect.Some? && aspect.value !in p.vals[a].vals {
      PutSubjectAspect(p, a, Put(p.vals[a], aspect.value, Empty()), a', n');
    }
  }

  /** `pre_planet_b` adds exactly the one record, and the aspect level on
      its path. */
  lemma PlaceLeafLeaf(pre: PreMap, a: Body, n: string, b: Body, rec: Record, a': Body, n': string, b': Body)
    ensures HasLeaf(PlaceLeaf(pre, a, n, b, rec), a', n', b') <==>
              HasLeaf(pre, a', n', b') || (a' == a && n' == n && b' == b)
  {
    var p := EnsurePath(pre, a, Some(n));
    EnsurePathLeaf(pre, a, Some(n), a', n', b');
    PutSubjectLeaf(p, a, Put(p.vals[a], n, Put(p.vals[a].vals[n], b, rec)), a', n', b');
    PutRecordIn(p.vals[a], n, b, rec, n', b');
  }

  lemma PlaceLeafValue(pre: PreMap, a: Body, n: string, b: Body, rec: Record, a': Body, n': string, b': Body)
    requires HasLeaf(PlaceLeaf(pre, a, n, b, rec), a', n', b')
    requires (a' == a && n' == n && b' == b) || HasLeaf(pre, a', n', b')
    ensures Leaf(PlaceLeaf(pre, a, n, b, rec), a', n', b') ==
              if a' == a && n' == n && b' == b then rec else Leaf(pre, a', n', b')
  {
    var p := EnsurePath(pre, a, Some(n));
    PlaceLeafLeaf(pre, a, n, b, rec, a', n', b');
    PutSubjectValue(p, a, Put(p.vals[a], n, Put(p.vals[a].vals[n], b, rec)), a', n', b');
    if a' == a {
      PutRecordIn(p.vals[a], n, b, rec, n', b');
      PutRecordValue(p.vals[a], n, b, rec, n', b');
    }
    if !(a' == a && n' == n && b' == b) {
      EnsurePathValue(pre, a, Some(n), a', n', b');
    }
  }

  lemma PlaceLeafAspect(pre: PreMap, a: Body, n: string, b: Body, rec: Record, a': Body, n': string)
    ensures HasAspect(PlaceLeaf(pre, a, n, b, rec), a', n') <==> HasAspect(pre, a', n') || (a' == a && n' == n)
  {
    var p := EnsurePath(pre, a, Some(n));
    EnsurePathAspect(pre, a, Some(n), a', n');
    PutSubjectAspect(p, a, Put(p.vals[a], n, Put(p.vals[a].vals[n], b, rec)), a', n');
  }

  /** Recording a partner that was missing at the start, on an entry of
      `iter` that `other` lacks, keeps the growth justified. */
  lemma PlaceLeafGrows(p: PreMap, q: PreMap, a: Body, n: string, b: Body, iter: AspectMap, other: AspectMap,
                       rec: Record)
    requires Grows(p, q, iter, other, rec)
    requires !HasLeaf(p, a, n, b) && InSet(iter, a, n, b) && !InSet(other, a, n, b)
    ensures Grows(p, PlaceLeaf(q, a, n, b, rec), iter, other, rec)
  {
    var r := PlaceLeaf(q, a, n, b, rec);
    forall a', n', b' | HasLeaf(p, a', n', b')
      ensures HasLeaf(r, a', n', b') && Leaf(r, a', n', b') == Leaf(p, a', n', b')
    {
      PlaceLeafLeaf(q, a, n, b, rec, a', n', b');
      PlaceLeafValue(q, a, n, b, rec, a', n', b');
    }
    forall a', n', b' | HasLeaf(r, a', n', b') && !HasLeaf(p, a', n', b')
      ensures Leaf(r, a', n', b') == rec && InSet(iter, a', n', b') && !InSet(other, a', n', b')
    {
      PlaceLeafLeaf(q, a, n, b, rec, a', n', b');
      PlaceLeafValue(q, a, n, b, rec, a', n', b');
    }
  }

  /** `pre_aspect`'s loop: on an aspect missing at the start, every partner
      is a justified new record. */
  lemma {:induction false} PlaceAllGrows(p: PreMap, q: PreMap, a: Body, n: string, planets: seq<Body>, i: nat,
                                         iter: AspectMap, other: AspectMap, rec: Record)
    requires Grows(p, q, iter, other, rec) && !HasAspect(p, a, n)
    requires forall b :: b in planets ==> InSet(iter, a, n, b) && !InSet(other, a, n, b)
    ensures Grows(p, PlaceAll(q, a, n, planets, i, rec), iter, other, rec)
    decreases |planets| - i
  {
    if i < |planets| {
      PlaceLeafGrows(p, q, a, n, planets[i], iter, other, rec);
      PlaceAllGrows(p, PlaceLeaf(q, a, n, planets[i], rec), a, n, planets, i + 1, iter, other, rec);
    }
  }

  /** `pre_aspect`'s loop touches the aspect level of `(a, n)` only. */
  lemma {:induction false} PlaceAllFrame(pre: PreMap, a: Body, n: string, planets: seq<Body>, i: nat, rec: Record,
                                         a': Body, n': string)
    requires !(a' == a && n' == n)
    ensures HasAspect(PlaceAll(pre, a, n, planets, i, rec), a', n') <==> HasAspect(pre, a', n')
    decreases |planets| - i
  {
    if i < |planets| {
      PlaceLeafAspect(pre, a, n, planets[i], rec, a', n');
      PlaceAllFrame(PlaceLeaf(pre, a, n, planets[i], rec), a, n, planets, i + 1, rec, a', n');
    }
  }

  /** The fresh aspect level of `pre_aspect`, before its loop: no record
      changes when the aspect was missing. */
  lemma FreshAspectLeaves(pre: PreMap, a: Body, n: string, iter: AspectMap, other: AspectMap, rec: Record)
    requires !HasAspect(pre, a, n)
    ensures Grows(pre, Put(EnsurePath(pre, a, None), a, Put(EnsurePath(pre, a, None).vals[a], n, Empty())),
                  iter, other, rec)
  {
    var p := EnsurePath(pre, a, None);
    var ar := Put(p.vals[a], n, Empty());
    var q := Put(p, a, ar);
    EnsurePathAspect(pre, a, None, a, n);
    forall a', n', b' | HasLeaf(pre, a', n', b')
      ensures HasLeaf(q, a', n', b') && Leaf(q, a', n', b') == Leaf(pre, a', n', b')
    {
      EnsurePathValue(pre, a, None, a', n', b');
      PutSubjectLeaf(p, a, ar, a', n', b');
      PutEmptyIn(p.vals[a], n, n', b');
      PutSubjectValue(p, a, ar, a', n', b');
    }
    forall a', n', b' | HasLeaf(q, a', n', b')
      ensures HasLeaf(pre, a', n', b')
    {
      EnsurePathLeaf(pre, a, None, a', n', b');
      PutSubjectLeaf(p, a, ar, a', n', b');
      PutEmptyIn(p.vals[a], n, n', b');
    }
  }

  /** `pre_aspect` on an aspect missing at the start records every partner,
      and nothing else. */
  lemma PreAspectGrows(pre: PreMap, a: Body, n: string, planets: seq<Body>, iter: AspectMap, other: AspectMap,
                       rec: Record)
    requires !HasAspect(pre, a, n)
    requires forall b :: b in planets ==> InSet(iter, a, n, b) && !InSet(other, a, n, b)
    ensures Grows(pre, PreAspectOf(pre, a, n, planets, rec), iter, other, rec)
  {
    var p := EnsurePath(pre, a, None);
    FreshAspectLeaves(pre, a, n, iter, other, rec);
    PlaceAllGrows(pre, Put(p, a, Put(p.vals[a], n, Empty())), a, n, planets, 0, iter, other, rec);
  }

  /** `pre_aspect` leaves every other aspect level as it was. */
  lemma PreAspectFrame(pre: PreMap, a: Body, n: string, planets: seq<Body>, rec: Record, a': Body, n': string)
    requires !(a' == a && n' == n)
    ensures HasAspect(PreAspectOf(pre, a, n, planets, rec), a', n') <==> HasAspect(pre, a', n')
  {
    var p := EnsurePath(pre, a, None);
    var ar := Put(p.vals[a], n, Empty());
    EnsurePathAspect(pre, a, None, a', n');
    PutSubjectAspect(p, a, ar, a', n');
    PlaceAllFrame(Put(p, a, ar), a, n, planets, 0, rec, a', n');
  }

  /** `pre_planet_a`'s loop: aspects missing at the start, each named once,
      are recorded whole. */
  lemma {:induction false} PreAspectsGrows(p: PreMap, q: PreMap, a: Body, aspects: Buckets, i: nat,
                                           iter: AspectMap, other: AspectMap, rec: Record)
    requires Grows(p, q, iter, other, rec)
    requires forall j :: i <= j < |aspects.keys| ==> !HasAspect(q, a, aspects.keys[j])
    requires forall k, b :: k in aspects.vals && b in aspects.vals[k] ==>
               InSet(iter, a, k, b) && !InSet(other, a, k, b)
    ensures Grows(p, PreAspects(q, a, aspects, i, rec), iter, other, rec)
    decreases |aspects.keys| - i
  {
    if i < |aspects.keys| {
      var n := aspects.keys[i];
      var next := PreAspectOf(q, a, n, aspects.vals[n], rec);
      PreAspectGrows(q, a, n, aspects.vals[n], iter, other, rec);
      GrowsTrans(p, q, next, iter, other, rec);
      forall j | i + 1 <= j < |aspects.keys| ensures !HasAspect(next, a, aspects.keys[j]) {
        PreAspectFrame(q, a, n, aspects.vals[n], rec, a, aspects.keys[j]);
      }
      PreAspectsGrows(p, next, a, aspects, i + 1, iter, other, rec);
    }
  }

  /** `pre_planet_a` on a subject missing at the start, which the other set
      lacks, records every entry of the subject, and nothing else. */
  lemma PrePlanetAGrows(pre: PreMap, a: Body, iter: AspectMap, other: AspectMap, rec: Record)
    requires a !in pre.vals && a in iter.vals && a !in other.vals
    ensures Grows(pre, PrePlanetAOf(pre, a, iter.vals[a], rec), iter, other, rec)
  {
    var aspects := iter.vals[a];
    var q := Put(pre, a, Empty());
    forall a', n', b' | HasLeaf(pre, a', n', b')
      ensures HasLeaf(q, a', n', b') && Leaf(q, a', n', b') == Leaf(pre, a', n', b')
    {
      PutSubjectLeaf(pre, a, Empty(), a', n', b');
      PutSubjectValue(pre, a, Empty(), a', n', b');
    }
    forall a', n', b' | HasLeaf(q, a', n', b') ensures HasLeaf(pre, a', n', b') {
      PutSubjectLeaf(pre, a, Empty(), a', n', b');
    }
    forall j | 0 <= j < |aspects.keys| ensures !HasAspect(q, a, aspects.keys[j]) {
      PutSubjectAspect(pre, a, Empty(), a, aspects.keys[j]);
    }
    PreAspectsGrows(pre, q, a, aspects, 0, iter, other, rec);
  }

  /** The partner loop records justified partners only. */
  lemma {:induction false} PartnerLoopGrows(p: PreMap, q: PreMap, a: Body, n: string, planets: seq<Body>, k: nat,
                                            iter: AspectMap, other: AspectMap, rec: Record)
    requires Grows(p, q, iter, other, rec)
    requires forall b :: b in planets ==> InSet(iter, a, n, b)
    ensures Grows(p, PartnerLoop(q, a, n, planets, k, other, rec), iter, other, rec)
    decreases |planets| - k
  {
    if k < |planets| {
      var b := planets[k];
      if !HasLeaf(q, a, n, b) && !AspectsContains(other, a, Some(n), Some(b)) {
        PlaceLeafGrows(p, q, a, n, b, iter, other, rec);
      }
      PartnerLoopGrows(p, PartnerStep(q, a, n, b, other, rec), a, n, planets, k + 1, iter, other, rec);
    }
  }

  /** The aspect loop of one subject records justified entries only. */
  lemma {:induction false} AspectLoopGrows(p: PreMap, q: PreMap, a: Body, j: nat, iter: AspectMap,
                                           other: AspectMap, rec: Record)
    requires Grows(p, q, iter, other, rec) && a in iter.vals
    ensures Grows(p, AspectLoop(q, a, iter.vals[a], j, other, rec), iter, other, rec)
    decreases |iter.vals[a].keys| - j
  {
    var aspects := iter.vals[a];
    if j < |aspects.keys| {
      var n := aspects.keys[j];
      AspectStepGrows(p, q, a, n, iter, other, rec);
      AspectLoopGrows(p, AspectStep(q, a, n, aspects.vals[n], other, rec), a, j + 1, iter, other, rec);
    }
  }

  /** One aspect of one subject records justified entries only. */
  lemma AspectStepGrows(p: PreMap, q: PreMap, a: Body, n: string, iter: AspectMap, other: AspectMap, rec: Record)
    requires Grows(p, q, iter, other, rec) && a in iter.vals && n in iter.vals[a].vals
    ensures Grows(p, AspectStep(q, a, n, iter.vals[a].vals[n], other, rec), iter, other, rec)
  {
    var planets := iter.vals[a].vals[n];
    if HasAspect(q, a, n) {
    } else if !AspectsContains(other, a, Some(n), None) {
      PreAspectGrows(q, a, n, planets, iter, other, rec);
      GrowsTrans(p, q, PreAspectOf(q, a, n, planets, rec), iter, other, rec);
    } else {
      PartnerLoopGrows(p, q, a, n, planets, 0, iter, other, rec);
    }
  }

  /** One subject of the iterated set records justified entries only. */
  lemma VisitGrows(pre: PreMap, a: Body, iter: AspectMap, other: AspectMap, rec: Record)
    requires a in iter.vals
    ensures Grows(pre, Visit(pre, a, iter.vals[a], other, rec), iter, other, rec)
  {
    if a !in pre.vals && !AspectsContains(other, a, None, None) {
      PrePlanetAGrows(pre, a, iter, other, rec);
    } else {
      AspectLoopGrows(pre, pre, a, 0, iter, other, rec);
    }
  }

  lemma {:induction false} SubjectsGrows(p: PreMap, q: PreMap, iter: AspectMap, i: nat, other: AspectMap,
                                         rec: Record)
    requires Grows(p, q, iter, other, rec)
    ensures Grows(p, Subjects(q, iter, i, other, rec), iter, other, rec)
    decreases |iter.keys| - i
  {
    if i < |iter.keys| {
      var a := iter.keys[i];
      var next := Visit(q, a, iter.vals[a], other, rec);
      VisitGrows(q, a, iter, other, rec);
      GrowsTrans(p, q, next, iter, other, rec);
      SubjectsGrows(p, next, iter, i + 1, other, rec);
    }
  }

  /** One day of a pass: no record is removed or changed, and every new
      record carries the day's `rec` and names an entry of the iterated set
      that the other set lacks. */
  lemma DayGrows(pre: PreMap, iter: AspectMap, other: AspectMap, rec: Record)
    ensures Grows(pre, DayOf(pre, iter, other, rec), iter, other, rec)
  {
    SubjectsGrows(pre, pre, iter, 0, other, rec);
  }

  // ---------------------------------------------------------------------
  // One day of a pass: writes happen only under missing aspect levels, and
  // every entry that the day finds changed ends with its aspect level made

  /** From `p` to `q` no aspect level disappears. */
  ghost predicate AspectsKept(p: PreMap, q: PreMap) {
    forall a, n :: HasAspect(p, a, n) ==> HasAspect(q, a, n)
  }

  /** From `p` to `q` no aspect level disappears, and no partner is recorded
      under an aspect level that `p` already had. */
  ghost predicate Settled(p: PreMap, q: PreMap) {
    AspectsKept(p, q)
    && forall a, n, b :: HasAspect(p, a, n) && HasLeaf(q, a, n, b) ==> HasLeaf(p, a, n, b)
  }

  /** Every partner of aspect `n` of subject `a` that the other set lacks
      has its aspect level made. */
  ghost predicate LevelMade(pre: PreMap, a: Body, n: string, planets: seq<Body>, other: AspectMap) {
    forall b :: b in planets && !InSet(other, a, n, b) ==> HasAspect(pre, a, n)
  }

  /** `LevelMade` for every aspect of subject `a`. */
  ghost predicate CoversSubject(pre: PreMap, a: Body, aspects: Buckets, other: AspectMap) {
    forall n :: n in aspects.vals ==> LevelMade(pre, a, n, aspects.vals[n], other)
  }

  /** Every entry of the iterated set that the other set lacks has its
      aspect level made. */
  ghost predicate Covers(pre: PreMap, iter: AspectMap, other: AspectMap) {
    forall a, n, b :: InSet(iter, a, n, b) && !InSet(other, a, n, b) ==> HasAspect(pre, a, n)
  }

  lemma SettledTrans(p: PreMap, q: PreMap, r: PreMap)
    requires Settled(p, q) && Settled(q, r)
    ensures Settled(p, r)
  {
  }

  lemma PlaceLeafSettled(p: PreMap, q: PreMap, a: Body, n: string, b: Body, rec: Record)
    requires Settled(p, q) && !HasAspect(p, a, n)
    ensures Settled(p, PlaceLeaf(q, a, n, b, rec))
  {
    var r := PlaceLeaf(q, a, n, b, rec);
    forall a', n' | HasAspect(p, a', n') ensures HasAspect(r, a', n') {
      PlaceLeafAspect(q, a, n, b, rec, a', n');
    }
    forall a', n', b' | HasAspect(p, a', n') && HasLeaf(r, a', n', b') ensures HasLeaf(p, a', n', b') {
      PlaceLeafLeaf(q, a, n, b, rec, a', n', b');
    }
  }

  lemma {:induction false} PlaceAllSettled(p: PreMap, q: PreMap, a: Body, n: string, planets: seq<Body>, i: nat,
                                           rec: Record)
    requires Settled(p, q) && !HasAspect(p, a, n)
    ensures Settled(p, PlaceAll(q, a, n, planets, i, rec))
    decreases |planets| - i
  {
    if i < |planets| {
      PlaceLeafSettled(p, q, a, n, planets[i], rec);
      PlaceAllSettled(p, PlaceLeaf(q, a, n, planets[i], rec), a, n, planets, i + 1, rec);
    }
  }

  /** Recording partners never removes an aspect level. */
  lemma {:induction false} PlaceAllKeeps(pre: PreMap, a: Body, n: string, planets: seq<Body>, i: nat, rec: Record)
    ensures AspectsKept(pre, PlaceAll(pre, a, n, planets, i, rec))
    decreases |planets| - i
  {
    if i < |planets| {
      var next := PlaceLeaf(pre, a, n, planets[i], rec);
      forall a', n' | HasAspect(pre, a', n') ensures HasAspect(next, a', n') {
        PlaceLeafAspect(pre, a, n, planets[i], rec, a', n');
      }
      PlaceAllKeeps(next, a, n, planets, i + 1, rec);
    }
  }

  /** The fresh aspect level that `pre_aspect` makes before its loop keeps
      every level and records no partner. */
  lemma FreshSettled(pre: PreMap, a: Body, n: string)
    requires !HasAspect(pre, a, n)
    ensures Settled(pre, Put(EnsurePath(pre, a, None), a, Put(EnsurePath(pre, a, None).vals[a], n, Empty())))
  {
    var p := EnsurePath(pre, a, None);
    var ar := Put(p.vals[a], n, Empty());
    var q := Put(p, a, ar);
    EnsurePathAspect(pre, a, None, a, n);
    forall a', n' | HasAspect(pre, a', n') ensures HasAspect(q, a', n') {
      EnsurePathAspect(pre, a, None, a', n');
      PutSubjectAspect(p, a, ar, a', n');
    }
    forall a', n', b' | HasLeaf(q, a', n', b') ensures HasLeaf(pre, a', n', b') {
      EnsurePathLeaf(pre, a, None, a', n', b');
      PutSubjectLeaf(p, a, ar, a', n', b');
      PutEmptyIn(p.vals[a], n, n', b');
    }
  }

  /** `pre_aspect` on a missing aspect level writes only under that level. */
  lemma PreAspectSettled(pre: PreMap, a: Body, n: string, planets: seq<Body>, rec: Record)
    requires !HasAspect(pre, a, n)
    ensures Settled(pre, PreAspectOf(pre, a, n, planets, rec))
  {
    var p := EnsurePath(pre, a, None);
    FreshSettled(pre, a, n);
    PlaceAllSettled(pre, Put(p, a, Put(p.vals[a], n, Empty())), a, n, planets, 0, rec);
  }

  /** `pre_aspect` leaves its aspect level made. */
  lemma PreAspectHas(pre: PreMap, a: Body, n: string, planets: seq<Body>, rec: Record)
    ensures HasAspect(PreAspectOf(pre, a, n, planets, rec), a, n)
  {
    var p := EnsurePath(pre, a, None);
    var ar := Put(p.vals[a], n, Empty());
    PutSubjectAspect(p, a, ar, a, n);
    PlaceAllKeeps(Put(p, a, ar), a, n, planets, 0, rec);
  }

  lemma {:induction false} PreAspectsSettled(p: PreMap, q: PreMap, a: Body, aspects: Buckets, i: nat, rec: Record)
    requires Settled(p, q)
    requires forall j :: i <= j < |aspects.keys| ==> !HasAspect(q, a, aspects.keys[j])
    ensures Settled(p, PreAspects(q, a, aspects, i, rec))
    decreases |aspects.keys| - i
  {
    if i < |aspects.keys| {
      var n := aspects.keys[i];
      var next := PreAspectOf(q, a, n, aspects.vals[n], rec);
      PreAspectSettled(q, a, n, aspects.vals[n], rec);
      SettledTrans(p, q, next);
      forall j | i + 1 <= j < |aspects.keys| ensures !HasAspect(next, a, aspects.keys[j]) {
        PreAspectFrame(q, a, n, aspects.vals[n], rec, a, aspects.keys[j]);
      }
      PreAspectsSettled(p, next, a, aspects, i + 1, rec);
    }
  }

  /** The loop of `pre_planet_a` leaves every aspect level of the subject
      made. */
  lemma {:induction false} PreAspectsHas(q: PreMap, a: Body, aspects: Buckets, i: nat, rec: Record)
    requires i <= |aspects.keys|
    requires forall j :: 0 <= j < i ==> HasAspect(q, a, aspects.keys[j])
    ensures forall n :: n in aspects.vals ==> HasAspect(PreAspects(q, a, aspects, i, rec), a, n)
    decreases |aspects.keys| - i
  {
    if i < |aspects.keys| {
      var n := aspects.keys[i];
      var next := PreAspectOf(q, a, n, aspects.vals[n], rec);
      PreAspectHas(q, a, n, aspects.vals[n], rec);
      forall j | 0 <= j < i ensures HasAspect(next, a, aspects.keys[j]) {
        PreAspectFrame(q, a, n, aspects.vals[n], rec, a, aspects.keys[j]);
      }
      PreAspectsHas(next, a, aspects, i + 1, rec);
    } else {
      forall n | n in aspects.vals ensures HasAspect(q, a, n) {
        var j :| 0 <= j < |aspects.keys| && aspects.keys[j] == n;
      }
    }
  }

  /** `pre_planet_a` on a missing subject writes only under that subject and
      makes every one of its aspect levels. */
  lemma PrePlanetASettled(pre: PreMap, a: Body, aspects: Buckets, rec: Record)
    requires a !in pre.vals
    ensures Settled(pre, PrePlanetAOf(pre, a, aspects, rec))
    ensures forall n :: n in aspects.vals ==> HasAspect(PrePlanetAOf(pre, a, aspects, rec), a, n)
  {
    var q := Put(pre, a, Empty());
    forall a', n' | HasAspect(pre, a', n') ensures HasAspect(q, a', n') {
      PutSubjectAspect(pre, a, Empty(), a', n');
    }
    forall a', n', b' | HasLeaf(q, a', n', b') ensures HasLeaf(pre, a', n', b') {
      PutSubjectLeaf(pre, a, Empty(), a', n', b');
    }
    forall j | 0 <= j < |aspects.keys| ensures !HasAspect(q, a, aspects.keys[j]) {
      PutSubjectAspect(pre, a, Empty(), a, aspects.keys[j]);
    }
    PreAspectsSettled(pre, q, a, aspects, 0, rec);
    PreAspectsHas(q, a, aspects, 0, rec);
  }

  lemma {:induction false} PartnerLoopSettled(p: PreMap, q: PreMap, a: Body, n: string, planets: seq<Body>, k: nat,
                                              other: AspectMap, rec: Record)
    requires Settled(p, q) && !HasAspect(p, a, n)
    ensures Settled(p, PartnerLoop(q, a, n, planets, k, other, rec))
    decreases |planets| - k
  {
    if k < |planets| {
      var b := planets[k];
      if !HasLeaf(q, a, n, b) && !AspectsContains(other, a, Some(n), Some(b)) {
        PlaceLeafSettled(p, q, a, n, b, rec);
      }
      PartnerLoopSettled(p, PartnerStep(q, a, n, b, other, rec), a, n, planets, k + 1, other, rec);
    }
  }

  /** After the partner loop the aspect level is made if it was made before
      or if some partner looked at is missing from the other set. */
  lemma {:induction false} PartnerLoopHas(q: PreMap, a: Body, n: string, planets: seq<Body>, k: nat,
                                          other: AspectMap, rec: Record)
    requires k <= |planets|
    ensures HasAspect(q, a, n) ==> HasAspect(PartnerLoop(q, a, n, planets, k, other, rec), a, n)
    ensures LevelMade(PartnerLoop(q, a, n, planets, k, other, rec), a, n, planets[k..], other)
    decreases |planets| - k
  {
    if k < |planets| {
      var b := planets[k];
      PlaceLeafAspect(q, a, n, b, rec, a, n);
      var next := PartnerStep(q, a, n, b, other, rec);
      assert !InSet(other, a, n, b) ==> HasAspect(next, a, n);
      PartnerLoopHas(next, a, n, planets, k + 1, other, rec);
      assert forall c :: c in planets[k..] ==> c == b || c in planets[k + 1..];
    }
  }

  /** One aspect of the aspect loop writes only under a missing level and
      leaves its level made when a partner is missing from the other set. */
  lemma AspectStepSettled(q: PreMap, a: Body, n: string, planets: seq<Body>, other: AspectMap, rec: Record)
    ensures Settled(q, AspectStep(q, a, n, planets, other, rec))
    ensures LevelMade(AspectStep(q, a, n, planets, other, rec), a, n, planets, other)
  {
    if HasAspect(q, a, n) {
    } else if !AspectsContains(other, a, Some(n), None) {
      PreAspectSettled(q, a, n, planets, rec);
      PreAspectHas(q, a, n, planets, rec);
    } else {
      PartnerLoopSettled(q, q, a, n, planets, 0, other, rec);
      PartnerLoopHas(q, a, n, planets, 0, other, rec);
      assert planets[0..] == planets;
    }
  }

  /** A made aspect level stays made when no aspect level disappears. */
  lemma LevelKept(p: PreMap, q: PreMap, a: Body, n: string, planets: seq<Body>, other: AspectMap)
    requires AspectsKept(p, q) && LevelMade(p, a, n, planets, other)
    ensures LevelMade(q, a, n, planets, other)
  {
    if exists b :: b in planets && !InSet(other, a, n, b) {
      assert HasAspect(p, a, n);
    }
  }

  /** One aspect of the aspect loop keeps every level and leaves its own
      level made when a partner is missing from the other set. */
  lemma AspectStepLevel(q: PreMap, a: Body, n: string, planets: seq<Body>, other: AspectMap, rec: Record)
    ensures AspectsKept(q, AspectStep(q, a, n, planets, other, rec))
    ensures LevelMade(AspectStep(q, a, n, planets, other, rec), a, n, planets, other)
  {
    AspectStepSettled(q, a, n, planets, other, rec);
  }

  lemma {:induction false} AspectLoopSettled(p: PreMap, q: PreMap, a: Body, aspects: Buckets, j: nat,
                                             other: AspectMap, rec: Record)
    requires Settled(p, q)
    ensures Settled(p, AspectLoop(q, a, aspects, j, other, rec))
    decreases |aspects.keys| - j
  {
    if j < |aspects.keys| {
      var n := aspects.keys[j];
      var next := AspectStep(q, a, n, aspects.vals[n], other, rec);
      AspectStepSettled(q, a, n, aspects.vals[n], other, rec);
      SettledTrans(p, q, next);
      AspectLoopSettled(p, next, a, aspects, j + 1, other, rec);
    }
  }

  lemma {:induction false} AspectLoopCovers(q: PreMap, a: Body, aspects: Buckets, j: nat, other: AspectMap,
                                            rec: Record)
    requires j <= |aspects.keys|
    requires forall i :: 0 <= i < j ==> LevelMade(q, a, aspects.keys[i], aspects.vals[aspects.keys[i]], other)
    ensures CoversSubject(AspectLoop(q, a, aspects, j, other, rec), a, aspects, other)
    decreases |aspects.keys| - j
  {
    if j < |aspects.keys| {
      var n := aspects.keys[j];
      var next := AspectStep(q, a, n, aspects.vals[n], other, rec);
      AspectStepLevel(q, a, n, aspects.vals[n], other, rec);
      forall i | 0 <= i < j ensures LevelMade(next, a, aspects.keys[i], aspects.vals[aspects.keys[i]], other) {
        LevelKept(q, next, a, aspects.keys[i], aspects.vals[aspects.keys[i]], other);
      }
      AspectLoopCovers(next, a, aspects, j + 1, other, rec);
    } else {
      LevelsCover(q, a, aspects, other);
    }
  }

  /** When every aspect in the key order has its level made, the subject is
      covered. */
  lemma LevelsCover(q: PreMap, a: Body, aspects: Buckets, other: AspectMap)
    requires forall i :: 0 <= i < |aspects.keys| ==> LevelMade(q, a, aspects.keys[i], aspects.vals[aspects.keys[i]], other)
    ensures CoversSubject(q, a, aspects, other)
  {
    forall n | n in aspects.vals ensures LevelMade(q, a, n, aspects.vals[n], other) {
      var i :| 0 <= i < |aspects.keys| && aspects.keys[i] == n;
    }
  }

  /** One subject writes only under missing aspect levels and covers the
      subject's entries that the other set lacks. */
  lemma VisitSettled(q: PreMap, a: Body, aspects: Buckets, other: AspectMap, rec: Record)
    ensures Settled(q, Visit(q, a, aspects, other, rec))
    ensures CoversSubject(Visit(q, a, aspects, other, rec), a, aspects, other)
  {
    if a !in q.vals && !AspectsContains(other, a, None, None) {
      PrePlanetASettled(q, a, aspects, rec);
      var r := PrePlanetAOf(q, a, aspects, rec);
      forall n | n in aspects.vals ensures LevelMade(r, a, n, aspects.vals[n], other) {
        assert HasAspect(r, a, n);
      }
    } else {
      AspectLoopSettled(q, q, a, aspects, 0, other, rec);
      AspectLoopCovers(q, a, aspects, 0, other, rec);
    }
  }

  /** What a subject covers stays covered when no aspect level disappears. */
  lemma CoversKept(p: PreMap, q: PreMap, a: Body, aspects: Buckets, other: AspectMap)
    requires AspectsKept(p, q) && CoversSubject(p, a, aspects, other)
    ensures CoversSubject(q, a, aspects, other)
  {
    forall n | n in aspects.vals ensures LevelMade(q, a, n, aspects.vals[n], other) {
      LevelKept(p, q, a, n, aspects.vals[n], other);
    }
  }

  lemma {:induction false} SubjectsSettled(p: PreMap, q: PreMap, iter: AspectMap, i: nat, other: AspectMap,
                                           rec: Record)
    requires Settled(p, q) && i <= |iter.keys|
    requires forall j :: 0 <= j < i ==> CoversSubject(q, iter.keys[j], iter.vals[iter.keys[j]], other)
    ensures Settled(p, Subjects(q, iter, i, other, rec))
    ensures Covers(Subjects(q, iter, i, other, rec), iter, other)
    decreases |iter.keys| - i
  {
    if i < |iter.keys| {
      var a := iter.keys[i];
      var next := Visit(q, a, iter.vals[a], other, rec);
      VisitSettled(q, a, iter.vals[a], other, rec);
      SettledTrans(p, q, next);
      forall j | 0 <= j < i ensures CoversSubject(next, iter.keys[j], iter.vals[iter.keys[j]], other) {
        CoversKept(q, next, iter.keys[j], iter.vals[iter.keys[j]], other);
      }
      SubjectsSettled(p, next, iter, i + 1, other, rec);
    } else {
      forall a, n, b | InSet(iter, a, n, b) && !InSet(other, a, n, b) ensures HasAspect(q, a, n) {
        var j :| 0 <= j < |iter.keys| && iter.keys[j] == a;
        assert LevelMade(q, a, n, iter.vals[a].vals[n], other);
      }
    }
  }

  /** One day of a pass writes only under aspect levels missing at its
      start, keeps every level, and ends with the aspect level of every
      entry of the iterated set that the other set lacks made. */
  lemma DaySettled(pre: PreMap, iter: AspectMap, other: AspectMap, rec: Record)
    ensures Settled(pre, DayOf(pre, iter, other, rec))
    ensures Covers(DayOf(pre, iter, other, rec), iter, other)
  {
    SubjectsSettled(pre, pre, iter, 0, other, rec);
  }

  // ---------------------------------------------------------------------
  // The scan as it runs: the shared dictionary and its helpers

  /** The `pre_transits` dictionary that the helper closures of
      `get_aspect_transits` share and write in place. */
  class Recorder {
    var pre: PreMap

    constructor()
      ensures pre == Empty()
    {
      pre := Empty();
    }

    /** `ensure_pre_path`. */
    method EnsurePrePath(a: Body, aspect: Option<string>)
      modifies this
      ensures pre == EnsurePath(old(pre), a, aspect)
    {
      if a !in pre.vals {
        pre := Put(pre, a, Empty());
      }
      if aspect.Some? && aspect.value !in pre.vals[a].vals {
        pre := Put(pre, a, Put(pre.vals[a], aspect.value, Empty()));
      }
    }

    /** `pre_planet_b`. */
    method PrePlanetB(a: Body, n: string, b: Body, dateFuture: int, direction: Direction)
      modifies this
      ensures pre == PlaceLeaf(old(pre), a, n, b, Record(dateFuture, direction))
    {
      EnsurePrePath(a, Some(n));
      pre := Put(pre, a, Put(pre.vals[a], n, Put(pre.vals[a].vals[n], b, Record(dateFuture, direction))));
    }

    /** `pre_aspect`. */
    method PreAspect(a: Body, n: string, planets: seq<Body>, dateFuture: int, direction: Direction)
      modifies this
      ensures pre == PreAspectOf(old(pre), a, n, planets, Record(dateFuture, direction))
    {
      EnsurePrePath(a, None);
      pre := Put(pre, a, Put(pre.vals[a], n, Empty()));
      ghost var start := pre;
      for i := 0 to |planets|
        invariant PlaceAll(start, a, n, planets, 0, Record(dateFuture, direction))
               == PlaceAll(pre, a, n, planets, i, Record(dateFuture, direction))
      {
        PrePlanetB(a, n, planets[i], dateFuture, direction);
      }
    }

    /** `pre_planet_a`. */
    method PrePlanetA(a: Body, aspects: Buckets, dateFuture: int, direction: Direction)
      modifies this
      ensures pre == PrePlanetAOf(old(pre), a, aspects, Record(dateFuture, direction))
    {
      ghost var rec := Record(dateFuture, direction);
      pre := Put(pre, a, Empty());
      ghost var start := pre;
      for i := 0 to |aspects.keys|
        invariant PreAspects(start, a, aspects, 0, rec) == PreAspects(pre, a, aspects, i, rec)
      {
        var n := aspects.keys[i];
        ghost var before := pre;
        PreAspect(a, n, aspects.vals[n], dateFuture, direction);
        assert PreAspects(before, a, aspects, i, rec) == PreAspects(pre, a, aspects, i + 1, rec);
      }
    }

    /** The body of either pass's day loop: every subject of `iter`, looked
        up in `other`. */
    method ScanPassDay(iter: AspectMap, other: AspectMap, dateFuture: int, direction: Direction)
      modifies this
      ensures pre == DayOf(old(pre), iter, other, Record(dateFuture, direction))
    {
      ghost var start := pre;
      for i := 0 to |iter.keys|
        invariant DayOf(start, iter, other, Record(dateFuture, direction))
               == Subjects(pre, iter, i, other, Record(dateFuture, direction))
      {
        var a := iter.keys[i];
        ScanSubject(a, iter.vals[a], other, dateFuture, direction);
      }
    }

    /** One subject: recorded whole when it is new and `other` lacks it,
        otherwise aspect by aspect. */
    method ScanSubject(a: Body, aspects: Buckets, other: AspectMap, dateFuture: int, direction: Direction)
      modifies this
      ensures pre == Visit(old(pre), a, aspects, other, Record(dateFuture, direction))
    {
      if a !in pre.vals && !AspectsContains(other, a, None, None) {
        PrePlanetA(a, aspects, dateFuture, direction);
        return;
      }
      ghost var start := pre;
      for j := 0 to |aspects.keys|
        invariant AspectLoop(start, a, aspects, 0, other, Record(dateFuture, direction))
               == AspectLoop(pre, a, aspects, j, other, Record(dateFuture, direction))
      {
        var n := aspects.keys[j];
        if !HasAspect(pre, a, n) {
          if !AspectsContains(other, a, Some(n), None) {
            PreAspect(a, n, aspects.vals[n], dateFuture, direction);
          } else {
            ScanPartners(a, n, aspects.vals[n], other, dateFuture, direction);
          }
        }
      }
    }

    /** The partners of one aspect whose aspect level was missing. */
    method ScanPartners(a: Body, n: string, planets: seq<Body>, other: AspectMap, dateFuture: int,
                        direction: Direction)
      modifies this
      ensures pre == PartnerLoop(old(pre), a, n, planets, 0, other, Record(dateFuture, direction))
    {
      ghost var start := pre;
      for k := 0 to |planets|
        invariant PartnerLoop(start, a, n, planets, 0, other, Record(dateFuture, direction))
               == PartnerLoop(pre, a, n, planets, k, other, Record(dateFuture, direction))
      {
        VisitPartner(a, n, planets[k], other, dateFuture, direction);
      }
    }

    /** One partner: recorded when its record is missing and `other` lacks it. */
    method VisitPartner(a: Body, n: string, b: Body, other: AspectMap, dateFuture: int, direction: Direction)
      modifies this
      ensures pre == PartnerStep(old(pre), a, n, b, other, Record(dateFuture, direction))
    {
      if !HasLeaf(pre, a, n, b) && !AspectsContains(other, a, Some(n), Some(b)) {
        PrePlanetB(a, n, b, dateFuture, direction);
      }
    }
  }
}
