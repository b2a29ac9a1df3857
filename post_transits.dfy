/** The last stage of the aspect-transit scan: the records kept per subject,
    aspect and partner are regrouped per subject, direction, date and aspect,
    each partner appended to the list its record points at. */
module PostTransits {
  import opened Dicts
  import opened Sky
  import opened PreTransits
  import opened Text

  /** Aspect name to the partners filed under it. */
  type ByAspect = Dict<string, seq<Body>>
  /** Day to the aspects that change on it. */
  type ByDate = Dict<int, ByAspect>
  /** Direction to the days on which aspects exit or enter. */
  type ByDirection = Dict<Direction, ByDate>
  /** `post_transits`: subject to its regrouped records. */
  type PostMap = Dict<Body, ByDirection>

  // ---------------------------------------------------------------------
  // Reading a list, level by level; a missing level reads as no partners

  function ListInDate(am: ByAspect, n: string): seq<Body> {
    if n in am.vals then am.vals[n] else []
  }

  function ListInDir(dd: ByDate, date: int, n: string): seq<Body> {
    if date in dd.vals then ListInDate(dd.vals[date], n) else []
  }

  function ListOf(dm: ByDirection, dir: Direction, date: int, n: string): seq<Body> {
    if dir in dm.vals then ListInDir(dm.vals[dir], date, n) else []
  }

  // ---------------------------------------------------------------------
  // Filing one record

  function AddToAspects(am: ByAspect, n: string, b: Body): ByAspect {
    Put(am, n, ListInDate(am, n) + [b])
  }

  function AddToDates(dd: ByDate, date: int, n: string, b: Body): ByDate {
    Put(dd, date, AddToAspects(if date in dd.vals then dd.vals[date] else Empty(), n, b))
  }

  /** Partner `b` of aspect `n` with record `r` appended under its direction,
      its date and `n`, each level created when missing. */
  function AddLeaf(dm: ByDirection, n: string, b: Body, r: Record): ByDirection {
    Put(dm, r.direction, AddToDates(if r.direction in dm.vals then dm.vals[r.direction] else Empty(), r.date, n, b))
  }

  lemma AddToAspectsList(am: ByAspect, n: string, b: Body, n': string)
    ensures ListInDate(AddToAspects(am, n, b), n') == ListInDate(am, n') + (if n' == n then [b] else [])
  {
  }

  lemma AddToDatesList(dd: ByDate, date: int, n: string, b: Body, date': int, n': string)
    ensures ListInDir(AddToDates(dd, date, n, b), date', n')
         == ListInDir(dd, date', n') + (if date' == date && n' == n then [b] else [])
  {
    if date' == date {
      AddToAspectsList(if date in dd.vals then dd.vals[date] else Empty(), n, b, n');
    }
  }

  /** Filing a record appends its partner to exactly one list. */
  lemma AddLeafList(dm: ByDirection, n: string, b: Body, r: Record, dir': Direction, date': int, n': string)
    ensures ListOf(AddLeaf(dm, n, b, r), dir', date', n')
         == ListOf(dm, dir', date', n') + (if dir' == r.direction && date' == r.date && n' == n then [b] else [])
  {
    if dir' == r.direction {
      AddToDatesList(if r.direction in dm.vals then dm.vals[r.direction] else Empty(), r.date, n, b, date', n');
    }
  }

  // ---------------------------------------------------------------------
  // The regrouping, on values

  /** The partners of aspect `n` from index `k` on. */
  function PivotPartners(dm: ByDirection, n: string, ps: Partners, k: nat): ByDirection
    decreases |ps.keys| - k
  {
    if k < |ps.keys| then
      var b := ps.keys[k];
      PivotPartners(AddLeaf(dm, n, b, ps.vals[b]), n, ps, k + 1)
    else dm
  }

  /** The aspects of one subject from index `j` on. */
  function PivotAspects(dm: ByDirection, ar: AspectRecords, j: nat): ByDirection
    decreases |ar.keys| - j
  {
    if j < |ar.keys| then
      var n := ar.keys[j];
      PivotAspects(PivotPartners(dm, n, ar.vals[n], 0), ar, j + 1)
    else dm
  }

  /** The subjects from index `i` on, each starting from an empty entry. */
  function PivotAll(post: PostMap, pre: PreMap, i: nat): PostMap
    decreases |pre.keys| - i
  {
    if i < |pre.keys| then
      var a := pre.keys[i];
      PivotAll(Put(post, a, PivotAspects(Empty(), pre.vals[a], 0)), pre, i + 1)
    else post
  }

  function PivotOf(pre: PreMap): PostMap {
    PivotAll(Empty(), pre, 0)
  }

  // ---------------------------------------------------------------------
  // What the regrouping holds

  /** The partners from index `k` on whose record is `(date, dir)`, in order. */
  function Matching(ps: Partners, k: nat, dir: Direction, date: int): seq<Body>
    decreases |ps.keys| - k
  {
    if k < |ps.keys| then
      var b := ps.keys[k];
      (if ps.vals[b] == Record(date, dir) then [b] else []) + Matching(ps, k + 1, dir, date)
    else []
  }

  /** The matching partners of aspect `n`, if `n` is among the aspects from
      index `j` on. */
  function AspectMatches(ar: AspectRecords, j: nat, n: string, dir: Direction, date: int): seq<Body>
    decreases |ar.keys| - j
  {
    if j < |ar.keys| then
      var m := ar.keys[j];
      (if m == n then Matching(ar.vals[m], 0, dir, date) else []) + AspectMatches(ar, j + 1, n, dir, date)
    else []
  }

  /** The list `post[a][dir][date][n]` ought to be: the partners of `(a, n)`
      whose record is `(date, dir)`, in the order they were recorded. */
  function PostList(pre: PreMap, a: Body, dir: Direction, date: int, n: string): seq<Body> {
    if a in pre.vals && n in pre.vals[a].vals then Matching(pre.vals[a].vals[n], 0, dir, date) else []
  }

  lemma {:induction false} MatchingMembers(ps: Partners, k: nat, dir: Direction, date: int, b: Body)
    ensures b in Matching(ps, k, dir, date) <==>
              (exists i :: k <= i < |ps.keys| && ps.keys[i] == b) && b in ps.vals && ps.vals[b] == Record(date, dir)
    decreases |ps.keys| - k
  {
    if k < |ps.keys| {
      MatchingMembers(ps, k + 1, dir, date, b);
      if b == ps.keys[k] {
        assert k <= k < |ps.keys| && ps.keys[k] == b;
      } else {
        if exists i :: k <= i < |ps.keys| && ps.keys[i] == b {
          var i :| k <= i < |ps.keys| && ps.keys[i] == b;
          assert k + 1 <= i;
        }
      }
    }
  }

  lemma {:induction false} MatchingDistinct(ps: Partners, k: nat, dir: Direction, date: int)
    ensures Distinct(Matching(ps, k, dir, date))
    decreases |ps.keys| - k
  {
    if k < |ps.keys| {
      var b := ps.keys[k];
      var rest := Matching(ps, k + 1, dir, date);
      MatchingDistinct(ps, k + 1, dir, date);
      if ps.vals[b] == Record(date, dir) {
        MatchingMembers(ps, k + 1, dir, date, b);
        assert b !in rest;
        DistinctCons(b, rest);
      }
    }
  }

  lemma DistinctCons<K>(x: K, s: seq<K>)
    requires Distinct(s) && x !in s
    ensures Distinct([x] + s)
  {
    forall i, j | 0 <= i < j < |[x] + s| ensures ([x] + s)[i] != ([x] + s)[j] {
      if i == 0 {
        assert ([x] + s)[j] == s[j - 1];
      } else {
        assert ([x] + s)[i] == s[i - 1] && ([x] + s)[j] == s[j - 1];
      }
    }
  }

  /** A partner of `(a, n)` is filed under `(dir, date)` exactly when its
      record says so, and at most once. */
  lemma PostListSpec(pre: PreMap, a: Body, dir: Direction, date: int, n: string, b: Body)
    ensures (b in PostList(pre, a, dir, date, n) <==> HasLeaf(pre, a, n, b) && Leaf(pre, a, n, b) == Record(date, dir))
         && Distinct(PostList(pre, a, dir, date, n))
  {
    if a in pre.vals && n in pre.vals[a].vals {
      var ps := pre.vals[a].vals[n];
      MatchingMembers(ps, 0, dir, date, b);
      MatchingDistinct(ps, 0, dir, date);
      if b in ps.vals {
        assert b in ps.keys;
        var i :| 0 <= i < |ps.keys| && ps.keys[i] == b;
      }
    }
  }

  /** Filing the partners of `n` from index `k` on extends the lists of `n`
      by the matching partners, and no other list. */
  lemma {:induction false} PivotPartnersList(dm: ByDirection, n: string, ps: Partners, k: nat,
                                             dir: Direction, date: int, n': string)
    ensures ListOf(PivotPartners(dm, n, ps, k), dir, date, n')
         == ListOf(dm, dir, date, n') + (if n' == n then Matching(ps, k, dir, date) else [])
    decreases |ps.keys| - k
  {
    if k < |ps.keys| {
      var b := ps.keys[k];
      var next := AddLeaf(dm, n, b, ps.vals[b]);
      var found := if ps.vals[b] == Record(date, dir) then [b] else [];
      AddLeafList(dm, n, b, ps.vals[b], dir, date, n');
      PivotPartnersList(next, n, ps, k + 1, dir, date, n');
      if n' == n {
        assert Matching(ps, k, dir, date) == found + Matching(ps, k + 1, dir, date);
        AppendAssoc(ListOf(dm, dir, date, n'), found, Matching(ps, k + 1, dir, date));
      } else {
        assert ListOf(next, dir, date, n') == ListOf(dm, dir, date, n') + [];
      }
    }
  }

  lemma {:induction false} PivotAspectsList(dm: ByDirection, ar: AspectRecords, j: nat,
                                            dir: Direction, date: int, n: string)
    ensures ListOf(PivotAspects(dm, ar, j), dir, date, n) == ListOf(dm, dir, date, n) + AspectMatches(ar, j, n, dir, date)
    decreases |ar.keys| - j
  {
    if j < |ar.keys| {
      var m := ar.keys[j];
      var next := PivotPartners(dm, m, ar.vals[m], 0);
      var here := if m == n then Matching(ar.vals[m], 0, dir, date) else [];
      PivotPartnersList(dm, m, ar.vals[m], 0, dir, date, n);
      PivotAspectsList(next, ar, j + 1, dir, date, n);
      assert AspectMatches(ar, j, n, dir, date) == here + AspectMatches(ar, j + 1, n, dir, date);
      AppendAssoc(ListOf(dm, dir, date, n), here, AspectMatches(ar, j + 1, n, dir, date));
    }
  }

  /** An aspect absent from the indices `j` on contributes nothing. */
  lemma {:induction false} AspectMatchesAbsent(ar: AspectRecords, j: nat, n: string, dir: Direction, date: int)
    requires forall i :: j <= i < |ar.keys| ==> ar.keys[i] != n
    ensures AspectMatches(ar, j, n, dir, date) == []
    decreases |ar.keys| - j
  {
    if j < |ar.keys| {
      AspectMatchesAbsent(ar, j + 1, n, dir, date);
    }
  }

  /** Aspect names are distinct, so `n` contributes its matches once. */
  lemma {:induction false} AspectMatchesOnce(ar: AspectRecords, j: nat, n: string, dir: Direction, date: int)
    ensures AspectMatches(ar, j, n, dir, date)
         == if exists i :: j <= i < |ar.keys| && ar.keys[i] == n then Matching(ar.vals[n], 0, dir, date) else []
    decreases |ar.keys| - j
  {
    if j < |ar.keys| {
      AspectMatchesOnce(ar, j + 1, n, dir, date);
      if ar.keys[j] == n {
        AspectMatchesAbsent(ar, j + 1, n, dir, date);
      } else if exists i :: j <= i < |ar.keys| && ar.keys[i] == n {
        var i :| j <= i < |ar.keys| && ar.keys[i] == n;
        assert j + 1 <= i;
      }
    }
  }

  /** The entry of one subject holds exactly the lists its records call for. */
  lemma PivotSubjectList(ar: AspectRecords, dir: Direction, date: int, n: string)
    ensures ListOf(PivotAspects(Empty(), ar, 0), dir, date, n)
         == if n in ar.vals then Matching(ar.vals[n], 0, dir, date) else []
  {
    PivotAspectsList(Empty(), ar, 0, dir, date, n);
    AspectMatchesOnce(ar, 0, n, dir, date);
    if n in ar.vals {
      assert n in ar.keys;
    }
  }

  /** Subjects before index `i`, and subjects not in `pre`, are left alone. */
  lemma {:induction false} PivotAllFrame(post: PostMap, pre: PreMap, i: nat, a: Body)
    requires forall k :: i <= k < |pre.keys| ==> pre.keys[k] != a
    ensures a in PivotAll(post, pre, i).vals <==> a in post.vals
    ensures a in post.vals ==> PivotAll(post, pre, i).vals[a] == post.vals[a]
    decreases |pre.keys| - i
  {
    if i < |pre.keys| {
      var b := pre.keys[i];
      PivotAllFrame(Put(post, b, PivotAspects(Empty(), pre.vals[b], 0)), pre, i + 1, a);
    }
  }

  /** Each subject from index `i` on gets the regrouping of its own records. */
  lemma {:induction false} PivotAllValue(post: PostMap, pre: PreMap, i: nat, k: nat)
    requires i <= k < |pre.keys|
    ensures pre.keys[k] in PivotAll(post, pre, i).vals
         && PivotAll(post, pre, i).vals[pre.keys[k]] == PivotAspects(Empty(), pre.vals[pre.keys[k]], 0)
    decreases |pre.keys| - i
  {
    var a := pre.keys[i];
    var next := Put(post, a, PivotAspects(Empty(), pre.vals[a], 0));
    if i == k {
      PivotAllFrame(next, pre, i + 1, a);
    } else {
      PivotAllValue(next, pre, i + 1, k);
    }
  }

  /** The subjects keep their order: `post` lists the subjects of `pre`. */
  lemma {:induction false} PivotAllKeys(post: PostMap, pre: PreMap, i: nat)
    requires i <= |pre.keys| && post.keys == pre.keys[..i]
    ensures PivotAll(post, pre, i).keys == pre.keys
    decreases |pre.keys| - i
  {
    if i < |pre.keys| {
      var a := pre.keys[i];
      assert a !in post.vals by {
        forall j | 0 <= j < i ensures post.keys[j] != a {
          assert pre.keys[j] != pre.keys[i];
        }
      }
      assert pre.keys[..i + 1] == pre.keys[..i] + [a];
      PivotAllKeys(Put(post, a, PivotAspects(Empty(), pre.vals[a], 0)), pre, i + 1);
    } else {
      assert pre.keys[..i] == pre.keys;
    }
  }

  /** The regrouping: `post` has the subjects of `pre`, in order, and
      `post[a][dir][date][n]` lists, in order and once each, the partners `b`
      whose record `pre[a][n][b]` is `(date, dir)`; every other list is
      empty or missing. */
  lemma PivotSpec(pre: PreMap, a: Body, dir: Direction, date: int, n: string)
    ensures PivotOf(pre).keys == pre.keys
    ensures a in pre.vals ==> a in PivotOf(pre).vals && ListOf(PivotOf(pre).vals[a], dir, date, n) == PostList(pre, a, dir, date, n)
  {
    PivotAllKeys(Empty(), pre, 0);
    if a in pre.vals {
      assert a in pre.keys;
      var k :| 0 <= k < |pre.keys| && pre.keys[k] == a;
      PivotAllValue(Empty(), pre, 0, k);
      PivotSubjectList(pre.vals[a], dir, date, n);
    }
  }

  /** Every level present holds something: a direction at least one date,
      a date at least one aspect, an aspect at least one partner. A level is
      only created to file a partner under it. */
  ghost predicate FilledAspects(am: ByAspect) {
    forall n :: n in am.vals ==> am.vals[n] != []
  }

  ghost predicate FilledDates(dd: ByDate) {
    forall date :: date in dd.vals ==> dd.vals[date].keys != [] && FilledAspects(dd.vals[date])
  }

  ghost predicate Filled(dm: ByDirection) {
    forall dir :: dir in dm.vals ==> dm.vals[dir].keys != [] && FilledDates(dm.vals[dir])
  }

  ghost predicate AllFilled(post: PostMap) {
    forall a :: a in post.vals ==> Filled(post.vals[a])
  }

  lemma AddToDatesFilled(dd: ByDate, date: int, n: string, b: Body)
    requires FilledDates(dd)
    ensures FilledDates(AddToDates(dd, date, n, b))
  {
    var am := if date in dd.vals then dd.vals[date] else Empty();
    assert FilledAspects(AddToAspects(am, n, b));
  }

  lemma AddLeafFilled(dm: ByDirection, n: string, b: Body, r: Record)
    requires Filled(dm)
    ensures Filled(AddLeaf(dm, n, b, r))
  {
    AddToDatesFilled(if r.direction in dm.vals then dm.vals[r.direction] else Empty(), r.date, n, b);
  }

  lemma {:induction false} PivotPartnersFilled(dm: ByDirection, n: string, ps: Partners, k: nat)
    requires Filled(dm)
    ensures Filled(PivotPartners(dm, n, ps, k))
    decreases |ps.keys| - k
  {
    if k < |ps.keys| {
      var b := ps.keys[k];
      AddLeafFilled(dm, n, b, ps.vals[b]);
      PivotPartnersFilled(AddLeaf(dm, n, b, ps.vals[b]), n, ps, k + 1);
    }
  }

  lemma {:induction false} PivotAspectsFilled(dm: ByDirection, ar: AspectRecords, j: nat)
    requires Filled(dm)
    ensures Filled(PivotAspects(dm, ar, j))
    decreases |ar.keys| - j
  {
    if j < |ar.keys| {
      var n := ar.keys[j];
      PivotPartnersFilled(dm, n, ar.vals[n], 0);
      PivotAspectsFilled(PivotPartners(dm, n, ar.vals[n], 0), ar, j + 1);
    }
  }

  lemma {:induction false} PivotAllFilled(post: PostMap, pre: PreMap, i: nat)
    requires AllFilled(post)
    ensures AllFilled(PivotAll(post, pre, i))
    decreases |pre.keys| - i
  {
    if i < |pre.keys| {
      var a := pre.keys[i];
      PivotAspectsFilled(Empty(), pre.vals[a], 0);
      PivotAllFilled(Put(post, a, PivotAspects(Empty(), pre.vals[a], 0)), pre, i + 1);
    }
  }

  /** No empty list is left in the result. */
  lemma PivotFilled(pre: PreMap)
    ensures AllFilled(PivotOf(pre))
  {
    PivotAllFilled(Empty(), pre, 0);
  }

  // ---------------------------------------------------------------------
  // The regrouping as it runs

  method PivotAspect(dm: ByDirection, n: string, ps: Partners) returns (res: ByDirection)
    ensures res == PivotPartners(dm, n, ps, 0)
  {
    res := dm;
    for k := 0 to |ps.keys|
      invariant PivotPartners(res, n, ps, k) == PivotPartners(dm, n, ps, 0)
    {
      var b := ps.keys[k];
      res := AddLeaf(res, n, b, ps.vals[b]);
    }
  }

  method PivotSubject(ar: AspectRecords) returns (res: ByDirection)
    ensures res == PivotAspects(Empty(), ar, 0)
  {
    res := Empty();
    for j := 0 to |ar.keys|
      invariant PivotAspects(res, ar, j) == PivotAspects(Empty(), ar, 0)
    {
      var n := ar.keys[j];
      res := PivotAspect(res, n, ar.vals[n]);
    }
  }

  /** The loop that builds `post_transits`. */
  method Pivot(pre: PreMap) returns (post: PostMap)
    ensures post == PivotOf(pre)
  {
    post := Empty();
    for i := 0 to |pre.keys|
      invariant PivotAll(post, pre, i) == PivotOf(pre)
    {
      var a := pre.keys[i];
      var byDirection := PivotSubject(pre.vals[a]);
      post := Put(post, a, byDirection);
    }
  }
}
