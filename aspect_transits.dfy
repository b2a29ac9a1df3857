/** `get_aspect_transits`: which aspects of today's sky end (exit pass) and
    which new ones begin (entry pass) over the next `maxdays` days, each
    recorded on the first day it is seen, then regrouped per subject,
    direction, date and aspect. */
module AspectTransits {
  import opened Dicts
  import opened Sky
  import opened Aspects
  import opened PreTransits
  import opened PostTransits

  /** The major-table aspects of each day, as the passes look them up. */
  type Daily = int -> AspectMap

  // ---------------------------------------------------------------------
  // The two passes, on values

  /** One day of a pass: the exit pass walks today's aspects and looks them
      up on `date`; the entry pass walks the aspects of `date` and looks them
      up in today's. */
  function PassDay(pre: PreMap, now: AspectMap, fut: Daily, date: int, direction: Direction): PreMap {
    match direction
    case Exiting => DayOf(pre, now, fut(date), Record(date, Exiting))
    case Entering => DayOf(pre, fut(date), now, Record(date, Entering))
  }

  /** `date_future`: the day `days + 1` days after `now`. */
  function DateFuture(now: int, days: int): int {
    now + days + 1
  }

  /** The days after day `days` of a pass that starts from day `start`. */
  function Pass(pre: PreMap, now: AspectMap, fut: Daily, start: int, maxdays: int, days: int,
                direction: Direction): PreMap
    decreases maxdays - days
  {
    if days < maxdays then
      Pass(PassDay(pre, now, fut, DateFuture(start, days), direction), now, fut, start, maxdays, days + 1, direction)
    else pre
  }

  /** A pass that has days left is its next day followed by the rest. */
  lemma PassStep(pre: PreMap, now: AspectMap, fut: Daily, start: int, maxdays: int, days: int, direction: Direction)
    requires days < maxdays
    ensures Pass(pre, now, fut, start, maxdays, days, direction)
         == Pass(PassDay(pre, now, fut, DateFuture(start, days), direction), now, fut, start, maxdays, days + 1, direction)
  {
  }

  /** `pre_transits` after the exit pass and then the entry pass. */
  function PreTransitsOf(now: AspectMap, fut: Daily, start: int, maxdays: int): PreMap {
    Pass(Pass(Empty(), now, fut, start, maxdays, 0, Exiting), now, fut, start, maxdays, 0, Entering)
  }

  // ---------------------------------------------------------------------
  // What a record means

  /** The entry `(a, n, b)` changes on day `d`, as a pass sees it: for the
      exit pass it is an aspect of today missing on `d`, for the entry pass
      an aspect of `d` that today lacks. */
  ghost predicate Changes(now: AspectMap, fut: Daily, direction: Direction, d: int, a: Body, n: string, b: Body) {
    match direction
    case Exiting => InSet(now, a, n, b) && !InSet(fut(d), a, n, b)
    case Entering => InSet(fut(d), a, n, b) && !InSet(now, a, n, b)
  }

  /** A record of `(a, n, b)` is justified: its day lies in the scanned
      window, the entry changes on that day in the record's direction, and
      on no earlier day of the window. */
  ghost predicate Justified(now: AspectMap, fut: Daily, start: int, maxdays: int, a: Body, n: string, b: Body,
                            r: Record)
  {
    start < r.date <= start + maxdays
    && Changes(now, fut, r.direction, r.date, a, n, b)
    && forall d :: start < d < r.date ==> !Changes(now, fut, r.direction, d, a, n, b)
  }

  ghost predicate Sound(pre: PreMap, now: AspectMap, fut: Daily, start: int, maxdays: int) {
    forall a, n, b :: HasLeaf(pre, a, n, b) ==> Justified(now, fut, start, maxdays, a, n, b, Leaf(pre, a, n, b))
  }

  /** Every entry that changes on one of the first `days` days of a pass
      has its aspect level made. */
  ghost predicate Seen(pre: PreMap, now: AspectMap, fut: Daily, start: int, days: int, direction: Direction) {
    forall d, a, n, b :: start < d <= start + days && Changes(now, fut, direction, d, a, n, b) ==> HasAspect(pre, a, n)
  }

  /** Every record present is kept, with its value. */
  ghost predicate Keeps(p: PreMap, q: PreMap) {
    forall a, n, b :: HasLeaf(p, a, n, b) ==> HasLeaf(q, a, n, b) && Leaf(q, a, n, b) == Leaf(p, a, n, b)
  }

  /** One day of a pass, in terms of the entries that change on it: records
      are kept, a new record carries the day and names an entry that changes
      on it under an aspect level missing before, and every entry that
      changes on it ends with its aspect level made. */
  lemma DayEffect(pre: PreMap, now: AspectMap, fut: Daily, date: int, direction: Direction)
    ensures var next := PassDay(pre, now, fut, date, direction);
            Keeps(pre, next) && AspectsKept(pre, next)
            && (forall a, n, b :: HasLeaf(next, a, n, b) && !HasLeaf(pre, a, n, b) ==>
                  Leaf(next, a, n, b) == Record(date, direction) && Changes(now, fut, direction, date, a, n, b)
                  && !HasAspect(pre, a, n))
            && (forall a, n, b :: Changes(now, fut, direction, date, a, n, b) ==> HasAspect(next, a, n))
  {
    match direction
    case Exiting =>
      DayGrows(pre, now, fut(date), Record(date, Exiting));
      DaySettled(pre, now, fut(date), Record(date, Exiting));
    case Entering =>
      DayGrows(pre, fut(date), now, Record(date, Entering));
      DaySettled(pre, fut(date), now, Record(date, Entering));
  }

  /** One day of a pass keeps every record and adds justified ones only:
      an entry recorded on the day did not change on an earlier day, since
      its aspect level would then have been made already. */
  lemma DaySound(pre: PreMap, now: AspectMap, fut: Daily, start: int, maxdays: int, days: int,
                 direction: Direction)
    requires 0 <= days < maxdays && Sound(pre, now, fut, start, maxdays)
    requires Seen(pre, now, fut, start, days, direction)
    ensures Sound(PassDay(pre, now, fut, DateFuture(start, days), direction), now, fut, start, maxdays)
         && Keeps(pre, PassDay(pre, now, fut, DateFuture(start, days), direction))
         && Seen(PassDay(pre, now, fut, DateFuture(start, days), direction), now, fut, start, days + 1, direction)
  {
    var date := DateFuture(start, days);
    var next := PassDay(pre, now, fut, date, direction);
    DayEffect(pre, now, fut, date, direction);
    forall a, n, b | HasLeaf(next, a, n, b) ensures Justified(now, fut, start, maxdays, a, n, b, Leaf(next, a, n, b)) {
      if !HasLeaf(pre, a, n, b) {
        forall d | start < d < date ensures !Changes(now, fut, direction, d, a, n, b) {
        }
      }
    }
    forall d, a, n, b | start < d <= start + days + 1 && Changes(now, fut, direction, d, a, n, b)
      ensures HasAspect(next, a, n)
    {
      if d < date {
        assert HasAspect(pre, a, n);
      }
    }
  }

  /** A pass keeps every record and adds justified ones only. */
  lemma {:induction false} PassSound(pre: PreMap, now: AspectMap, fut: Daily, start: int, maxdays: int, days: int,
                                     direction: Direction)
    requires 0 <= days && Sound(pre, now, fut, start, maxdays) && Seen(pre, now, fut, start, days, direction)
    ensures Sound(Pass(pre, now, fut, start, maxdays, days, direction), now, fut, start, maxdays)
         && Keeps(pre, Pass(pre, now, fut, start, maxdays, days, direction))
    decreases maxdays - days
  {
    if days < maxdays {
      var next := PassDay(pre, now, fut, DateFuture(start, days), direction);
      DaySound(pre, now, fut, start, maxdays, days, direction);
      PassSound(next, now, fut, start, maxdays, days + 1, direction);
    }
  }

  /** Every record of the scan is justified, and every record of the exit
      pass is still there, unchanged, after the entry pass: an exit
      suppresses an entry of the same subject, aspect and partner. */
  lemma PreTransitsSound(now: AspectMap, fut: Daily, start: int, maxdays: int)
    ensures Sound(PreTransitsOf(now, fut, start, maxdays), now, fut, start, maxdays)
         && Keeps(Pass(Empty(), now, fut, start, maxdays, 0, Exiting), PreTransitsOf(now, fut, start, maxdays))
  {
    PassSound(Empty(), now, fut, start, maxdays, 0, Exiting);
    PassSound(Pass(Empty(), now, fut, start, maxdays, 0, Exiting), now, fut, start, maxdays, 0, Entering);
  }

  /** The result of `get_aspect_transits` with today's aspects `now` and the
      major aspects `fut` of each day after `start`. */
  function AspectTransitsOf(now: AspectMap, fut: Daily, start: int, maxdays: int): PostMap {
    PivotOf(PreTransitsOf(now, fut, start, maxdays))
  }

  /** What the result holds: partner `b` is listed under
      `post[a][dir][date][n]` only when the scan found the aspect `n` between
      `a` and `b` exiting or entering on `date`, that is: `date` lies in the
      window, an exit is an aspect of today missing on `date` and present on
      every earlier day of the window, an entry an aspect of `date` missing
      today and on every earlier day; and each list names a partner once. */
  lemma AspectTransitsSpec(now: AspectMap, fut: Daily, start: int, maxdays: int, a: Body, dir: Direction,
                           date: int, n: string, b: Body)
    ensures var post := AspectTransitsOf(now, fut, start, maxdays);
            var list := if a in post.vals then ListOf(post.vals[a], dir, date, n) else [];
            Distinct(list)
            && (b in list ==>
                  (start < date <= start + maxdays
                   && (dir == Exiting ==> InSet(now, a, n, b) && !InSet(fut(date), a, n, b)
                                          && forall d :: start < d < date ==> InSet(fut(d), a, n, b))
                   && (dir == Entering ==> InSet(fut(date), a, n, b) && !InSet(now, a, n, b)
                                           && forall d :: start < d < date ==> !InSet(fut(d), a, n, b))))
  {
    var pre := PreTransitsOf(now, fut, start, maxdays);
    PreTransitsSound(now, fut, start, maxdays);
    PivotSpec(pre, a, dir, date, n);
    PostListSpec(pre, a, dir, date, n, b);
    if HasLeaf(pre, a, n, b) && Leaf(pre, a, n, b) == Record(date, dir) {
      JustifiedFirst(now, fut, start, maxdays, a, n, b, Record(date, dir));
    }
  }

  /** A justified record, spelled out per direction: an exit's aspect is
      present on every day of the window before its date, an entry's aspect
      absent on every one of them. */
  lemma JustifiedFirst(now: AspectMap, fut: Daily, start: int, maxdays: int, a: Body, n: string, b: Body, r: Record)
    requires Justified(now, fut, start, maxdays, a, n, b, r)
    ensures start < r.date <= start + maxdays
    ensures r.direction == Exiting ==> InSet(now, a, n, b) && !InSet(fut(r.date), a, n, b)
                                       && forall d :: start < d < r.date ==> InSet(fut(d), a, n, b)
    ensures r.direction == Entering ==> InSet(fut(r.date), a, n, b) && !InSet(now, a, n, b)
                                        && forall d :: start < d < r.date ==> !InSet(fut(d), a, n, b)
  {
    if r.direction == Exiting {
      forall d | start < d < r.date ensures InSet(fut(d), a, n, b) {
        assert !Changes(now, fut, Exiting, d, a, n, b);
      }
    } else {
      forall d | start < d < r.date ensures !InSet(fut(d), a, n, b) {
        assert !Changes(now, fut, Entering, d, a, n, b);
      }
    }
  }

  // ---------------------------------------------------------------------
  // The scan as it runs

  /** One of the two `while days < maxdays` loops, on the shared recorder. */
  method RunPass(eph: Ephemeris, ghost fut: Daily, r: Recorder, aspectsNow: AspectMap, now: int, maxdays: int,
                 direction: Direction)
    requires forall d {:trigger AspectsOf(eph, d, MajorAspects)} :: fut(d) == AspectsOf(eph, d, MajorAspects)
    modifies r
    ensures r.pre == Pass(old(r.pre), aspectsNow, fut, now, maxdays, 0, direction)
  {
    var days := 0;
    while days < maxdays
      invariant Pass(r.pre, aspectsNow, fut, now, maxdays, days, direction)
             == Pass(old(r.pre), aspectsNow, fut, now, maxdays, 0, direction)
      decreases maxdays - days
    {
      ghost var before := r.pre;
      ScanFutureDay(eph, fut, r, aspectsNow, now, days, direction);
      PassStep(before, aspectsNow, fut, now, maxdays, days, direction);
      days := days + 1;
    }
  }

  /** The body of either loop: the major aspects of day `days + 1`,
      scanned in the pass's direction. */
  method ScanFutureDay(eph: Ephemeris, ghost fut: Daily, r: Recorder, aspectsNow: AspectMap, now: int,
                       days: int, direction: Direction)
    requires forall d {:trigger AspectsOf(eph, d, MajorAspects)} :: fut(d) == AspectsOf(eph, d, MajorAspects)
    modifies r
    ensures r.pre == PassDay(old(r.pre), aspectsNow, fut, DateFuture(now, days), direction)
  {
    var dateFuture := DateFuture(now, days);
    var aspectsFuture := GetAspects(eph, dateFuture, false);
    PassDayOf(r.pre, aspectsNow, fut, dateFuture, direction, aspectsFuture);
    match direction {
      case Exiting => r.ScanPassDay(aspectsNow, aspectsFuture, dateFuture, Exiting);
      case Entering => r.ScanPassDay(aspectsFuture, aspectsNow, dateFuture, Entering);
    }
  }

  /** A day of a pass, with the day's aspects `future` looked up. */
  lemma PassDayOf(pre: PreMap, now: AspectMap, fut: Daily, date: int, direction: Direction, future: AspectMap)
    requires fut(date) == future
    ensures PassDay(pre, now, fut, date, direction)
         == match direction
            case Exiting => DayOf(pre, now, future, Record(date, Exiting))
            case Entering => DayOf(pre, future, now, Record(date, Entering))
  {
  }

  /** `get_aspect_transits`: `now` stands for today's date, which the
      function reads itself; the `date` argument is accepted and ignored. */
  method GetAspectTransits(eph: Ephemeris, date: int, now: int, minor: bool, maxdays: int)
    returns (post: PostMap)
    ensures post == AspectTransitsOf(AspectsOf(eph, now, Selected(minor)), (d: int) => AspectsOf(eph, d, MajorAspects),
                                     now, maxdays)
  {
    var aspectsNow := GetAspects(eph, now, minor);
    var r := new Recorder();
    ghost var fut: Daily := (d: int) => AspectsOf(eph, d, MajorAspects);
    RunPass(eph, fut, r, aspectsNow, now, maxdays, Exiting);
    RunPass(eph, fut, r, aspectsNow, now, maxdays, Entering);
    post := Pivot(r.pre);
  }
}
