/** The transit scan (`get_transits`): walking forward one day at a time from
    a start day, the first day on which each body's sign or retrograde state
    differs from the start, with the attributes that did not change blanked. */
module Transits {
  import opened Dicts
  import opened Sky

  /** A change of sign, of retrograde state or of both; an attribute that did
      not change is `None`. `date` is the absolute day of the change. */
  datatype Transit = Transit(zodiac: Option<string>, retrograde: Option<bool>, date: int)

  type TransitMap = Dict<Body, Transit>

  /** Classified positions by day and body: all the scan looks at. */
  type Chart = (int, Body) -> Position

  function ChartOf(eph: Ephemeris): Chart {
    (d: int, b: Body) => PositionAt(eph, d, b)
  }

  /** The future position with every attribute equal to today's blanked. */
  function MakeTransit(now: Position, future: Position, date: int): (t: Transit)
    ensures t.date == date
    ensures t.zodiac == None <==> future.zodiac == now.zodiac
    ensures t.retrograde == None <==> future.retrograde == now.retrograde
    ensures now != future ==> t.zodiac != None || t.retrograde != None
  {
    Transit(if now.zodiac == future.zodiac then None else Some(future.zodiac),
            if now.retrograde == future.retrograde then None else Some(future.retrograde),
            date)
  }

  /** Today's position with a transit's changes applied. */
  function Apply(now: Position, t: Transit): Position {
    Position(if t.zodiac.Some? then t.zodiac.value else now.zodiac,
             if t.retrograde.Some? then t.retrograde.value else now.retrograde)
  }

  /** A transit keeps exactly what changed: applying it to today's position
      gives back the future position. */
  lemma MakeTransitApply(now: Position, future: Position, date: int)
    ensures Apply(now, MakeTransit(now, future, date)) == future
  {
  }

  /** One day of the scan over the bodies `rest`: a body not yet recorded whose
      position differs from the start is recorded with that day. */
  function ScanDay(tr: TransitMap, ch: Chart, date: int, day: int, rest: seq<Body>): TransitMap
    decreases |rest|
  {
    if rest == [] then tr
    else
      var b := rest[0];
      var now, future := ch(date, b), ch(day, b);
      ScanDay(if b !in tr.vals && now != future then Put(tr, b, MakeTransit(now, future, day)) else tr,
              ch, date, day, rest[1..])
  }

  /** `future_date`: the day `days` days after `date`. */
  function FutureDate(date: int, days: int): int {
    date + days
  }

  /** The state of the scan loop: the transits so far and the day counter. */
  datatype ScanState = ScanState(transits: TransitMap, days: int)

  /** The loop from day counter `days` on, each day scanning the bodies in
      `order`: it runs while fewer than 12 bodies are recorded and the counter
      is at most `maxdays`. */
  function Run(tr: TransitMap, ch: Chart, date: int, maxdays: int, days: int, order: seq<Body>): ScanState
    decreases maxdays - days + 1
  {
    if |tr.keys| < 12 && days <= maxdays then
      Run(ScanDay(tr, ch, date, FutureDate(date, days), order), ch, date, maxdays, days + 1, order)
    else ScanState(tr, days)
  }

  /** A loop that goes on scans day `days` after `date`, then continues. */
  lemma RunStep(tr: TransitMap, ch: Chart, date: int, maxdays: int, days: int, order: seq<Body>)
    requires |tr.keys| < 12 && days <= maxdays
    ensures Run(tr, ch, date, maxdays, days, order)
         == Run(ScanDay(tr, ch, date, FutureDate(date, days), order), ch, date, maxdays, days + 1, order)
  {
  }

  /** What `get_transits(date, maxdays)` returns. */
  function TransitsOf(ch: Chart, date: int, maxdays: int): TransitMap {
    Run(Empty(), ch, date, maxdays, 1, AllBodies).transits
  }

  /** `get_transits`: the start snapshot, then the day loop. */
  method GetTransits(eph: Ephemeris, date: int, maxdays: int) returns (transits: TransitMap)
    ensures transits == TransitsOf(ChartOf(eph), date, maxdays)
  {
    var positionsNow := GetPositions(eph, date);
    transits := ScanDays(eph, ChartOf(eph), date, maxdays, positionsNow);
  }

  /** The day loop of `get_transits`, with `ch` standing for the classified
      positions of `eph`. */
  method ScanDays(eph: Ephemeris, ghost ch: Chart, date: int, maxdays: int,
                  positionsNow: Dict<Body, Position>) returns (transits: TransitMap)
    requires forall d, b {:trigger PositionAt(eph, d, b)} :: ch(d, b) == PositionAt(eph, d, b)
    requires forall b :: b in positionsNow.vals && positionsNow.vals[b] == ch(date, b)
    ensures transits == TransitsOf(ch, date, maxdays)
  {
    transits := Empty();
    var days := 1;
    while |transits.keys| < 12 && days <= maxdays
      invariant Run(transits, ch, date, maxdays, days, AllBodies) == Run(Empty(), ch, date, maxdays, 1, AllBodies)
      decreases maxdays - days + 1
    {
      RunStep(transits, ch, date, maxdays, days, AllBodies);
      transits := RecordDay(eph, ch, transits, date, positionsNow, FutureDate(date, days));
      days := days + 1;
    }
  }

  /** The body of the day loop of `get_transits`: every body of the future
      snapshot, in order, against the start snapshot. */
  method RecordDay(eph: Ephemeris, ghost ch: Chart, transits0: TransitMap, date: int,
                   positionsNow: Dict<Body, Position>, futureDate: int)
    returns (transits: TransitMap)
    requires forall d, b {:trigger PositionAt(eph, d, b)} :: ch(d, b) == PositionAt(eph, d, b)
    requires forall b :: b in positionsNow.vals && positionsNow.vals[b] == ch(date, b)
    ensures transits == ScanDay(transits0, ch, date, futureDate, AllBodies)
  {
    var positionsFuture := GetPositions(eph, futureDate);
    transits := transits0;
    for i := 0 to |positionsFuture.keys|
      invariant ScanDay(transits0, ch, date, futureDate, AllBodies)
             == ScanDay(transits, ch, date, futureDate, AllBodies[i..])
    {
      var name := positionsFuture.keys[i];
      var positionNow := positionsNow.vals[name];
      var positionFuture := positionsFuture.vals[name];
      assert positionNow == ch(date, name) && positionFuture == ch(futureDate, name);
      if name !in transits.vals && positionNow != positionFuture {
        transits := Put(transits, name, MakeTransit(positionNow, positionFuture, futureDate));
      }
      assert AllBodies[i..][1..] == AllBodies[i + 1..];
    }
  }

  // ---------------------------------------------------------------------
  // What the result holds

  /** Body `b` keeps its start position on every day after `date` up to and
      including `last`. */
  ghost predicate Unchanged(ch: Chart, date: int, b: Body, last: int) {
    forall d :: date < d <= last ==> ch(d, b) == ch(date, b)
  }

  /** `t` records the first day after `date` on which `b` differs from its
      start position, and what changed. */
  ghost predicate FirstChange(ch: Chart, date: int, b: Body, t: Transit) {
    && date < t.date
    && ch(t.date, b) != ch(date, b)
    && Unchanged(ch, date, b, t.date - 1)
    && t == MakeTransit(ch(date, b), ch(t.date, b), t.date)
  }

  /** The scan state after every day before `days` has been examined. */
  ghost predicate Examined(tr: TransitMap, ch: Chart, date: int, days: int) {
    && (forall b :: b in tr.vals ==> FirstChange(ch, date, b, tr.vals[b]) && tr.vals[b].date < date + days)
    && (forall b :: b !in tr.vals ==> Unchanged(ch, date, b, date + days - 1))
  }

  lemma {:induction false} ScanDaySpec(tr: TransitMap, ch: Chart, date: int, day: int, rest: seq<Body>)
    ensures forall b :: (b in ScanDay(tr, ch, date, day, rest).vals
      <==> b in tr.vals || (b in rest && ch(day, b) != ch(date, b)))
    ensures forall b :: b in tr.vals ==> ScanDay(tr, ch, date, day, rest).vals[b] == tr.vals[b]
    ensures forall b :: (b in ScanDay(tr, ch, date, day, rest).vals && b !in tr.vals
      ==> ScanDay(tr, ch, date, day, rest).vals[b] == MakeTransit(ch(date, b), ch(day, b), day))
    decreases |rest|
  {
    if rest != [] {
      var b := rest[0];
      var now, future := ch(date, b), ch(day, b);
      var tr' := if b !in tr.vals && now != future then Put(tr, b, MakeTransit(now, future, day)) else tr;
      ScanDaySpec(tr', ch, date, day, rest[1..]);
      assert forall x :: x in rest <==> x == b || x in rest[1..];
    }
  }

  /** One day of the loop keeps the scan state exact. */
  lemma ScanDayExamined(tr: TransitMap, ch: Chart, date: int, days: int, order: seq<Body>)
    requires days >= 1 && Examined(tr, ch, date, days)
    requires forall b :: b in order
    ensures Examined(ScanDay(tr, ch, date, FutureDate(date, days), order), ch, date, days + 1)
  {
    var r := ScanDay(tr, ch, date, FutureDate(date, days), order);
    ScanDaySpec(tr, ch, date, FutureDate(date, days), order);
    forall b | b in r.vals
      ensures FirstChange(ch, date, b, r.vals[b]) && r.vals[b].date < date + days + 1
    {
    }
    forall b | b !in r.vals
      ensures Unchanged(ch, date, b, date + days)
    {
      assert ch(date + days, b) == ch(date, b);
    }
  }

  lemma {:induction false} RunSpec(tr: TransitMap, ch: Chart, date: int, maxdays: int, days: int, order: seq<Body>)
    requires days >= 1 && Examined(tr, ch, date, days)
    requires forall b :: b in order
    ensures var s := Run(tr, ch, date, maxdays, days, order);
      && Examined(s.transits, ch, date, s.days)
      && days <= s.days
      && (s.days <= maxdays + 1 || s.days == days)
      && (|s.transits.keys| >= 12 || s.days > maxdays)
    decreases maxdays - days + 1
  {
    if |tr.keys| < 12 && days <= maxdays {
      ScanDayExamined(tr, ch, date, days, order);
      RunSpec(ScanDay(tr, ch, date, FutureDate(date, days), order), ch, date, maxdays, days + 1, order);
    }
  }

  /** The result of `get_transits`: every recorded body is recorded on the
      first day within `maxdays` on which its sign or retrograde state
      differs from the start, with exactly the changed attributes set; a body
      left out while fewer than 12 are recorded never changes within
      `maxdays`. */
  lemma TransitsOfSpec(ch: Chart, date: int, maxdays: int)
    ensures forall b :: b in TransitsOf(ch, date, maxdays).vals ==>
      && FirstChange(ch, date, b, TransitsOf(ch, date, maxdays).vals[b])
      && TransitsOf(ch, date, maxdays).vals[b].date <= date + maxdays
    ensures |TransitsOf(ch, date, maxdays).keys| < 12 ==>
      forall b :: b !in TransitsOf(ch, date, maxdays).vals ==> Unchanged(ch, date, b, date + maxdays)
  {
    AllBodiesComplete();
    RunSpec(Empty(), ch, date, maxdays, 1, AllBodies);
  }

  /** A recorded transit is never empty, and applying it to the start
      position gives the position on its day. */
  lemma TransitsNonEmpty(ch: Chart, date: int, maxdays: int, b: Body)
    requires b in TransitsOf(ch, date, maxdays).vals
    ensures var t := TransitsOf(ch, date, maxdays).vals[b];
      && (t.zodiac != None || t.retrograde != None)
      && Apply(ch(date, b), t) == ch(t.date, b)
  {
    TransitsOfSpec(ch, date, maxdays);
    var t := TransitsOf(ch, date, maxdays).vals[b];
    MakeTransitApply(ch(date, b), ch(t.date, b), t.date);
  }

  lemma {:induction false} ScanDayFrame(tr: TransitMap, ch1: Chart, ch2: Chart, date: int, day: int,
                                        rest: seq<Body>)
    requires forall b :: ch1(date, b) == ch2(date, b) && ch1(day, b) == ch2(day, b)
    ensures ScanDay(tr, ch1, date, day, rest) == ScanDay(tr, ch2, date, day, rest)
    decreases |rest|
  {
    if rest != [] {
      var b := rest[0];
      var now, future := ch1(date, b), ch1(day, b);
      ScanDayFrame(if b !in tr.vals && now != future then Put(tr, b, MakeTransit(now, future, day)) else tr,
                   ch1, ch2, date, day, rest[1..]);
    }
  }

  lemma {:induction false} RunFrame(tr: TransitMap, ch1: Chart, ch2: Chart, date: int, maxdays: int, days: int,
                                    order: seq<Body>)
    requires days >= 0
    requires forall d, b :: date <= d < date + Run(tr, ch1, date, maxdays, days, order).days ==> ch1(d, b) == ch2(d, b)
    ensures Run(tr, ch1, date, maxdays, days, order) == Run(tr, ch2, date, maxdays, days, order)
    decreases maxdays - days + 1
  {
    if |tr.keys| < 12 && days <= maxdays {
      var next := ScanDay(tr, ch1, date, FutureDate(date, days), order);
      RunDaysGrow(next, ch1, date, maxdays, days + 1, order);
      assert forall b :: ch1(date, b) == ch2(date, b) && ch1(FutureDate(date, days), b) == ch2(FutureDate(date, days), b);
      ScanDayFrame(tr, ch1, ch2, date, FutureDate(date, days), order);
      RunFrame(next, ch1, ch2, date, maxdays, days + 1, order);
    }
  }

  lemma {:induction false} RunDaysGrow(tr: TransitMap, ch: Chart, date: int, maxdays: int, days: int,
                                       order: seq<Body>)
    ensures days <= Run(tr, ch, date, maxdays, days, order).days
    decreases maxdays - days + 1
  {
    if |tr.keys| < 12 && days <= maxdays {
      RunDaysGrow(ScanDay(tr, ch, date, FutureDate(date, days), order), ch, date, maxdays, days + 1, order);
    }
  }

  /** The day counter the scan stops at: no later day is examined. */
  function StopDay(eph: Ephemeris, date: int, maxdays: int): int {
    Run(Empty(), ChartOf(eph), date, maxdays, 1, AllBodies).days
  }

  /** Only the start day and the days before the stop day are examined: two
      ephemerides that agree on those give the same transits, so nothing
      after the 12th entry or beyond `maxdays` can change the result. */
  lemma TransitsFrame(eph1: Ephemeris, eph2: Ephemeris, date: int, maxdays: int)
    requires forall d, b :: date <= d < date + StopDay(eph1, date, maxdays) ==> eph1(d, b) == eph2(d, b)
    ensures TransitsOf(ChartOf(eph1), date, maxdays) == TransitsOf(ChartOf(eph2), date, maxdays)
    ensures StopDay(eph1, date, maxdays) <= if maxdays < 1 then 1 else maxdays + 1
    ensures |TransitsOf(ChartOf(eph1), date, maxdays).keys| >= 12 || StopDay(eph1, date, maxdays) > maxdays
  {
    var ch1, ch2 := ChartOf(eph1), ChartOf(eph2);
    forall d, b | date <= d < date + StopDay(eph1, date, maxdays) ensures ch1(d, b) == ch2(d, b) {
      assert eph1(d, NorthNode) == eph2(d, NorthNode);
    }
    RunFrame(Empty(), ch1, ch2, date, maxdays, 1, AllBodies);
    AllBodiesComplete();
    RunSpec(Empty(), ch1, date, maxdays, 1, AllBodies);
  }
}
