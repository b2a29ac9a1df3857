/** The report formatters (`get_positions_formatted`,
    `get_transits_formatted`, `get_aspects_formatted`,
    `get_aspect_transits_formatted`): each report is a sequence of lines,
    every line followed by a newline. Dates are printed by a `DayFormat`,
    which stands for `strftime('%b %d')`. */
module Reports {
  import opened Dicts
  import opened Sky
  import opened Text
  import opened Transits
  import opened Aspects
  import opened PreTransits
  import opened PostTransits
  import opened AspectTransits

  /** How a report prints a day. */
  type DayFormat = int -> string

  ghost predicate CleanFormat(fmt: DayFormat) {
    forall d :: NoNewline(fmt(d))
  }

  lemma NameClean(b: Body)
    ensures NoNewline(Name(b))
  {
  }

  lemma ZodiacClean(i: int)
    requires 0 <= i < 12
    ensures NoNewline(Zodiac[i])
  {
  }

  /** Python's `s[i:j]` on a list: both ends cut down to the length. */
  function Slice(s: seq<string>, i: nat, j: nat): (r: seq<string>)
    ensures |r| <= |s|
  {
    var hi := if j < |s| then j else |s|;
    var lo := if i < hi then i else hi;
    s[lo..hi]
  }

  function Names(bs: seq<Body>): (r: seq<string>)
    ensures |r| == |bs|
  {
    if bs == [] then [] else [Name(bs[0])] + Names(bs[1..])
  }

  lemma NamesAt(bs: seq<Body>, i: int)
    requires 0 <= i < |bs|
    ensures Names(bs)[i] == Name(bs[i])
  {
    if i > 0 {
      NamesAt(bs[1..], i - 1);
    }
  }

  lemma NamesClean(bs: seq<Body>)
    ensures AllNoNewline(Names(bs))
  {
    forall i | 0 <= i < |bs| ensures NoNewline(Names(bs)[i]) {
      NamesAt(bs, i);
      NameClean(bs[i]);
    }
  }

  lemma UnlinesCons(x: string, rest: seq<string>)
    ensures Unlines([x] + rest) == x + "\n" + Unlines(rest)
  {
    assert ([x] + rest)[1..] == rest;
  }

  lemma UnlinesOne(x: string)
    ensures Unlines([x]) == x + "\n"
  {
    UnlinesCons(x, []);
  }

  /** Appending a line to a report appends its text and a newline. */
  lemma UnlinesSnoc(lines: seq<string>, line: string)
    ensures Unlines(lines + [line]) == Unlines(lines) + line + "\n"
  {
    UnlinesAppend(lines, [line]);
    UnlinesOne(line);
    assert Unlines(lines) + (line + "\n") == Unlines(lines) + line + "\n";
  }

  /** A report is exactly its lines: text made of newline-free lines reads
      back as those lines and no others. */
  ghost predicate ReadsAs(report: string, lines: seq<string>) {
    AllNoNewline(lines) && report == Unlines(lines)
    && forall other :: AllNoNewline(other) && Unlines(other) == report ==> other == lines
  }

  lemma ReadsAsLines(lines: seq<string>)
    requires AllNoNewline(lines)
    ensures ReadsAs(Unlines(lines), lines)
  {
    forall other | AllNoNewline(other) && Unlines(other) == Unlines(lines) ensures other == lines {
      UnlinesInjective(other, lines);
    }
  }

  // ---------------------------------------------------------------------
  // Folds over an ordered map, one entry after the other

  /** The items of the first `k` entries of `d`, in key order. */
  function Items<K(!new), V>(d: Dict<K, V>, item: (K, V) -> string, k: nat): (r: seq<string>)
    requires k <= |d.keys|
    ensures |r| == k
  {
    if k == 0 then [] else Items(d, item, k - 1) + [item(d.keys[k - 1], d.vals[d.keys[k - 1]])]
  }

  /** Item `i` is the item of the `i`-th key. */
  lemma {:induction false} ItemsAt<K(!new), V>(d: Dict<K, V>, item: (K, V) -> string, k: nat, i: int)
    requires k <= |d.keys| && 0 <= i < k
    ensures Items(d, item, k)[i] == item(d.keys[i], d.vals[d.keys[i]])
  {
    if i < k - 1 {
      ItemsAt(d, item, k - 1, i);
    }
  }

  /** Items that are newline-free one by one make a newline-free list. */
  lemma ItemsClean<K(!new), V>(d: Dict<K, V>, item: (K, V) -> string)
    requires forall key :: key in d.vals ==> NoNewline(item(key, d.vals[key]))
    ensures AllNoNewline(Items(d, item, |d.keys|))
  {
    forall i | 0 <= i < |d.keys| ensures NoNewline(Items(d, item, |d.keys|)[i]) {
      ItemsAt(d, item, |d.keys|, i);
      assert d.keys[i] in d.vals;
    }
  }

  /** `f` of each of the first `k` elements of `xs`, in order. */
  function Mapped<T>(f: T -> string, xs: seq<T>, k: nat): (r: seq<string>)
    requires k <= |xs|
    ensures |r| == k
  {
    if k == 0 then [] else Mapped(f, xs, k - 1) + [f(xs[k - 1])]
  }

  lemma {:induction false} MappedAt<T>(f: T -> string, xs: seq<T>, k: nat, i: int)
    requires k <= |xs| && 0 <= i < k
    ensures Mapped(f, xs, k)[i] == f(xs[i])
  {
    if i < k - 1 {
      MappedAt(f, xs, k - 1, i);
    }
  }

  lemma MappedClean<T>(f: T -> string, xs: seq<T>)
    requires forall i :: 0 <= i < |xs| ==> NoNewline(f(xs[i]))
    ensures AllNoNewline(Mapped(f, xs, |xs|))
  {
    forall i | 0 <= i < |xs| ensures NoNewline(Mapped(f, xs, |xs|)[i]) {
      MappedAt(f, xs, |xs|, i);
    }
  }

  /** The lines of the first `k` entries of `d`, entry after entry. */
  function Lines<K(!new), V>(d: Dict<K, V>, lines: (K, V) -> seq<string>, k: nat): seq<string>
    requires k <= |d.keys|
  {
    if k == 0 then [] else Lines(d, lines, k - 1) + lines(d.keys[k - 1], d.vals[d.keys[k - 1]])
  }

  /** Entries of one or two newline-free lines each make between `k` and
      `2 * k` newline-free lines. */
  lemma {:induction false} LinesCount<K(!new), V>(d: Dict<K, V>, lines: (K, V) -> seq<string>, k: nat)
    requires k <= |d.keys|
    requires forall key :: key in d.vals ==> 1 <= |lines(key, d.vals[key])| <= 2 && AllNoNewline(lines(key, d.vals[key]))
    ensures k <= |Lines(d, lines, k)| <= 2 * k && AllNoNewline(Lines(d, lines, k))
  {
    if k > 0 {
      LinesCount(d, lines, k - 1);
      var key := d.keys[k - 1];
      assert key in d.vals;
      CleanAppend(Lines(d, lines, k - 1), lines(key, d.vals[key]));
    }
  }

  lemma CleanAppend(xs: seq<string>, ys: seq<string>)
    requires AllNoNewline(xs) && AllNoNewline(ys)
    ensures AllNoNewline(xs + ys)
  {
  }

  // ---------------------------------------------------------------------
  // get_positions_formatted

  function PositionString(eph: Ephemeris, day: int, b: Body): string {
    Name(b) + " is in " + PositionAt(eph, day, b).zodiac
  }

  /** The names of the retrograde bodies among the first `k` of the
      snapshot, in order. */
  function RetrogradeNames(eph: Ephemeris, day: int, k: nat): seq<string>
    requires k <= |AllBodies|
  {
    if k == 0 then []
    else
      var b := AllBodies[k - 1];
      RetrogradeNames(eph, day, k - 1) + (if PositionAt(eph, day, b).retrograde then [Name(b)] else [])
  }

  function PositionStringOf(eph: Ephemeris, day: int): Body -> string {
    (b: Body) => PositionString(eph, day, b)
  }

  /** The six lines: the retrograde bodies, then the thirteen positions in
      rows of 2, 3, 3, 3 and 2. */
  function PositionLines(eph: Ephemeris, day: int): seq<string> {
    var strings := Mapped(PositionStringOf(eph, day), AllBodies, 13);
    [ListFormatted(RetrogradeNames(eph, day, 13), true) + "in Retrograde",
     Join(Slice(strings, 0, 2), ", "),
     Join(Slice(strings, 2, 5), ", "),
     Join(Slice(strings, 5, 8), ", "),
     Join(Slice(strings, 8, 11), ", "),
     Join(Slice(strings, 11, 13), ", ")]
  }

  lemma NameInjective(b: Body, c: Body)
    requires Name(b) == Name(c)
    ensures b == c
  {
  }

  /** A body's name is listed as retrograde exactly when it is among the
      first `k` bodies and its position is retrograde. */
  lemma {:induction false} RetrogradeNamesIn(eph: Ephemeris, day: int, k: nat, b: Body)
    requires k <= |AllBodies|
    ensures Name(b) in RetrogradeNames(eph, day, k) <==> b in AllBodies[..k] && PositionAt(eph, day, b).retrograde
  {
    if k > 0 {
      RetrogradeNamesIn(eph, day, k - 1, b);
      RetrogradeNamesStep(eph, day, k, b);
    }
  }

  lemma RetrogradeNamesStep(eph: Ephemeris, day: int, k: nat, b: Body)
    requires 0 < k <= |AllBodies|
    ensures (Name(b) in RetrogradeNames(eph, day, k))
         == (Name(b) in RetrogradeNames(eph, day, k - 1) || (b == AllBodies[k - 1] && PositionAt(eph, day, b).retrograde))
    ensures (b in AllBodies[..k]) == (b in AllBodies[..k - 1] || b == AllBodies[k - 1])
  {
    var c := AllBodies[k - 1];
    var prev := RetrogradeNames(eph, day, k - 1);
    var extra := if PositionAt(eph, day, c).retrograde then [Name(c)] else [];
    assert RetrogradeNames(eph, day, k) == prev + extra;
    InAppend(prev, extra, Name(b));
    if Name(b) == Name(c) {
      NameInjective(b, c);
    }
    PrefixStep(AllBodies, k, b);
  }

  lemma InAppend<T>(xs: seq<T>, ys: seq<T>, x: T)
    ensures (x in xs + ys) == (x in xs || x in ys)
  {
  }

  lemma PrefixStep<T>(s: seq<T>, k: nat, x: T)
    requires 0 < k <= |s|
    ensures (x in s[..k]) == (x in s[..k - 1] || x == s[k - 1])
  {
    assert s[..k] == s[..k - 1] + [s[k - 1]];
  }

  /** The first line names exactly the retrograde bodies. */
  lemma RetrogradeNamesSpec(eph: Ephemeris, day: int, b: Body)
    ensures Name(b) in RetrogradeNames(eph, day, 13) <==> PositionAt(eph, day, b).retrograde
  {
    RetrogradeNamesIn(eph, day, 13, b);
    AllBodiesComplete();
    assert AllBodies[..13] == AllBodies;
  }

  /** The five rows hold the thirteen position strings, each once, in
      snapshot order: 2, 3, 3, 3 and 2 of them. */
  lemma PositionRows(eph: Ephemeris, day: int)
    ensures var s := Mapped(PositionStringOf(eph, day), AllBodies, 13);
            |s| == 13
            && Slice(s, 0, 2) + Slice(s, 2, 5) + Slice(s, 5, 8) + Slice(s, 8, 11) + Slice(s, 11, 13) == s
            && |Slice(s, 0, 2)| == 2 && |Slice(s, 2, 5)| == 3 && |Slice(s, 5, 8)| == 3
            && |Slice(s, 8, 11)| == 3 && |Slice(s, 11, 13)| == 2
            && forall i :: 0 <= i < 13 ==> s[i] == PositionString(eph, day, AllBodies[i])
  {
    var s := Mapped(PositionStringOf(eph, day), AllBodies, 13);
    Rows(s);
    forall i | 0 <= i < 13 ensures s[i] == PositionString(eph, day, AllBodies[i]) {
      MappedAt(PositionStringOf(eph, day), AllBodies, 13, i);
    }
  }

  /** Thirteen items cut at 2, 5, 8 and 11 give rows of 2, 3, 3, 3 and 2
      that put back together are the items. */
  lemma Rows(s: seq<string>)
    requires |s| == 13
    ensures Slice(s, 0, 2) + Slice(s, 2, 5) + Slice(s, 5, 8) + Slice(s, 8, 11) + Slice(s, 11, 13) == s
    ensures |Slice(s, 0, 2)| == 2 && |Slice(s, 2, 5)| == 3 && |Slice(s, 5, 8)| == 3
         && |Slice(s, 8, 11)| == 3 && |Slice(s, 11, 13)| == 2
  {
    assert s[0..2] + s[2..5] == s[0..5];
    assert s[0..5] + s[5..8] == s[0..8];
    assert s[0..8] + s[8..11] == s[0..11];
    assert s[0..11] + s[11..13] == s;
  }

  lemma SnocClean(xs: seq<string>, x: string)
    requires AllNoNewline(xs) && NoNewline(x)
    ensures AllNoNewline(xs + [x])
  {
  }

  lemma PositionStringClean(eph: Ephemeris, day: int, b: Body)
    ensures NoNewline(PositionString(eph, day, b))
  {
    NameClean(b);
    ZodiacClean(SignIndex(RawAt(eph, day, b).angle));
  }

  lemma PositionStringsClean(eph: Ephemeris, day: int)
    ensures AllNoNewline(Mapped(PositionStringOf(eph, day), AllBodies, 13))
  {
    forall i | 0 <= i < |AllBodies| ensures NoNewline(PositionStringOf(eph, day)(AllBodies[i])) {
      PositionStringClean(eph, day, AllBodies[i]);
    }
    MappedClean(PositionStringOf(eph, day), AllBodies);
  }

  lemma {:induction false} RetrogradeNamesClean(eph: Ephemeris, day: int, k: nat)
    requires k <= |AllBodies|
    ensures AllNoNewline(RetrogradeNames(eph, day, k))
  {
    if k > 0 {
      RetrogradeNamesClean(eph, day, k - 1);
      NameClean(AllBodies[k - 1]);
      SnocClean(RetrogradeNames(eph, day, k - 1), Name(AllBodies[k - 1]));
    }
  }

  lemma SliceClean(s: seq<string>, i: nat, j: nat)
    requires AllNoNewline(s)
    ensures AllNoNewline(Slice(s, i, j))
  {
  }

  /** The positions report is exactly six lines. */
  lemma PositionsReportLines(eph: Ephemeris, day: int)
    ensures |PositionLines(eph, day)| == 6
    ensures ReadsAs(Unlines(PositionLines(eph, day)), PositionLines(eph, day))
  {
    PositionLinesClean(eph, day);
    ReadsAsLines(PositionLines(eph, day));
  }

  lemma PositionLinesClean(eph: Ephemeris, day: int)
    ensures AllNoNewline(PositionLines(eph, day))
  {
    var s := Mapped(PositionStringOf(eph, day), AllBodies, 13);
    PositionStringsClean(eph, day);
    RetrogradeLineClean(eph, day);
    RowClean(s, 0, 2);
    RowClean(s, 2, 5);
    RowClean(s, 5, 8);
    RowClean(s, 8, 11);
    RowClean(s, 11, 13);
    SixClean(ListFormatted(RetrogradeNames(eph, day, 13), true) + "in Retrograde",
             Join(Slice(s, 0, 2), ", "), Join(Slice(s, 2, 5), ", "), Join(Slice(s, 5, 8), ", "),
             Join(Slice(s, 8, 11), ", "), Join(Slice(s, 11, 13), ", "));
  }

  lemma RetrogradeLineClean(eph: Ephemeris, day: int)
    ensures NoNewline(ListFormatted(RetrogradeNames(eph, day, 13), true) + "in Retrograde")
  {
    RetrogradeNamesClean(eph, day, 13);
    ConcatClean(ListFormatted(RetrogradeNames(eph, day, 13), true), "in Retrograde");
  }

  lemma ConcatClean(a: string, b: string)
    requires NoNewline(a) && NoNewline(b)
    ensures NoNewline(a + b)
  {
  }

  lemma RowClean(s: seq<string>, i: nat, j: nat)
    requires AllNoNewline(s)
    ensures NoNewline(Join(Slice(s, i, j), ", "))
  {
    SliceClean(s, i, j);
  }

  lemma SixClean(l0: string, l1: string, l2: string, l3: string, l4: string, l5: string)
    requires NoNewline(l0) && NoNewline(l1) && NoNewline(l2) && NoNewline(l3) && NoNewline(l4) && NoNewline(l5)
    ensures AllNoNewline([l0, l1, l2, l3, l4, l5])
  {
  }

  /** `get_positions_formatted`. */
  method PositionsFormatted(eph: Ephemeris, day: int) returns (out: string)
    ensures out == Unlines(PositionLines(eph, day))
  {
    var retrogradePlanets, positionStrings := CollectPositions(eph, day);
    var l0 := ListFormatted(retrogradePlanets, true) + "in Retrograde";
    var l1 := Join(Slice(positionStrings, 0, 2), ", ");
    var l2 := Join(Slice(positionStrings, 2, 5), ", ");
    var l3 := Join(Slice(positionStrings, 5, 8), ", ");
    var l4 := Join(Slice(positionStrings, 8, 11), ", ");
    var l5 := Join(Slice(positionStrings, 11, 13), ", ");
    out := l0 + "\n";
    out := out + l1 + "\n";
    out := out + l2 + "\n";
    out := out + l3 + "\n";
    out := out + l4 + "\n";
    out := out + l5 + "\n";
    SixLines(l0, l1, l2, l3, l4, l5);
  }

  /** The loop of `get_positions_formatted`. */
  method CollectPositions(eph: Ephemeris, day: int) returns (retrogradePlanets: seq<string>, positionStrings: seq<string>)
    ensures retrogradePlanets == RetrogradeNames(eph, day, 13)
    ensures positionStrings == Mapped(PositionStringOf(eph, day), AllBodies, 13)
  {
    var positions := GetPositions(eph, day);
    retrogradePlanets := [];
    positionStrings := [];
    for i := 0 to |positions.keys|
      invariant retrogradePlanets == RetrogradeNames(eph, day, i)
      invariant positionStrings == Mapped(PositionStringOf(eph, day), AllBodies, i)
    {
      var name := positions.keys[i];
      var position := positions.vals[name];
      if position.retrograde {
        retrogradePlanets := retrogradePlanets + [Name(name)];
      }
      positionStrings := positionStrings + [Name(name) + " is in " + position.zodiac];
    }
  }

  lemma SixLines(l0: string, l1: string, l2: string, l3: string, l4: string, l5: string)
    ensures Unlines([l0, l1, l2, l3, l4, l5])
         == l0 + "\n" + l1 + "\n" + l2 + "\n" + l3 + "\n" + l4 + "\n" + l5 + "\n"
  {
    UnlinesSnoc([], l0);
    UnlinesSnoc([l0], l1);
    UnlinesSnoc([l0, l1], l2);
    UnlinesSnoc([l0, l1, l2], l3);
    UnlinesSnoc([l0, l1, l2, l3], l4);
    UnlinesSnoc([l0, l1, l2, l3, l4], l5);
    assert [l0] == [] + [l0];
    assert [l0, l1] == [l0] + [l1];
    assert [l0, l1, l2] == [l0, l1] + [l2];
    assert [l0, l1, l2, l3] == [l0, l1, l2] + [l3];
    assert [l0, l1, l2, l3, l4] == [l0, l1, l2, l3] + [l4];
    assert [l0, l1, l2, l3, l4, l5] == [l0, l1, l2, l3, l4] + [l5];
  }

  // ---------------------------------------------------------------------
  // get_transits_formatted

  /** A new sign: "Mars is entering Gemini on Oct 03". */
  function SignLines(name: string, t: Transit, fmt: DayFormat): seq<string> {
    if t.zodiac.Some? then [name + " is entering " + t.zodiac.value + " on " + fmt(t.date)] else []
  }

  function EnteringLines(name: string, t: Transit, fmt: DayFormat): seq<string> {
    if t.retrograde == Some(true) then [name + " is entering Retrograde on " + fmt(t.date)] else []
  }

  function ExitingLines(name: string, t: Transit, fmt: DayFormat): seq<string> {
    if t.retrograde == Some(false) then [name + " is exiting Retrograde on " + fmt(t.date)] else []
  }

  /** The lines of one transit: a new sign, then a retrograde change. */
  function TransitLines(name: string, t: Transit, fmt: DayFormat): seq<string> {
    SignLines(name, t, fmt) + EnteringLines(name, t, fmt) + ExitingLines(name, t, fmt)
  }

  function TransitLinesOf(fmt: DayFormat): (Body, Transit) -> seq<string> {
    (b: Body, t: Transit) => TransitLines(Name(b), t, fmt)
  }

  /** A transit that changes something prints one or two lines, none of
      them broken. */
  lemma TransitLinesClean(name: string, t: Transit, fmt: DayFormat)
    requires t.zodiac != None || t.retrograde != None
    requires NoNewline(name) && NoNewline(fmt(t.date)) && (t.zodiac.Some? ==> NoNewline(t.zodiac.value))
    ensures 1 <= |TransitLines(name, t, fmt)| <= 2
    ensures AllNoNewline(TransitLines(name, t, fmt))
  {
    if t.retrograde.Some? {
      var v: bool := t.retrograde.value;
      if v {
        assert t.retrograde == Some(true);
      } else {
        assert t.retrograde == Some(false);
      }
    }
  }

  /** The sign a transit enters is one of the twelve names, and every
      recorded transit changes something. */
  lemma TransitsClean(eph: Ephemeris, date: int, maxdays: int, b: Body)
    requires b in TransitsOf(ChartOf(eph), date, maxdays).vals
    ensures var t := TransitsOf(ChartOf(eph), date, maxdays).vals[b];
            (t.zodiac != None || t.retrograde != None)
            && (t.zodiac.Some? ==> t.zodiac.value in Zodiac && NoNewline(t.zodiac.value))
  {
    var t := TransitsOf(ChartOf(eph), date, maxdays).vals[b];
    TransitsNonEmpty(ChartOf(eph), date, maxdays, b);
    assert ChartOf(eph)(t.date, b) == PositionAt(eph, t.date, b);
    ZodiacClean(SignIndex(RawAt(eph, t.date, b).angle));
  }

  /** The transits report: at least one line and at most two per recorded
      body, and nothing else. */
  lemma TransitsReportLines(eph: Ephemeris, date: int, maxdays: int, fmt: DayFormat)
    requires CleanFormat(fmt)
    ensures var tm := TransitsOf(ChartOf(eph), date, maxdays);
            var lines := Lines(tm, TransitLinesOf(fmt), |tm.keys|);
            |tm.keys| <= |lines| <= 2 * |tm.keys| && ReadsAs(Unlines(lines), lines)
  {
    var tm := TransitsOf(ChartOf(eph), date, maxdays);
    forall b | b in tm.vals
      ensures 1 <= |TransitLinesOf(fmt)(b, tm.vals[b])| <= 2 && AllNoNewline(TransitLinesOf(fmt)(b, tm.vals[b]))
    {
      TransitsClean(eph, date, maxdays, b);
      NameClean(b);
      TransitLinesClean(Name(b), tm.vals[b], fmt);
    }
    LinesCount(tm, TransitLinesOf(fmt), |tm.keys|);
    ReadsAsLines(Lines(tm, TransitLinesOf(fmt), |tm.keys|));
  }

  /** `get_transits_formatted`. */
  method TransitsFormatted(eph: Ephemeris, date: int, maxdays: int, fmt: DayFormat) returns (out: string)
    ensures var tm := TransitsOf(ChartOf(eph), date, maxdays);
            out == Unlines(Lines(tm, TransitLinesOf(fmt), |tm.keys|))
  {
    var transits := GetTransits(eph, date, maxdays);
    out := "";
    for i := 0 to |transits.keys|
      invariant out == Unlines(Lines(transits, TransitLinesOf(fmt), i))
    {
      out := TransitStep(out, transits, i, fmt);
    }
  }

  /** One turn of the loop of `get_transits_formatted`. */
  method TransitStep(text: string, transits: TransitMap, i: nat, fmt: DayFormat) returns (out: string)
    requires i < |transits.keys| && text == Unlines(Lines(transits, TransitLinesOf(fmt), i))
    ensures out == Unlines(Lines(transits, TransitLinesOf(fmt), i + 1))
  {
    var name := transits.keys[i];
    out := AppendTransit(text, Lines(transits, TransitLinesOf(fmt), i), Name(name), transits.vals[name], fmt);
  }

  /** The body of the loop of `get_transits_formatted`: the report so far,
      which reads as `lines`, followed by the lines of one transit. */
  method AppendTransit(text: string, ghost lines: seq<string>, name: string, transit: Transit, fmt: DayFormat)
    returns (out: string)
    requires text == Unlines(lines)
    ensures out == Unlines(lines + TransitLines(name, transit, fmt))
  {
    out := text;
    ghost var done := lines;
    if transit.zodiac.Some? {
      var line := name + " is entering " + transit.zodiac.value + " on " + fmt(transit.date);
      UnlinesSnoc(done, line);
      out := out + line + "\n";
      done := done + [line];
    }
    assert done == lines + SignLines(name, transit, fmt);
    ghost var signed := done;
    if transit.retrograde == Some(true) {
      var line := name + " is entering Retrograde on " + fmt(transit.date);
      UnlinesSnoc(done, line);
      out := out + line + "\n";
      done := done + [line];
    }
    assert done == signed + EnteringLines(name, transit, fmt);
    ghost var entered := done;
    if transit.retrograde == Some(false) {
      var line := name + " is exiting Retrograde on " + fmt(transit.date);
      UnlinesSnoc(done, line);
      out := out + line + "\n";
      done := done + [line];
    }
    assert done == entered + ExitingLines(name, transit, fmt);
    AppendAssoc3(lines, SignLines(name, transit, fmt), EnteringLines(name, transit, fmt), ExitingLines(name, transit, fmt));
  }

  lemma AppendAssoc3(a: seq<string>, b: seq<string>, c: seq<string>, d: seq<string>)
    ensures a + b + c + d == a + (b + c + d)
  {
  }

  // ---------------------------------------------------------------------
  // get_aspects_formatted

  /** "square with Mars and Venus". */
  function AspectItem(n: string, planets: seq<Body>): string {
    n + " with " + ListFormatted(Names(planets), false)
  }

  /** "Mars is in square with Venus and trine with Jupiter". */
  function AspectsLine(a: Body, pa: Buckets): string {
    Name(a) + " is in " + ListFormatted(Items(pa, AspectItem, |pa.keys|), false)
  }

  /** The aspect names filed in a bucket are newline-free. */
  ghost predicate CleanBuckets(pa: Buckets) {
    forall n :: n in pa.vals ==> NoNewline(n)
  }

  lemma AspectItemsClean(pa: Buckets)
    requires CleanBuckets(pa)
    ensures AllNoNewline(Items(pa, AspectItem, |pa.keys|))
  {
    forall n | n in pa.vals ensures NoNewline(AspectItem(n, pa.vals[n])) {
      NamesClean(pa.vals[n]);
    }
    ItemsClean(pa, AspectItem);
  }

  lemma AspectsLineClean(a: Body, pa: Buckets)
    requires CleanBuckets(pa)
    ensures NoNewline(AspectsLine(a, pa))
  {
    AspectItemsClean(pa);
    NameClean(a);
  }

  ghost predicate CleanNames(table: seq<AspectDef>) {
    forall i :: 0 <= i < |table| ==> NoNewline(table[i].name)
  }

  lemma TablesClean(minor: bool)
    ensures CleanNames(Selected(minor))
  {
    if minor {
      MinorNamesClean();
    } else {
      MajorNamesClean();
    }
  }

  lemma MajorNamesClean()
    ensures CleanNames(MajorAspects)
  {
    forall i | 0 <= i < |MajorAspects| ensures NoNewline(MajorAspects[i].name) {
      var n := MajorAspects[i].name;
      assert forall j :: 0 <= j < |n| ==> n[j] != '\n';
    }
  }

  lemma MinorNamesClean()
    ensures CleanNames(MinorAspects)
  {
    forall i | 0 <= i < |MinorAspects| ensures NoNewline(MinorAspects[i].name) {
      var n := MinorAspects[i].name;
      assert forall j :: 0 <= j < |n| ==> n[j] != '\n';
    }
  }

  /** Every aspect name in the aspects of a day comes from the table. */
  lemma AspectsOfClean(eph: Ephemeris, day: int, table: seq<AspectDef>)
    requires CleanNames(table)
    ensures forall a :: a in AspectsOf(eph, day, table).vals ==> CleanBuckets(AspectsOf(eph, day, table).vals[a])
  {
    var am := AspectsOf(eph, day, table);
    AspectsOfSpec(eph, day, table);
    forall a, n | a in am.vals && n in am.vals[a].vals ensures NoNewline(n) {
      assert InSet(am, a, n, am.vals[a].vals[n][0]);
    }
  }

  /** The aspects report: one line per subject, in order, each the
      subject's line, and nothing else. */
  lemma AspectsReportLines(eph: Ephemeris, day: int, minor: bool)
    ensures var am := AspectsOf(eph, day, Selected(minor));
            var lines := Items(am, AspectsLine, |am.keys|);
            ReadsAs(Unlines(lines), lines)
            && forall i :: 0 <= i < |lines| ==> lines[i] == AspectsLine(am.keys[i], am.vals[am.keys[i]])
  {
    var am := AspectsOf(eph, day, Selected(minor));
    var lines := Items(am, AspectsLine, |am.keys|);
    TablesClean(minor);
    AspectsOfClean(eph, day, Selected(minor));
    forall a | a in am.vals ensures NoNewline(AspectsLine(a, am.vals[a])) {
      AspectsLineClean(a, am.vals[a]);
    }
    ItemsClean(am, AspectsLine);
    ReadsAsLines(lines);
    forall i | 0 <= i < |lines| ensures lines[i] == AspectsLine(am.keys[i], am.vals[am.keys[i]]) {
      ItemsAt(am, AspectsLine, |am.keys|, i);
    }
  }

  /** `get_aspects_formatted`. */
  method AspectsFormatted(eph: Ephemeris, day: int, minor: bool) returns (out: string)
    ensures out == Unlines(Items(AspectsOf(eph, day, Selected(minor)), AspectsLine,
                                 |AspectsOf(eph, day, Selected(minor)).keys|))
  {
    var aspects := GetAspects(eph, day, minor);
    out := "";
    for i := 0 to |aspects.keys|
      invariant out == Unlines(Items(aspects, AspectsLine, i))
    {
      var planet := aspects.keys[i];
      out := AppendAspectsLine(out, Items(aspects, AspectsLine, i), planet, aspects.vals[planet]);
    }
  }

  /** The body of the loop of `get_aspects_formatted`. */
  method AppendAspectsLine(text: string, ghost lines: seq<string>, planet: Body, pa: Buckets) returns (out: string)
    requires text == Unlines(lines)
    ensures out == Unlines(lines + [AspectsLine(planet, pa)])
  {
    var aspectsList := AspectList(pa);
    var line := Name(planet) + " is in " + ListFormatted(aspectsList, false);
    UnlinesSnoc(lines, line);
    out := text + line + "\n";
  }

  /** The innermost loop of both aspect reports. */
  method AspectList(pa: Buckets) returns (list: seq<string>)
    ensures list == Items(pa, AspectItem, |pa.keys|)
  {
    list := [];
    for j := 0 to |pa.keys|
      invariant list == Items(pa, AspectItem, j)
    {
      var aspectName := pa.keys[j];
      list := list + [aspectName + " with " + ListFormatted(Names(pa.vals[aspectName]), false)];
    }
  }

  // ---------------------------------------------------------------------
  // get_aspect_transits_formatted

  /** "square with Mars on Oct 03". */
  function DateItem(fmt: DayFormat, date: int, am: ByAspect): string {
    ListFormatted(Items(am, AspectItem, |am.keys|), false) + " on " + fmt(date)
  }

  function DateItemOf(fmt: DayFormat): (int, ByAspect) -> string {
    (date: int, am: ByAspect) => DateItem(fmt, date, am)
  }

  /** "exiting square with Mars on Oct 03". */
  function DirectionItem(fmt: DayFormat, dir: Direction, dd: ByDate): string {
    DirectionName(dir) + " " + ListFormatted(Items(dd, DateItemOf(fmt), |dd.keys|), false)
  }

  function DirectionItemOf(fmt: DayFormat): (Direction, ByDate) -> string {
    (dir: Direction, dd: ByDate) => DirectionItem(fmt, dir, dd)
  }

  /** "Mars is exiting square with Venus on Oct 03". */
  function TransitLine(fmt: DayFormat, a: Body, dm: ByDirection): string {
    Name(a) + " is " + ListFormatted(Items(dm, DirectionItemOf(fmt), |dm.keys|), false)
  }

  function TransitLineOf(fmt: DayFormat): (Body, ByDirection) -> string {
    (a: Body, dm: ByDirection) => TransitLine(fmt, a, dm)
  }

  ghost predicate CleanDates(dd: ByDate) {
    forall date :: date in dd.vals ==> CleanBuckets(dd.vals[date])
  }

  ghost predicate CleanEntry(dm: ByDirection) {
    forall dir :: dir in dm.vals ==> CleanDates(dm.vals[dir])
  }

  lemma DateItemClean(fmt: DayFormat, date: int, am: ByAspect)
    requires CleanFormat(fmt) && CleanBuckets(am)
    ensures NoNewline(DateItem(fmt, date, am))
  {
    AspectItemsClean(am);
    var list := ListFormatted(Items(am, AspectItem, |am.keys|), false);
    assert NoNewline(list) && NoNewline(fmt(date));
  }

  lemma DirectionItemClean(fmt: DayFormat, dir: Direction, dd: ByDate)
    requires CleanFormat(fmt) && CleanDates(dd)
    ensures NoNewline(DirectionItem(fmt, dir, dd))
  {
    forall date | date in dd.vals ensures NoNewline(DateItemOf(fmt)(date, dd.vals[date])) {
      DateItemClean(fmt, date, dd.vals[date]);
    }
    ItemsClean(dd, DateItemOf(fmt));
    var list := ListFormatted(Items(dd, DateItemOf(fmt), |dd.keys|), false);
    assert NoNewline(list) && NoNewline(DirectionName(dir));
  }

  lemma TransitLineClean(fmt: DayFormat, a: Body, dm: ByDirection)
    requires CleanFormat(fmt) && CleanEntry(dm)
    ensures NoNewline(TransitLine(fmt, a, dm))
  {
    forall dir | dir in dm.vals ensures NoNewline(DirectionItemOf(fmt)(dir, dm.vals[dir])) {
      DirectionItemClean(fmt, dir, dm.vals[dir]);
    }
    ItemsClean(dm, DirectionItemOf(fmt));
    NameClean(a);
  }

  /** The aspect-transits report: one line per subject of the result, in
      order, each the subject's line, and nothing else, provided the aspect
      names and the printed dates are newline-free. */
  lemma AspectTransitsReportLines(post: PostMap, fmt: DayFormat)
    requires CleanFormat(fmt)
    requires forall a :: a in post.vals ==> CleanEntry(post.vals[a])
    ensures var lines := Items(post, TransitLineOf(fmt), |post.keys|);
            ReadsAs(Unlines(lines), lines)
            && forall i :: 0 <= i < |lines| ==> lines[i] == TransitLine(fmt, post.keys[i], post.vals[post.keys[i]])
  {
    var lines := Items(post, TransitLineOf(fmt), |post.keys|);
    forall a | a in post.vals ensures NoNewline(TransitLineOf(fmt)(a, post.vals[a])) {
      TransitLineClean(fmt, a, post.vals[a]);
    }
    ItemsClean(post, TransitLineOf(fmt));
    ReadsAsLines(lines);
    forall i | 0 <= i < |lines| ensures lines[i] == TransitLine(fmt, post.keys[i], post.vals[post.keys[i]]) {
      ItemsAt(post, TransitLineOf(fmt), |post.keys|, i);
    }
  }

  /** Every aspect name in the result of the scan is the name of a table
      row: each list holds a partner, and that partner's record is an
      aspect of today or of the recorded day. */
  lemma AspectTransitsClean(eph: Ephemeris, now: int, minor: bool, maxdays: int)
    ensures var post := AspectTransitsOf(AspectsOf(eph, now, Selected(minor)),
                                         (d: int) => AspectsOf(eph, d, MajorAspects), now, maxdays);
            forall a :: a in post.vals ==> CleanEntry(post.vals[a])
  {
    var today := AspectsOf(eph, now, Selected(minor));
    var fut: Daily := (d: int) => AspectsOf(eph, d, MajorAspects);
    var post := AspectTransitsOf(today, fut, now, maxdays);
    TablesClean(minor);
    TablesClean(false);
    AspectsOfClean(eph, now, Selected(minor));
    PivotFilled(PreTransitsOf(today, fut, now, maxdays));
    forall a, dir, date | a in post.vals && dir in post.vals[a].vals && date in post.vals[a].vals[dir].vals
      ensures CleanBuckets(post.vals[a].vals[dir].vals[date])
    {
      var am := post.vals[a].vals[dir].vals[date];
      forall n | n in am.vals ensures NoNewline(n) {
        NameFromTable(eph, now, minor, maxdays, a, dir, date, n, am.vals[n][0]);
      }
    }
  }

  /** A partner listed under `post[a][dir][date][n]` makes `n` the name of
      a row of a table: of today's table for an exit, of the major table for
      an entry. So `n` is newline-free. */
  lemma NameFromTable(eph: Ephemeris, now: int, minor: bool, maxdays: int, a: Body, dir: Direction, date: int,
                      n: string, b: Body)
    requires var post := AspectTransitsOf(AspectsOf(eph, now, Selected(minor)),
                                          (d: int) => AspectsOf(eph, d, MajorAspects), now, maxdays);
             a in post.vals && b in ListOf(post.vals[a], dir, date, n)
    ensures var table := if dir == Exiting then Selected(minor) else MajorAspects;
            exists i :: 0 <= i < |table| && table[i].name == n
    ensures NoNewline(n)
  {
    var today := AspectsOf(eph, now, Selected(minor));
    var fut: Daily := (d: int) => AspectsOf(eph, d, MajorAspects);
    AspectTransitsSpec(today, fut, now, maxdays, a, dir, date, n, b);
    if dir == Exiting {
      TablesClean(minor);
      AspectsOfClean(eph, now, Selected(minor));
      AspectsOfSpec(eph, now, Selected(minor));
    } else {
      TablesClean(false);
      AspectsOfClean(eph, date, MajorAspects);
      AspectsOfSpec(eph, date, MajorAspects);
    }
  }

  /** The aspect-transits report, as printed: one line per subject of the
      scan, in order, each the subject's line, and nothing else. */
  lemma AspectTransitsReport(eph: Ephemeris, now: int, minor: bool, maxdays: int, fmt: DayFormat)
    requires CleanFormat(fmt)
    ensures var post := AspectTransitsOf(AspectsOf(eph, now, Selected(minor)),
                                         (d: int) => AspectsOf(eph, d, MajorAspects), now, maxdays);
            var lines := Items(post, TransitLineOf(fmt), |post.keys|);
            ReadsAs(Unlines(lines), lines)
            && forall i :: 0 <= i < |lines| ==> lines[i] == TransitLine(fmt, post.keys[i], post.vals[post.keys[i]])
  {
    var post := AspectTransitsOf(AspectsOf(eph, now, Selected(minor)),
                                 (d: int) => AspectsOf(eph, d, MajorAspects), now, maxdays);
    AspectTransitsClean(eph, now, minor, maxdays);
    AspectTransitsReportLines(post, fmt);
  }

  /** `get_aspect_transits_formatted`. */
  method AspectTransitsFormatted(eph: Ephemeris, date: int, now: int, minor: bool, maxdays: int, fmt: DayFormat)
    returns (out: string)
    ensures var post := AspectTransitsOf(AspectsOf(eph, now, Selected(minor)), (d: int) => AspectsOf(eph, d, MajorAspects),
                                         now, maxdays);
            out == Unlines(Items(post, TransitLineOf(fmt), |post.keys|))
  {
    var aspectTransits := GetAspectTransits(eph, date, now, minor, maxdays);
    out := "";
    for i := 0 to |aspectTransits.keys|
      invariant out == Unlines(Items(aspectTransits, TransitLineOf(fmt), i))
    {
      var planet := aspectTransits.keys[i];
      out := AppendTransitLine(out, Items(aspectTransits, TransitLineOf(fmt), i), planet, aspectTransits.vals[planet], fmt);
    }
  }

  /** The body of the loop of `get_aspect_transits_formatted`. */
  method AppendTransitLine(text: string, ghost lines: seq<string>, planet: Body, dm: ByDirection, fmt: DayFormat)
    returns (out: string)
    requires text == Unlines(lines)
    ensures out == Unlines(lines + [TransitLine(fmt, planet, dm)])
  {
    var directionList := DirectionList(dm, fmt);
    var line := Name(planet) + " is " + ListFormatted(directionList, false);
    UnlinesSnoc(lines, line);
    out := text + line + "\n";
  }

  method DirectionList(dm: ByDirection, fmt: DayFormat) returns (list: seq<string>)
    ensures list == Items(dm, DirectionItemOf(fmt), |dm.keys|)
  {
    list := [];
    for j := 0 to |dm.keys|
      invariant list == Items(dm, DirectionItemOf(fmt), j)
    {
      var direction := dm.keys[j];
      var item := DirectionText(direction, dm.vals[direction], fmt);
      list := list + [item];
    }
  }

  /** The body of the direction loop. */
  method DirectionText(direction: Direction, dd: ByDate, fmt: DayFormat) returns (item: string)
    ensures item == DirectionItem(fmt, direction, dd)
  {
    var dateList := DateList(dd, fmt);
    item := DirectionName(direction) + " " + ListFormatted(dateList, false);
  }

  method DateList(dd: ByDate, fmt: DayFormat) returns (list: seq<string>)
    ensures list == Items(dd, DateItemOf(fmt), |dd.keys|)
  {
    list := [];
    for k := 0 to |dd.keys|
      invariant list == Items(dd, DateItemOf(fmt), k)
    {
      var date := dd.keys[k];
      var aspectList := AspectList(dd.vals[date]);
      list := list + [ListFormatted(aspectList, false) + " on " + fmt(date)];
    }
  }
}
