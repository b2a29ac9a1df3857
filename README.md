# astrolobot: a verified model of the astrology engine

astrolobot is a chat bot that answers commands with the current sky. Its
engine lives in `astrolobot.py` and does five things:

- **Positions.** It reads the longitude and speed of twelve bodies from the
  Swiss Ephemeris and derives the South Node from the North Node. It then
  classifies each body by zodiac sign and by retrograde motion.
- **Transits.** It scans forward day by day for the first change of each
  body's sign or retrograde state.
- **Aspects.** It finds the aspects between pairs of bodies. An aspect is an
  angular separation within an orb of a table angle.
- **Aspect transits.** It scans the coming days for aspects that end and
  aspects that begin. It keeps the results in a nested dictionary, then
  regroups them by subject, direction, date and aspect.
- **Reports.** It turns each of these results into the text the bot posts.

The model has one Dafny module per stage:

| module | models |
|---|---|
| `Dicts` | insertion-ordered dictionaries (a key sequence plus a map) with Python's assignment and `del` |
| `Sky` | signs, retrograde motion and the position snapshot |
| `Transits` | the transit scan |
| `Aspects` | the aspect calculator |
| `PreTransits` | the nested record dictionary of the aspect-transit scan and the helpers that write it |
| `PostTransits` | the regrouping |
| `AspectTransits` | the two passes and the whole aspect-transit scan |
| `Text` | the list formatter and newline-terminated text |
| `Reports` | the four formatted reports |

The code either builds a value or loops over and updates state. Where it
builds a value, the model has functions. Where it loops and updates, the
model has methods with loops. Each such method is proved equal to a
specification function, and the properties the engine promises are proved
as lemmas about those functions.

The aspect-transit scan updates a dictionary that several nested helpers
share. It is modelled as a class, `PreTransits.Recorder`, whose field `pre`
those helpers update in place.

The ephemeris is an oracle: a function from an integer day and a body to a
longitude in [0, 360) and a speed. The date format is a parameter as well.

The model follows the code exactly, including behaviour that the code's
own names and data suggest was not meant:

- **The conjunction.** The aspect table has a conjunction row (angle 0,
  orb 10), but the test `(angle - orb) % 360 < diff < (angle + orb) % 360`
  turns it into the window `350 < diff < 10`, which no separation
  satisfies. So the row is dead and no conjunction is ever reported. See
  `Aspects.ConjunctionNeverMatches` and `Aspects.NoConjunction`.
- **The aspect-transit scan is not complete.** The scan only looks at the
  partners of an aspect that has no record yet. An exit record also
  suppresses an entry of the same subject, aspect and partner. So some
  aspects that end or begin are never reported. The model proves that
  everything reported is justified and dated on the first day its change
  is seen, and that exit records survive the entry pass.
- **Future days use the major table.** `get_aspect_transits` looks up
  today's aspects with the `minor` flag (line 261) but every future day
  with the default major table (lines 302 and 329). So with `minor` set,
  every minor aspect of today is reported as exiting on the first day, and
  every major aspect of the first day that today lacks as entering.
  `AspectTransits.GetAspectTransits` states this: today's set is
  `Selected(minor)`, each day's set `MajorAspects`.
- **When the transit scan stops.** The scan stops once 12 bodies have a
  transit (line 167), although the snapshot has 13 bodies.
- **Spellings.** The aspect names "conjuction" and "oposition" are kept as
  the code spells them.

## Model

| member | source | states |
|---|---|---|
| Dicts.Empty | astrolobot.py:91 | a new dictionary has no keys and no entries |
| Dicts.Put | astrolobot.py:95-98 | assigning a key sets its value; an existing key keeps its place, a new key goes last |
| Dicts.Without | astrolobot.py:225 | removing a key from the key order leaves exactly the other keys, still distinct |
| Dicts.Remove | astrolobot.py:225 | `del d[k]` drops the entry of `k` and nothing else, and drops `k` from the key order |
| Dicts.WithoutAt | astrolobot.py:225 | dropping the key at position i of a distinct order leaves the keys before and after it in their order |
| Dicts.RemoveAt | astrolobot.py:225 | deleting the key at position i leaves the other keys in their order |
| Dicts.RemoveAbsent | astrolobot.py:225 | deleting a missing key changes nothing |
| Dicts.RemoveFirst | astrolobot.py:224-225 | deleting the first key of the snapshot leaves the rest of the order |
| Sky.Mod360 | astrolobot.py:101 | Python's float `% 360`: the result is in [0, 360) and differs from the input by a whole multiple of 360 |
| Sky.SignIndex | astrolobot.py:68 | `int(angle // 30)` is in 0..11 and names the 30-degree band holding the angle |
| Sky.ZodiacBand | astrolobot.py:65-68 | `get_zodiac` names sign k exactly when the angle lies in [30k, 30k + 30) |
| Sky.ZodiacDistinct | astrolobot.py:66-67 | the twelve sign names are pairwise different |
| Sky.RetrogradeOnlyBackwards | astrolobot.py:70-71 | retrograde exactly when the speed is negative; a station (speed 0) is not retrograde |
| Sky.SouthNodeOpposite | astrolobot.py:99-103 | the South Node is exactly 180 degrees from the North Node, six signs on, with the same retrograde state |
| Sky.AllBodiesDistinct | astrolobot.py:77-103 | the thirteen snapshot keys are distinct |
| Sky.AllBodiesComplete | astrolobot.py:77-103 | every body is in the snapshot |
| Sky.QueriedStep | astrolobot.py:93-103 | the ephemeris is asked about each of the twelve bodies once, the North Node last, never the South Node |
| Sky.GetPositionsRaw | astrolobot.py:73-105 | the snapshot has the thirteen bodies in order, South Node right after North Node, each with the ephemeris reading (South Node derived) |
| Sky.GetPositions | astrolobot.py:107-117 | same keys and order as the raw snapshot, each body classified by sign and retrograde state |
| Sky.SnapshotSouthNode | astrolobot.py:99-117 | every body but the South Node is classified from its own reading; the South Node's sign is six signs from the North Node's and its retrograde state equals the North Node's |
| Transits.MakeTransit | astrolobot.py:173-179 | the recorded transit carries the day, blanks exactly the attributes equal to today's, and is never empty when the position changed |
| Transits.MakeTransitApply | astrolobot.py:173-179 | applying a transit to today's position gives back the future position (no information is lost) |
| Transits.ScanDaySpec | astrolobot.py:171-179 | one day records exactly the unrecorded bodies whose position differs, keeps earlier records unchanged, and records the changes of that day |
| Transits.ScanDayExamined | astrolobot.py:167-180 | each day of the loop keeps the invariant: recorded bodies hold their first change, unrecorded bodies have not changed yet |
| Transits.RunSpec | astrolobot.py:167-180 | the loop ends with that invariant, having stopped at 12 entries or after `maxdays` days |
| Transits.TransitsOfSpec | astrolobot.py:161-182 | every transit is the first change within `maxdays` with exactly the changed attributes; with fewer than 12 entries every missing body is unchanged throughout |
| Transits.TransitsNonEmpty | astrolobot.py:173-179 | a recorded transit changes sign or retrograde state, and applying it to the start gives the position on its day |
| Transits.RunFrame | astrolobot.py:167-172 | the loop reads positions only on the days it examines |
| Transits.TransitsFrame | astrolobot.py:167-170 | the result depends only on the days before the stop day, which is at most `maxdays + 1`; the scan stops at 12 entries or after `maxdays` |
| Transits.ScanDays | astrolobot.py:165-180 | the `while` loop computes the specified transit map |
| Transits.RecordDay | astrolobot.py:170-179 | one day's inner loop computes the specified one-day update |
| Transits.GetTransits | astrolobot.py:161-182 | `get_transits` returns the specified transit map |
| Text.Join | astrolobot.py:130-134 | joining newline-free items with a newline-free separator gives a newline-free string |
| Text.ListFormatted | astrolobot.py:119-137 | the list of newline-free items is newline-free |
| Text.ListFormattedShapes | astrolobot.py:119-137 | "Nothing", "a", "a and b", "a, b, and c", with " is " / " are " when asked |
| Text.ListFormattedVerb | astrolobot.py:123-136 | the verb form is the plain form plus " is " for at most one item, " are " for more |
| Text.JoinCommaSpliced | astrolobot.py:134 | the comma join of all but the last item, then ", and " and the last, is the spliced list |
| Text.ListFormattedIsSpliced | astrolobot.py:133-134 | for three or more items the list is every item but the last followed by ", ", then "and " and the last |
| Text.UnlinesAppend | astrolobot.py:149-155 | appending lines to a newline-terminated text is concatenation |
| Text.UnlinesInjective | astrolobot.py:149-155 | newline-terminated text of newline-free lines determines its lines |
| Aspects.IsNodeExactly | astrolobot.py:226-227 | helper fact: among the thirteen bodies, exactly the North and the South Node have names ending in "Node" |
| Aspects.Append | astrolobot.py:235-238 | appending to a bucket (creating it on a missing key) adds exactly that partner and keeps buckets non-empty |
| Aspects.AddHitsSpec | astrolobot.py:231-238 | trying the table rows on one partner adds it under exactly the rows whose window holds the separation |
| Aspects.PartnerScanSpec | astrolobot.py:229-238 | scanning the partners adds exactly the (aspect, partner) pairs that hit |
| Aspects.SubjectSpec | astrolobot.py:225-240 | a subject is skipped when a node and listed only with at least one aspect |
| Aspects.PutSubject | astrolobot.py:239-240 | helper fact: storing a subject's buckets adds exactly its pairs to the set of listed triples |
| Aspects.AspectsLoopSpec | astrolobot.py:224-240 | the loop lists exactly the pairs of non-node subjects with later partners that hit |
| Aspects.AspectsOfSpec | astrolobot.py:200-242 | b is under aspect n of a exactly when a is not a node, b comes after a and a row named n matches their separation; no empty entries |
| Aspects.SubjectsHaveAspects | astrolobot.py:239-240 | a subject is listed exactly when it has an aspect |
| Aspects.PairsOnce | astrolobot.py:224-229 | no body aspects itself and each pair is listed under its earlier body only |
| Aspects.Mod360Near | astrolobot.py:232-233 | the window ends reduce modulo 360 as the float operator does |
| Aspects.WindowsExact | astrolobot.py:232-234 | for every row but the conjunction the test is the open interval angle ± orb |
| Aspects.ConjunctionNeverMatches | astrolobot.py:232-234 | the conjunction's window is (350, 10), which no separation satisfies |
| Aspects.NoConjunctionHit | astrolobot.py:204 | no row named "conjuction" ever matches |
| Aspects.NoConjunction | astrolobot.py:200-242 | no conjunction is ever reported |
| Aspects.PlanetAspects | astrolobot.py:228-238 | the two inner loops compute the specified buckets |
| Aspects.GetAspects | astrolobot.py:200-242 | `get_aspects` returns the specified aspect map for the selected table |
| PreTransits.DirectionName | astrolobot.py:384 | direction keys are non-empty and newline-free |
| PreTransits.AspectsContains | astrolobot.py:265-272 | true exactly when the subject (and the aspect, and the partner, as given) is present |
| PreTransits.EnsurePathLeaf | astrolobot.py:274-278 | creating missing levels adds no record |
| PreTransits.EnsurePathValue | astrolobot.py:274-278 | creating missing levels changes no record |
| PreTransits.EnsurePathAspect | astrolobot.py:274-278 | creating missing levels adds only the named aspect level |
| PreTransits.PlaceLeafLeaf | astrolobot.py:280-285 | `pre_planet_b` adds exactly the one record |
| PreTransits.PlaceLeafValue | astrolobot.py:280-285 | `pre_planet_b` stores the record and changes no other |
| PreTransits.PlaceAllFrame | astrolobot.py:290-291 | the partner loop of `pre_aspect` adds no aspect level |
| PreTransits.PreAspectFrame | astrolobot.py:287-291 | `pre_aspect` adds no aspect level other than its own |
| PreTransits.PlaceLeafGrows | astrolobot.py:280-285 | a justified `pre_planet_b` keeps all records and adds only justified ones |
| PreTransits.PreAspectGrows | astrolobot.py:287-291 | `pre_aspect` on an aspect that is not yet recorded and that the other set lacks keeps all records and adds only justified ones |
| PreTransits.PrePlanetAGrows | astrolobot.py:293-296 | `pre_planet_a` on a subject that is not yet recorded and that the other set lacks keeps all records and adds only justified ones |
| PreTransits.PartnerLoopGrows | astrolobot.py:317-322 | the partner loop keeps all records and adds only justified ones |
| PreTransits.AspectStepGrows | astrolobot.py:310-322 | one aspect of the loop keeps all records and adds only justified ones |
| PreTransits.AspectLoopGrows | astrolobot.py:310-322 | the aspect loop keeps all records and adds only justified ones |
| PreTransits.VisitGrows | astrolobot.py:304-322 | one subject keeps all records and adds only justified ones |
| PreTransits.SubjectsGrows | astrolobot.py:303-322 | the subject loop keeps all records and adds only justified ones |
| PreTransits.DayGrows | astrolobot.py:303-322 | one day of a pass never removes or changes a record; every new record is that day's, on an entry the iterated set has and the other set lacks |
| PreTransits.PlaceLeafSettled | astrolobot.py:280-285 | `pre_planet_b` under a missing aspect level keeps every level and records nothing under a level that existed |
| PreTransits.PlaceAllSettled | astrolobot.py:290-291 | the partner loop of `pre_aspect` does the same |
| PreTransits.PlaceAllKeeps | astrolobot.py:290-291 | recording partners never removes an aspect level |
| PreTransits.FreshSettled | astrolobot.py:287-289 | the fresh aspect level of `pre_aspect` keeps every level and adds no record |
| PreTransits.PreAspectSettled | astrolobot.py:287-291 | `pre_aspect` on a missing aspect level writes only under that level |
| PreTransits.PreAspectHas | astrolobot.py:287-291 | `pre_aspect` leaves its aspect level made |
| PreTransits.PreAspectsSettled | astrolobot.py:295-296 | the aspect loop of `pre_planet_a` writes only under levels missing before |
| PreTransits.PreAspectsHas | astrolobot.py:295-296 | the aspect loop of `pre_planet_a` makes every aspect level of the subject |
| PreTransits.PrePlanetASettled | astrolobot.py:293-296 | `pre_planet_a` on a missing subject writes only under it and makes all its aspect levels |
| PreTransits.PartnerLoopSettled | astrolobot.py:317-322 | the partner loop under a missing aspect level records nothing under a level that existed |
| PreTransits.PartnerLoopHas | astrolobot.py:317-322 | after the partner loop the aspect level is made if a partner looked at is missing from the other set |
| PreTransits.AspectStepSettled | astrolobot.py:310-322 | one aspect writes only under a level missing before it, and leaves its level made if a partner is missing from the other set |
| PreTransits.AspectStepLevel | astrolobot.py:310-322 | one aspect keeps every level and leaves its own made if a partner is missing from the other set |
| PreTransits.LevelKept | astrolobot.py:310-322 | a made aspect level stays made while no level disappears |
| PreTransits.AspectLoopSettled | astrolobot.py:310-322 | the aspect loop writes only under levels missing before it |
| PreTransits.AspectLoopCovers | astrolobot.py:310-322 | the aspect loop makes the level of every aspect with a partner the other set lacks |
| PreTransits.LevelsCover | astrolobot.py:310-322 | when each aspect in key order has its level made, the subject is covered |
| PreTransits.VisitSettled | astrolobot.py:304-322 | one subject writes only under levels missing before it and covers its entries that the other set lacks |
| PreTransits.CoversKept | astrolobot.py:304-322 | a covered subject stays covered while no level disappears |
| PreTransits.SubjectsSettled | astrolobot.py:303-322 | the subject loop writes only under levels missing before it and covers every entry the other set lacks |
| PreTransits.DaySettled | astrolobot.py:303-322 | one day of a pass keeps every aspect level, records nothing under a level that existed at its start, and ends with the level of every entry of the iterated set that the other set lacks made |
| PreTransits.Recorder.constructor | astrolobot.py:262 | the record dictionary starts empty |
| PreTransits.Recorder.EnsurePrePath | astrolobot.py:274-278 | `ensure_pre_path` updates the shared dictionary as specified |
| PreTransits.Recorder.PrePlanetB | astrolobot.py:280-285 | `pre_planet_b` updates the shared dictionary as specified |
| PreTransits.Recorder.PreAspect | astrolobot.py:287-291 | `pre_aspect` and its loop update the shared dictionary as specified |
| PreTransits.Recorder.PrePlanetA | astrolobot.py:293-296 | `pre_planet_a` and its loop update the shared dictionary as specified |
| PreTransits.Recorder.ScanPassDay | astrolobot.py:303-322 | the subject loop of one day updates the dictionary to `DayOf` of its old value |
| PreTransits.Recorder.ScanSubject | astrolobot.py:304-322 | one subject (the try/except on it and its aspect loop) as specified |
| PreTransits.Recorder.ScanPartners | astrolobot.py:317-322 | the partner loop as specified |
| PreTransits.Recorder.VisitPartner | astrolobot.py:318-322 | one partner: a record is written only when missing and the other set lacks the pair |
| PostTransits.AddToAspectsList | astrolobot.py:363-365 | filing a partner appends it to exactly the list of its aspect |
| PostTransits.AddToDatesList | astrolobot.py:361-365 | filing under a date appends to exactly one list of that date |
| PostTransits.AddLeafList | astrolobot.py:357-365 | filing a record appends its partner to exactly one list, that of its direction, date and aspect |
| PostTransits.MatchingMembers | astrolobot.py:356-365 | the partners listed are exactly those whose record is that direction and date |
| PostTransits.MatchingDistinct | astrolobot.py:356-365 | no partner is listed twice |
| PostTransits.PivotPartnersList | astrolobot.py:356-365 | regrouping one aspect's partners extends each list by exactly its matching partners |
| PostTransits.PivotAspectsList | astrolobot.py:355-365 | regrouping one subject's aspects extends each list by that aspect's matching partners |
| PostTransits.AspectMatchesAbsent | astrolobot.py:355 | an aspect not among the subject's contributes nothing |
| PostTransits.AspectMatchesOnce | astrolobot.py:355 | an aspect appears once among the subject's, so its partners are listed once |
| PostTransits.PivotSubjectList | astrolobot.py:354-365 | a subject's regrouped list is exactly its matching partners |
| PostTransits.PivotAllFrame | astrolobot.py:353-354 | regrouping later subjects leaves earlier entries alone |
| PostTransits.PivotAllValue | astrolobot.py:353-354 | every subject of the records gets an entry built from its own records |
| PostTransits.PivotAllKeys | astrolobot.py:353-354 | the result has the subjects of the records, in the same order |
| PostTransits.PostListSpec | astrolobot.py:353-365 | b is in the list for (a, direction, date, n) exactly when its record says that direction and date, and the list is duplicate-free |
| PostTransits.PivotSpec | astrolobot.py:351-367 | same subjects in the same order; every list is exactly the recorded partners with that direction and date |
| PostTransits.PivotFilled | astrolobot.py:359-365 | every direction level holds a date, every date level an aspect, and every aspect list at least one partner |
| PostTransits.PivotAspect | astrolobot.py:356-365 | the partner loop computes the specified regrouping |
| PostTransits.PivotSubject | astrolobot.py:354-365 | the aspect loop of one subject computes the specified regrouping |
| PostTransits.Pivot | astrolobot.py:351-367 | the regrouping loop computes the specified result |
| AspectTransits.PassStep | astrolobot.py:298-301 | unfolding step used by the loop proof: a pass with days left is its next day and then the rest |
| AspectTransits.DayEffect | astrolobot.py:303-322 | one day of a pass keeps every record and aspect level; a new record carries that day, names an entry that changes on it and lies under an aspect level missing before; every entry that changes on it ends with its aspect level made |
| AspectTransits.DaySound | astrolobot.py:298-322 | one day of a pass keeps every record and adds only justified ones, each dated on the first day its entry changes |
| AspectTransits.PassSound | astrolobot.py:298-349 | a whole pass keeps every record and adds only justified ones, each dated on the first day its entry changes |
| AspectTransits.PreTransitsSound | astrolobot.py:298-349 | after both passes every record is justified and every exit record survives the entry pass |
| AspectTransits.JustifiedFirst | astrolobot.py:298-349 | a justified exit's aspect is present on every window day before its date; a justified entry's aspect is absent on each of them |
| AspectTransits.AspectTransitsSpec | astrolobot.py:257-367 | each listed partner lies in the window; an exit is an aspect of today missing on its date and present on every earlier window day; an entry is an aspect of that date that today lacks and that is absent on every earlier window day; no list repeats a partner |
| AspectTransits.ScanFutureDay | astrolobot.py:299-322 | one loop body updates the record dictionary as that day of the pass specifies |
| AspectTransits.RunPass | astrolobot.py:298-322 | either `while` loop updates the record dictionary as its pass specifies |
| AspectTransits.GetAspectTransits | astrolobot.py:257-367 | `get_aspect_transits` returns the regrouped result of the two specified passes |
| Reports.CollectPositions | astrolobot.py:141-147 | the loop collects the retrograde names and the thirteen position strings in snapshot order |
| Reports.RetrogradeNamesSpec | astrolobot.py:144-146 | a body is named as retrograde exactly when it is retrograde |
| Reports.RetrogradeNamesIn | astrolobot.py:144-146 | the same for every prefix of the loop |
| Reports.PositionRows | astrolobot.py:147-155 | the rows hold 2, 3, 3, 3 and 2 position strings that together are the thirteen, in order |
| Reports.Rows | astrolobot.py:151-155 | the slices at 2, 5, 8, 11 and 13 split thirteen items into those five rows |
| Reports.PositionLinesClean | astrolobot.py:149-155 | none of the six lines contains a newline |
| Reports.PositionsReportLines | astrolobot.py:149-157 | the positions report is exactly six newline-terminated lines |
| Reports.SixLines | astrolobot.py:149-155 | six appended lines are the newline-terminated text of those lines |
| Reports.PositionsFormatted | astrolobot.py:139-157 | `get_positions_formatted` returns the specified six-line report |
| Reports.TransitLinesClean | astrolobot.py:191-196 | a transit that changes something prints one or two unbroken lines |
| Reports.TransitsClean | astrolobot.py:191-196 | every recorded transit changes something, and a sign it enters is one of the twelve names (so newline-free) |
| Reports.TransitsReportLines | astrolobot.py:186-198 | the transits report has one or two lines per transit, and nothing else |
| Reports.AppendTransit | astrolobot.py:191-196 | one turn of the loop appends exactly that transit's lines |
| Reports.TransitStep | astrolobot.py:190-196 | after turn i the text is the lines of the first i + 1 transits |
| Reports.TransitsFormatted | astrolobot.py:186-198 | `get_transits_formatted` returns the lines of every transit, in order |
| Reports.TablesClean | astrolobot.py:203-217 | no aspect name contains a newline |
| Reports.AspectsOfClean | astrolobot.py:248-253 | every aspect name in the result is newline-free |
| Reports.AspectsLineClean | astrolobot.py:249-253 | a subject's aspects line is unbroken |
| Reports.AspectsReportLines | astrolobot.py:244-255 | the aspects report is one line per subject, in order, each that subject's line |
| Reports.AspectList | astrolobot.py:250-252 | the inner loop builds "aspect with partners" for every aspect, in order |
| Reports.AppendAspectsLine | astrolobot.py:249-253 | one turn appends exactly that subject's line |
| Reports.AspectsFormatted | astrolobot.py:244-255 | `get_aspects_formatted` returns the line of every subject, in order |
| Reports.DateItemClean | astrolobot.py:383 | a date item is unbroken |
| Reports.DirectionItemClean | astrolobot.py:384 | a direction item is unbroken |
| Reports.TransitLineClean | astrolobot.py:385 | a subject's aspect-transits line is unbroken |
| Reports.AspectTransitsReportLines | astrolobot.py:369-387 | with unbroken names and dates the report is one line per subject, in order |
| Reports.NameFromTable | astrolobot.py:381-382 | every listed aspect name is the name of a row of today's table (exit) or of the major table (entry), so it is newline-free |
| Reports.AspectTransitsClean | astrolobot.py:371-382 | every aspect name in the scan's result is newline-free |
| Reports.AspectTransitsReport | astrolobot.py:369-387 | the aspect-transits report is one line per subject of the scan, in order, each that subject's line |
| Reports.DateList | astrolobot.py:378-383 | the date loop builds one item per date, in order |
| Reports.DirectionText | astrolobot.py:384 | one direction's item is its name and its dates |
| Reports.DirectionList | astrolobot.py:376-384 | the direction loop builds one item per direction, in order |
| Reports.AppendTransitLine | astrolobot.py:375-385 | one turn appends exactly that subject's line |
| Reports.AspectTransitsFormatted | astrolobot.py:369-387 | `get_aspect_transits_formatted` returns the line of every subject of the scan, in order |

## Left out

- The Swiss Ephemeris, Julian days and the Lahiri sidereal mode are an oracle function `Ephemeris` from day and body to longitude and speed. The model assumes the longitude is already in [0, 360).
- `today()`, timestamps, time zones and `datetime` are not modelled. Days are integers, and `now` is passed in explicitly.
- `strftime` is the parameter `DayFormat`. The report lemmas assume it prints no newline.
- Floating-point arithmetic is modelled as exact real arithmetic.
- `@cache` is not modelled, and it does change results. Every operation is modelled as a fresh computation from its arguments. The code differs in three ways:
  - `get_aspect_transits` reads `today()` itself (line 259) but is cached on `(date, minor, maxdays)`. A later call with the same arguments returns the scan of the first day it ran.
  - The defaults `date=today()` (lines 74, 108, 140, 162, 187, 201, 245, 258, 370) are evaluated once, when the module loads. A call without a date reports the load day.
  - `get_transits` writes `date`, and `None` for unchanged attributes, into the dictionaries that the cached `get_positions` returned (lines 174-178). Later cached calls for those days return the altered dictionaries. The model builds a fresh transit value.
- Python's `None` for an omitted argument is `Option` (`PreTransits.AspectsContains`, `PreTransits.Recorder.EnsurePrePath`).
- Loop bodies are split out as methods (`ScanFutureDay`, `VisitPartner`, `AppendTransit`, …). The exit and entry `while` loops, which differ only in which set is iterated, are one method, `AspectTransits.RunPass`, with a direction argument.
- AspectTransits.AspectTransitsSpec: states soundness only (every listed partner is justified and dated on the first day its change is seen, and exit records survive). It does not state that every ending or beginning aspect is listed, because the code does not ensure that.
- AspectTransits.GetAspectTransits: the `date` argument is accepted and ignored, as in the code.
- Reports.AspectTransitsFormatted: the `date` argument is accepted and ignored, as in the code.
- Reports.AppendAspectsLine: appends the subject's line in one step rather than the two additions of the code. The text produced is the same.
- Reports.AppendTransitLine: appends the subject's line in one step rather than the two additions of the code. The text produced is the same.
- The command table, package installation, the Twitch login and chat handlers and the OBS script hooks are outside the engine and are not modelled.
