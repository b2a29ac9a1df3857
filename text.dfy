/** The text helpers of the report formatters: Python's `str.join`, the
    engine's grammatical list joiner (`get_list_formatted`) and the
    newline-terminated lines every report is made of. */
module Text {

  predicate NoNewline(s: string) {
    '\n' !in s
  }

  predicate AllNoNewline(items: seq<string>) {
    forall i :: 0 <= i < |items| ==> NoNewline(items[i])
  }

  /** Python's `sep.join(items)`. */
  function Join(items: seq<string>, sep: string): (r: string)
    ensures NoNewline(sep) && AllNoNewline(items) ==> NoNewline(r)
  {
    if |items| == 0 then ""
    else if |items| == 1 then items[0]
    else items[0] + sep + Join(items[1..], sep)
  }

  /** `get_list_formatted`: "Nothing", "A", "A and B" or "A, B, and C", followed
      by " is " or " are " when the list is the subject of a sentence. */
  function ListFormatted(items: seq<string>, isare: bool): (r: string)
    ensures AllNoNewline(items) ==> NoNewline(r)
  {
    match |items|
    case 0 => "Nothing" + (if isare then " is " else "")
    case 1 => items[0] + (if isare then " is " else "")
    case 2 => Join(items, " and ") + (if isare then " are " else "")
    case _ =>
      var n := |items|;
      Join(items[..n - 1], ", ") + ", and " + items[n - 1] + (if isare then " are " else "")
  }

  /** The words that follow item `i` of an `n`-item list in the joined text. */
  function Connective(n: nat, i: nat): string {
    if i + 1 >= n then ""
    else if n == 2 then " and "
    else if i + 2 == n then ", and "
    else ", "
  }

  /** Items `i..` of the list, each followed by its connective: an independent
      reading of the joining rule, item by item. */
  function Spliced(items: seq<string>, i: nat): string
    decreases |items| - i
  {
    if i >= |items| then ""
    else items[i] + Connective(|items|, i) + Spliced(items, i + 1)
  }

  /** The four shapes of the joined list, on lists of up to three items. */
  lemma ListFormattedShapes(a: string, b: string, c: string)
    ensures ListFormatted([], false) == "Nothing" && ListFormatted([], true) == "Nothing is "
    ensures ListFormatted([a], false) == a && ListFormatted([a], true) == a + " is "
    ensures ListFormatted([a, b], false) == a + " and " + b
    ensures ListFormatted([a, b], true) == a + " and " + b + " are "
    ensures ListFormatted([a, b, c], false) == a + ", " + b + ", and " + c
  {
    assert [a, b][1..] == [b];
    assert Join([a, b], " and ") == a + " and " + b;
    assert [a, b, c][..2] == [a, b];
    assert Join([a, b], ", ") == a + ", " + b;
  }

  /** The verb suffix: " is " after zero or one item, " are " after more. */
  lemma ListFormattedVerb(items: seq<string>)
    ensures ListFormatted(items, true)
         == ListFormatted(items, false) + (if |items| <= 1 then " is " else " are ")
  {
  }

  lemma {:induction false} JoinCommaSpliced(items: seq<string>, i: nat)
    requires |items| >= 3 && i <= |items| - 2
    ensures Join(items[i..|items| - 1], ", ") + ", and " + items[|items| - 1] == Spliced(items, i)
    decreases |items| - i
  {
    var n := |items|;
    var last := items[n - 1];
    if i == n - 2 {
      JoinCommaLast(items);
    } else {
      var tail := Join(items[i + 1..n - 1], ", ");
      JoinCommaSpliced(items, i + 1);
      JoinCommaStep(items, i);
      AppendAssoc(items[i] + ", ", tail, ", and ");
      AppendAssoc(items[i] + ", ", tail + ", and ", last);
    }
  }

  /** Concatenation regroups; stated once so that proofs can cite it. */
  lemma AppendAssoc<T>(x: seq<T>, y: seq<T>, z: seq<T>)
    ensures x + y + z == x + (y + z)
  {
  }

  /** The last two items are joined by ", and ". */
  lemma JoinCommaLast(items: seq<string>)
    requires |items| >= 3
    ensures Join(items[|items| - 2..|items| - 1], ", ") + ", and " + items[|items| - 1] == Spliced(items, |items| - 2)
  {
    var n := |items|;
    assert items[n - 2..n - 1] == [items[n - 2]];
    assert Spliced(items, n - 1) == items[n - 1] + "" + "";
  }

  /** Away from the end, item `i` is followed by ", " in both readings. */
  lemma JoinCommaStep(items: seq<string>, i: nat)
    requires |items| >= 3 && i < |items| - 2
    ensures Join(items[i..|items| - 1], ", ") == items[i] + ", " + Join(items[i + 1..|items| - 1], ", ")
    ensures Spliced(items, i) == items[i] + ", " + Spliced(items, i + 1)
  {
    assert items[i..|items| - 1][1..] == items[i + 1..|items| - 1];
  }

  /** The joined list is every item followed by its connective, in order:
      ", " between items, ", and " before the last of three or more, " and "
      between exactly two. */
  lemma ListFormattedIsSpliced(items: seq<string>)
    requires items != []
    ensures ListFormatted(items, false) == Spliced(items, 0)
  {
    var n := |items|;
    if n == 1 {
      assert Spliced(items, 1) == "";
    } else if n == 2 {
      assert Spliced(items, 2) == "";
      assert Spliced(items, 1) == items[1];
      assert items[1..] == [items[1]];
      assert Join(items, " and ") == items[0] + " and " + items[1];
    } else {
      JoinCommaSpliced(items, 0);
      assert items[0..n - 1] == items[..n - 1];
    }
  }

  /** A report: each line followed by a newline. */
  function Unlines(lines: seq<string>): string {
    if lines == [] then "" else lines[0] + "\n" + Unlines(lines[1..])
  }

  lemma {:induction false} UnlinesAppend(a: seq<string>, b: seq<string>)
    ensures Unlines(a + b) == Unlines(a) + Unlines(b)
  {
    if a != [] {
      assert (a + b)[1..] == a[1..] + b;
      UnlinesAppend(a[1..], b);
    } else {
      assert a + b == b;
    }
  }

  /** In `x + "\n" + t` with `x` newline-free, the first newline ends `x`. */
  lemma NewlineAfter(x: string, t: string)
    requires NoNewline(x)
    ensures (x + "\n" + t)[|x|] == '\n'
    ensures forall i :: 0 <= i < |x| ==> (x + "\n" + t)[i] != '\n'
  {
    forall i | 0 <= i < |x| ensures (x + "\n" + t)[i] != '\n' {
      assert (x + "\n" + t)[i] == x[i];
    }
  }

  /** Reading a report back into lines: two reports made of newline-free lines
      are the same text only when they are the same lines, so a report has
      exactly as many lines as the sequence it was built from. */
  lemma {:induction false} UnlinesInjective(a: seq<string>, b: seq<string>)
    requires AllNoNewline(a) && AllNoNewline(b)
    requires Unlines(a) == Unlines(b)
    ensures a == b
  {
    if a == [] || b == [] {
    } else {
      var s := Unlines(a);
      var x, y := a[0], b[0];
      NewlineAfter(x, Unlines(a[1..]));
      NewlineAfter(y, Unlines(b[1..]));
      assert |x| == |y|;
      assert x == s[..|x|] == y;
      assert Unlines(a[1..]) == s[|x| + 1..] == Unlines(b[1..]);
      UnlinesInjective(a[1..], b[1..]);
      assert a == [x] + a[1..] && b == [y] + b[1..];
    }
  }
}
