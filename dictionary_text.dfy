/**
 * The text form of the logging-scope dictionaries: every entry is rendered as
 * `key:value`, in enumeration order, and the entries are joined with `,`.
 * The two dictionary classes differ only in what an empty dictionary prints.
 * A dictionary is modelled by its entries in enumeration order, with keys and
 * values already converted to text.
 */
module DictionaryText {

  type Entries = seq<(string, string)>

  const Separator: char := ','

  /** `$"{x.Key}:{x.Value}"`. */
  function RenderEntry(e: (string, string)): string {
    e.0 + ":" + e.1
  }

  /** The `Select` over the dictionary: one rendered entry per entry, in order. */
  function RenderAll(d: Entries): (r: seq<string>)
    ensures |r| == |d|
    ensures forall i :: 0 <= i < |d| ==> r[i] == RenderEntry(d[i])
  {
    if d == [] then [] else [RenderEntry(d[0])] + RenderAll(d[1..])
  }

  /** `string.Join(",", items)`: the separator goes only between two items. */
  function Join(items: seq<string>): (r: string)
    ensures |items| == 0 ==> r == ""
    ensures |items| > 0 ==> |r| >= |items[0]| && r[..|items[0]|] == items[0]
    ensures |items| > 0 ==> |r| >= |items[|items| - 1]| && r[|r| - |items[|items| - 1]|..] == items[|items| - 1]
  {
    if |items| == 0 then ""
    else if |items| == 1 then items[0]
    else
      var rest := Join(items[1..]);
      var r := items[0] + [Separator] + rest;
      assert r[|r| - |rest|..] == rest;
      assert r[..|items[0]|] == items[0];
      r
  }

  /** `FormatableDictionary.ToString`. */
  function FormatableToString(d: Entries): (r: string)
    ensures |d| == 0 ==> r == "[]"
    ensures |d| == 1 ==> r == d[0].0 + ":" + d[0].1
  {
    var keyValuePairs := RenderAll(d);
    if |keyValuePairs| == 0 then "[]" else Join(keyValuePairs)
  }

  /** `FormattedDictionary.ToString`. */
  function FormattedToString(d: Entries): (r: string)
    ensures |d| == 0 ==> r == "{}"
    ensures |d| == 1 ==> r == d[0].0 + ":" + d[0].1
  {
    var keyValuePairs := RenderAll(d);
    if |keyValuePairs| > 0 then Join(keyValuePairs) else "{}"
  }

  /** The two classes print the same text for every non-empty dictionary and differ on the empty one. */
  lemma FormatsAgreeExceptWhenEmpty(d: Entries)
    ensures |d| > 0 ==> FormatableToString(d) == FormattedToString(d)
    ensures |d| == 0 ==> FormatableToString(d) != FormattedToString(d)
  {
    if |d| == 0 {
      assert FormatableToString(d)[0] != FormattedToString(d)[0];
    }
  }

  /** The number of times `c` occurs in `s`. */
  function Occurrences(s: string, c: char): (n: nat)
    ensures n <= |s|
  {
    if s == [] then 0 else (if s[0] == c then 1 else 0) + Occurrences(s[1..], c)
  }

  lemma {:induction false} OccurrencesAppend(a: string, b: string, c: char)
    ensures Occurrences(a + b, c) == Occurrences(a, c) + Occurrences(b, c)
    decreases |a|
  {
    if a == [] {
      assert a + b == b;
    } else {
      assert (a + b)[1..] == a[1..] + b;
      OccurrencesAppend(a[1..], b, c);
    }
  }

  predicate NoSeparator(s: string) {
    forall i :: 0 <= i < |s| ==> s[i] != Separator
  }

  lemma NoSeparatorConcat(a: string, b: string)
    requires NoSeparator(a) && NoSeparator(b)
    ensures NoSeparator(a + b)
  {
    forall j | 0 <= j < |a + b| ensures (a + b)[j] != Separator {
      if j < |a| {
        assert (a + b)[j] == a[j];
      } else {
        assert (a + b)[j] == b[j - |a|];
      }
    }
  }

  /** A rendered entry holds a comma only if its key or value does. */
  lemma RenderedNoSeparator(d: Entries)
    requires forall i :: 0 <= i < |d| ==> NoSeparator(d[i].0) && NoSeparator(d[i].1)
    ensures forall i :: 0 <= i < |d| ==> NoSeparator(RenderAll(d)[i])
  {
    forall i | 0 <= i < |d| ensures NoSeparator(RenderAll(d)[i]) {
      var e := d[i];
      assert NoSeparator(":") by {
        assert ":"[0] == ':';
      }
      NoSeparatorConcat(e.0, ":");
      NoSeparatorConcat(e.0 + ":", e.1);
      assert RenderAll(d)[i] == e.0 + ":" + e.1;
    }
  }

  lemma {:induction false} NoSeparatorNoOccurrence(s: string)
    requires NoSeparator(s)
    ensures Occurrences(s, Separator) == 0
    decreases |s|
  {
    if s != [] {
      NoSeparatorNoOccurrence(s[1..]);
    }
  }

  /** Joining `n` separator-free items puts exactly `n - 1` separators in the text. */
  lemma {:induction false} JoinSeparatorCount(items: seq<string>)
    requires |items| > 0
    requires forall i :: 0 <= i < |items| ==> NoSeparator(items[i])
    ensures Occurrences(Join(items), Separator) == |items| - 1
    decreases |items|
  {
    NoSeparatorNoOccurrence(items[0]);
    if |items| > 1 {
      JoinSeparatorCount(items[1..]);
      OccurrencesAppend(items[0], [Separator] + Join(items[1..]), Separator);
      OccurrencesAppend([Separator], Join(items[1..]), Separator);
      assert items[0] + [Separator] + Join(items[1..]) == items[0] + ([Separator] + Join(items[1..]));
      assert Occurrences([Separator], Separator) == 1 + Occurrences([], Separator);
    }
  }

  /**
   * A non-empty dictionary whose keys and values hold no comma prints one
   * comma fewer than it has entries (neither `:` nor any other part of an
   * entry adds one).
   */
  lemma SeparatorCount(d: Entries)
    requires |d| > 0
    requires forall i :: 0 <= i < |d| ==> NoSeparator(d[i].0) && NoSeparator(d[i].1)
    ensures Occurrences(FormatableToString(d), Separator) == |d| - 1
    ensures Occurrences(FormattedToString(d), Separator) == |d| - 1
  {
    var items := RenderAll(d);
    RenderedNoSeparator(d);
    JoinSeparatorCount(items);
  }

  /** Splitting text at every separator: the inverse of `Join` for separator-free items. */
  function Split(s: string): (r: seq<string>)
    ensures |r| == Occurrences(s, Separator) + 1
  {
    if s == [] then [""]
    else if s[0] == Separator then [""] + Split(s[1..])
    else
      var rest := Split(s[1..]);
      [[s[0]] + rest[0]] + rest[1..]
  }

  lemma {:induction false} SplitPlain(x: string)
    requires NoSeparator(x)
    ensures Split(x) == [x]
    decreases |x|
  {
    if x != [] {
      SplitPlain(x[1..]);
      assert [x[0]] + x[1..] == x;
    }
  }

  lemma {:induction false} SplitFirst(x: string, rest: string)
    requires NoSeparator(x)
    ensures Split(x + [Separator] + rest) == [x] + Split(rest)
    decreases |x|
  {
    var s := x + [Separator] + rest;
    if x == [] {
      assert s[1..] == rest;
    } else {
      assert s[1..] == x[1..] + [Separator] + rest;
      SplitFirst(x[1..], rest);
      assert [x[0]] + x[1..] == x;
    }
  }

  /** `Split` undoes `Join` on separator-free items: no item is lost, merged or reordered. */
  lemma {:induction false} SplitJoin(items: seq<string>)
    requires |items| > 0
    requires forall i :: 0 <= i < |items| ==> NoSeparator(items[i])
    ensures Split(Join(items)) == items
    decreases |items|
  {
    if |items| == 1 {
      SplitPlain(items[0]);
    } else {
      SplitFirst(items[0], Join(items[1..]));
      SplitJoin(items[1..]);
    }
  }

  /**
   * The printed text of a non-empty dictionary whose keys and values hold no
   * comma splits back into its entries' `key:value` texts, in enumeration
   * order.
   */
  lemma EntriesInOrder(d: Entries)
    requires |d| > 0
    requires forall i :: 0 <= i < |d| ==> NoSeparator(d[i].0) && NoSeparator(d[i].1)
    ensures Split(FormatableToString(d)) == RenderAll(d)
    ensures Split(FormattedToString(d)) == RenderAll(d)
  {
    var items := RenderAll(d);
    RenderedNoSeparator(d);
    SplitJoin(items);
    assert FormatableToString(d) == Join(items);
    assert FormattedToString(d) == Join(items);
  }
}
