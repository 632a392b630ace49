/** The values the trunk/branch/leaf chart is drawn from: the input series,
    the derived rows the data-preparation pass emits, and the sums it
    accumulates. Values are whole numbers, as in the chart's dataset. */
module Series {

  /** One input record: a category label and its magnitude. */
  datatype Item = Item(name: string, value: int)

  /** One derived row: the item copied unchanged, the running total of every
      earlier value (`runSum`), the running total of the earlier leaf values
      (`leafRunSum`) and whether the row is a leaf (`end`). */
  datatype Row = Row(name: string, value: int, runSum: int, leafRunSum: int, end: bool)

  /** Total of the values of `s`, peeled from the right, the way a forward
      running sum grows. */
  function Sum(s: seq<Item>): (total: int)
  {
    if s == [] then 0 else Sum(s[..|s| - 1]) + s[|s| - 1].value
  }

  /** The category labels of `s`, in order. */
  function Names(s: seq<Item>): (names: seq<string>)
  {
    seq(|s|, i requires 0 <= i < |s| => s[i].name)
  }

  /** Every value is non-negative (a magnitude). */
  predicate NonNegative(s: seq<Item>)
  {
    forall i :: 0 <= i < |s| ==> s[i].value >= 0
  }

  /** The dataset the chart draws. */
  function Dataset(): (items: seq<Item>)
  {
    [ Item("Withdrawn", 15), Item("Transfered", 10), Item("Certificate", 5),
      Item("Diploma", 5), Item("1st", 20), Item("2.1", 20), Item("2.2", 20) ]
  }

  /** Adding the next item of a slice adds its value to the slice's total:
      the step `runSum += item.value` of the pass. */
  lemma SumStep(s: seq<Item>, lo: nat, i: nat)
    requires lo <= i < |s|
    ensures Sum(s[lo..i + 1]) == Sum(s[lo..i]) + s[i].value
  {
    assert s[lo..i + 1][..i - lo] == s[lo..i];
  }

  /** The total of a concatenation is the sum of the totals. */
  lemma {:induction false} SumAppend(a: seq<Item>, b: seq<Item>)
    ensures Sum(a + b) == Sum(a) + Sum(b)
  {
    if b == [] {
      assert a + b == a;
    } else {
      var b' := b[..|b| - 1];
      assert (a + b)[..|a + b| - 1] == a + b';
      SumAppend(a, b');
    }
  }

  /** A series of magnitudes has a non-negative total. */
  lemma {:induction false} SumNonNegative(s: seq<Item>)
    requires NonNegative(s)
    ensures Sum(s) >= 0
  {
    if s != [] {
      SumNonNegative(s[..|s| - 1]);
    }
  }

  /** Splitting a series at `k` splits its total. */
  lemma SumSplit(s: seq<Item>, k: nat)
    requires k <= |s|
    ensures Sum(s) == Sum(s[..k]) + Sum(s[k..])
  {
    assert s == s[..k] + s[k..];
    SumAppend(s[..k], s[k..]);
  }

  /** Labels of adjacent slices concatenate to the labels of the joined slice. */
  lemma NamesSplit(s: seq<Item>, k: nat)
    requires k <= |s|
    ensures Names(s[..k]) + Names(s[k..]) == Names(s)
  {
  }
}
