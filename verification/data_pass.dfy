/** The data-preparation pass of the chart's update: one forward pass over
    the series that splits it into a branch prefix and a leaf suffix (the
    last `leaves` items), keeps a running sum of all values and of the leaf
    values, totals the trunk and the leaves, collects the category labels of
    each part, and emits one derived row per item. */
module DataPass {
  import opened Series

  /** The number of trailing items the chart draws as leaves. */
  const Leaves: nat := 3

  /** Everything the pass leaves behind: the derived rows, the two category
      lists that become the ordinal axis domains, the two domain totals, and
      the final values of the three loop accumulators. */
  datatype PassState = PassState(
    data: seq<Row>,
    branchCategoryValues: seq<string>,
    leafCategoryValues: seq<string>,
    trunkDomain: int,
    leavesDomain: int,
    runSum: int,
    leafRunSum: int,
    isLeaf: bool)

  /** The number of branches, `items - leaves`; zero or negative when there
      are no more items than leaves. */
  function Branches(n: nat, leaves: nat): (branches: int)
  {
    n - leaves
  }

  /** Index of the first leaf row, which is also the number of branch rows. */
  function FirstLeaf(n: nat, leaves: nat): (k: nat)
    ensures k <= n
    ensures k == if Branches(n, leaves) > 0 then Branches(n, leaves) else 0
  {
    if leaves < n then n - leaves else 0
  }

  /** Row `i` of a series of `n` items is a leaf when it lies past the last branch. */
  predicate IsLeafIndex(n: nat, leaves: nat, i: int)
  {
    i > Branches(n, leaves) - 1
  }

  /** The row the pass should emit for item `i`, defined without a loop. */
  function RowAt(source: seq<Item>, leaves: nat, i: nat): (row: Row)
    requires i < |source|
  {
    var leaf := IsLeafIndex(|source|, leaves, i);
    Row(source[i].name, source[i].value, Sum(source[..i]),
        if leaf then Sum(source[FirstLeaf(|source|, leaves)..i]) else 0,
        leaf)
  }

  /** Reference definition of the state the pass leaves behind. */
  function Pass(source: seq<Item>, leaves: nat): (st: PassState)
  {
    var n, k := |source|, FirstLeaf(|source|, leaves);
    PassState(
      seq(n, i requires 0 <= i < n => RowAt(source, leaves, i)),
      Names(source[..k]), Names(source[k..]),
      Sum(source), Sum(source[k..]),
      Sum(source), Sum(source[k..]),
      0 < n && 0 < leaves)
  }

  /** The pass emits one row per item, in input order, copying the label and
      the value; a row is a leaf exactly when its index is at least
      `items - leaves`, so the rows before `FirstLeaf` (that is,
      `max(0, items - leaves)` of them) are the branches and once a row is a
      leaf every later row is one too; and the sticky flag ends true exactly when the last row is a leaf. */
  lemma RowsFollowInput(source: seq<Item>, leaves: nat)
    ensures var st, n := Pass(source, leaves), |source|;
      && |st.data| == n
      && (forall i :: 0 <= i < n ==>
            st.data[i].name == source[i].name && st.data[i].value == source[i].value)
      && (forall i :: 0 <= i < n ==> (st.data[i].end <==> i >= n - leaves))
      && (forall i :: 0 <= i < n ==> (!st.data[i].end <==> i < FirstLeaf(n, leaves)))
      && (forall i, j :: 0 <= i <= j < n && st.data[i].end ==> st.data[j].end)
      && (st.isLeaf <==> n > 0 && st.data[n - 1].end)
  {
  }

  /** Leaf total of the first `i` items: what `leafRunSum` and `leavesDomain`
      hold once `i` items have been processed. */
  function LeafSumBefore(source: seq<Item>, leaves: nat, i: nat): (total: int)
    requires i <= |source|
  {
    var k := FirstLeaf(|source|, leaves);
    if i <= k then 0 else Sum(source[k..i])
  }

  /** Branch labels among the first `i` items. */
  function BranchNamesBefore(source: seq<Item>, leaves: nat, i: nat): (names: seq<string>)
    requires i <= |source|
  {
    var k := FirstLeaf(|source|, leaves);
    Names(source[..if i <= k then i else k])
  }

  /** Leaf labels among the first `i` items. */
  function LeafNamesBefore(source: seq<Item>, leaves: nat, i: nat): (names: seq<string>)
    requires i <= |source|
  {
    var k := FirstLeaf(|source|, leaves);
    Names(source[k..if i <= k then k else i])
  }

  /** How processing item `i` moves each accumulator of the pass. */
  lemma PassStep(source: seq<Item>, leaves: nat, i: nat)
    requires i < |source|
    ensures Sum(source[..i + 1]) == Sum(source[..i]) + source[i].value
    ensures LeafSumBefore(source, leaves, i + 1) == LeafSumBefore(source, leaves, i)
              + if IsLeafIndex(|source|, leaves, i) then source[i].value else 0
    ensures BranchNamesBefore(source, leaves, i + 1) == BranchNamesBefore(source, leaves, i)
              + if IsLeafIndex(|source|, leaves, i) then [] else [source[i].name]
    ensures LeafNamesBefore(source, leaves, i + 1) == LeafNamesBefore(source, leaves, i)
              + if IsLeafIndex(|source|, leaves, i) then [source[i].name] else []
    ensures RowAt(source, leaves, i) == Row(source[i].name, source[i].value, Sum(source[..i]),
              LeafSumBefore(source, leaves, i), IsLeafIndex(|source|, leaves, i))
  {
    var k := FirstLeaf(|source|, leaves);
    SumStep(source, 0, i);
    assert source[0..i] == source[..i];
    assert source[0..i + 1] == source[..i + 1];
    if i >= k {
      SumStep(source, k, i);
      assert source[k..i + 1] == source[k..i] + [source[i]];
    } else {
      assert source[..i + 1] == source[..i] + [source[i]];
    }
  }

  /** The pass as the chart runs it: a single forward loop that updates the
      accumulators and appends to the row and category lists. */
  method PrepareData(source: seq<Item>, leaves: nat) returns (st: PassState)
    ensures st == Pass(source, leaves)
  {
    var items := |source|;
    var branches := items - leaves;
    var leavesDomain, trunkDomain := 0, 0;
    var branchCategoryValues: seq<string> := [];
    var leafCategoryValues: seq<string> := [];
    var runSum, leafRunSum := 0, 0;
    var isLeaf := false;
    var data: seq<Row> := [];
    var index := 0;
    while index < items
      invariant 0 <= index <= items
      invariant |data| == index
      invariant forall j :: 0 <= j < index ==> data[j] == RowAt(source, leaves, j)
      invariant trunkDomain == runSum == Sum(source[..index])
      invariant leavesDomain == leafRunSum == LeafSumBefore(source, leaves, index)
      invariant branchCategoryValues == BranchNamesBefore(source, leaves, index)
      invariant leafCategoryValues == LeafNamesBefore(source, leaves, index)
      invariant isLeaf == (0 < index && index > branches)
    {
      PassStep(source, leaves, index);
      var item := source[index];
      trunkDomain := trunkDomain + item.value;
      if index > branches - 1 {
        leavesDomain := leavesDomain + item.value;
        leafCategoryValues := leafCategoryValues + [item.name];
        isLeaf := true;
      } else {
        branchCategoryValues := branchCategoryValues + [item.name];
      }
      data := data + [Row(item.name, item.value, runSum, leafRunSum, isLeaf)];
      runSum := runSum + item.value;
      if index > branches - 1 {
        leafRunSum := leafRunSum + item.value;
      }
      index := index + 1;
    }
    assert source[..items] == source;
    st := PassState(data, branchCategoryValues, leafCategoryValues,
                    trunkDomain, leavesDomain, runSum, leafRunSum, isLeaf);
    assert st.data == Pass(source, leaves).data;
  }

  /** The rows' trunk slices tile the trunk: the first starts at 0, each
      starts where the one before it ends, and the last ends at the trunk
      domain, which is the total of all values and the final running sum. */
  lemma {:induction false} TrunkSlicesTile(source: seq<Item>, leaves: nat)
    ensures var st, n := Pass(source, leaves), |source|;
      && (forall i :: 0 <= i < n ==> st.data[i].runSum == Sum(source[..i]))
      && (n > 0 ==> st.data[0].runSum == 0)
      && (forall i :: 0 <= i < n - 1 ==>
            st.data[i].runSum + st.data[i].value == st.data[i + 1].runSum)
      && (n > 0 ==> st.data[n - 1].runSum + st.data[n - 1].value == st.trunkDomain)
      && st.trunkDomain == st.runSum == Sum(source)
  {
    var st, n := Pass(source, leaves), |source|;
    forall i | 0 <= i < n
      ensures st.data[i].runSum + st.data[i].value == Sum(source[..i + 1])
    {
      PassStep(source, leaves, i);
    }
    assert n > 0 ==> source[..n] == source;
  }

  /** `leafRunSum` is 0 on branch rows and grows by each leaf value: on a leaf
      row it is the total of the leaf values before it, and after the last
      row it is the leaves domain. */
  lemma {:induction false} LeafRunSums(source: seq<Item>, leaves: nat)
    ensures var st, n, k := Pass(source, leaves), |source|, FirstLeaf(|source|, leaves);
      && (forall i :: 0 <= i < n && !st.data[i].end ==> st.data[i].leafRunSum == 0)
      && (forall i :: 0 <= i < n && st.data[i].end ==>
            k <= i && st.data[i].leafRunSum == Sum(source[k..i]))
      && (forall i :: 0 <= i < n - 1 ==>
            st.data[i + 1].leafRunSum
              == st.data[i].leafRunSum + if st.data[i].end then st.data[i].value else 0)
      && (n > 0 ==>
            st.leafRunSum
              == st.data[n - 1].leafRunSum + if st.data[n - 1].end then st.data[n - 1].value else 0)
      && st.leavesDomain == st.leafRunSum
  {
    var st, n := Pass(source, leaves), |source|;
    forall i | 0 <= i < n
      ensures st.data[i].leafRunSum == LeafSumBefore(source, leaves, i)
      ensures st.data[i].leafRunSum + (if st.data[i].end then st.data[i].value else 0)
                == LeafSumBefore(source, leaves, i + 1)
    {
      PassStep(source, leaves, i);
    }
    var k := FirstLeaf(n, leaves);
    assert source[k..n] == source[k..];
    assert n <= k ==> source[k..] == [];
    if n > 0 {
      PassStep(source, leaves, n - 1);
    }
  }
  /** For magnitudes, both running sums never decrease from one row to a later one. */
  lemma {:induction false} RunSumsMonotone(source: seq<Item>, leaves: nat, i: nat, j: nat)
    requires NonNegative(source)
    requires i <= j < |source|
    ensures Pass(source, leaves).data[i].runSum <= Pass(source, leaves).data[j].runSum
    ensures Pass(source, leaves).data[i].leafRunSum <= Pass(source, leaves).data[j].leafRunSum
    decreases j - i
  {
    if i < j {
      RunSumsMonotone(source, leaves, i, j - 1);
      TrunkSlicesTile(source, leaves);
      LeafRunSums(source, leaves);
      assert source[j - 1].value >= 0;
    }
  }

  /** The trunk domain is the branch total plus the leaves domain, the leaves
      domain is the total of the last `leaves` values, and for magnitudes the
      leaves domain lies between 0 and the trunk domain. */
  lemma DomainsSplitTotal(source: seq<Item>, leaves: nat)
    ensures var st, n := Pass(source, leaves), |source|;
      && st.leavesDomain == Sum(source[n - (if leaves < n then leaves else n)..])
      && st.trunkDomain == Sum(source[..FirstLeaf(n, leaves)]) + st.leavesDomain
      && (NonNegative(source) ==> 0 <= st.leavesDomain <= st.trunkDomain)
  {
    var k := FirstLeaf(|source|, leaves);
    SumSplit(source, k);
    if NonNegative(source) {
      assert NonNegative(source[..k]);
      assert NonNegative(source[k..]);
      SumNonNegative(source[..k]);
      SumNonNegative(source[k..]);
    }
  }

  /** The branch labels followed by the leaf labels are the input labels in
      order; there are `max(0, items - leaves)` branch labels; and each row's
      label sits in its own part at its own position within that part. */
  lemma CategoriesPartitionNames(source: seq<Item>, leaves: nat)
    ensures var st, n, k := Pass(source, leaves), |source|, FirstLeaf(|source|, leaves);
      && st.branchCategoryValues + st.leafCategoryValues == Names(source)
      && |st.branchCategoryValues| == (if n > leaves then n - leaves else 0)
      && |st.leafCategoryValues| == (if n > leaves then leaves else n)
      && (forall i :: 0 <= i < n && !st.data[i].end ==>
            i < k && st.branchCategoryValues[i] == st.data[i].name)
      && (forall i :: 0 <= i < n && st.data[i].end ==>
            k <= i && st.leafCategoryValues[i - k] == st.data[i].name)
  {
    var st, n, k := Pass(source, leaves), |source|, FirstLeaf(|source|, leaves);
    NamesSplit(source, k);
    forall i | 0 <= i < n
      ensures !st.data[i].end ==> i < k && st.branchCategoryValues[i] == st.data[i].name
      ensures st.data[i].end ==> k <= i && st.leafCategoryValues[i - k] == st.data[i].name
    {
      if st.data[i].end {
        assert source[k..][i - k] == source[i];
      } else {
        assert source[..k][i] == source[i];
      }
    }
  }

  /** On the chart's own dataset the pass gives four branches and three
      leaves, a trunk total of 95 and a leaf total of 60. */
  lemma DatasetPass()
    ensures var st := Pass(Dataset(), Leaves);
      && st.branchCategoryValues == ["Withdrawn", "Transfered", "Certificate", "Diploma"]
      && st.leafCategoryValues == ["1st", "2.1", "2.2"]
      && st.trunkDomain == 95 && st.leavesDomain == 60
      && st.data[4].runSum == 35 && st.data[5].leafRunSum == 20
      && !st.data[3].end && st.data[4].end
  {
    var s := Dataset();
    assert s[..1] == [s[0]];
    assert s[..2] == s[..1] + [s[1]];
    assert s[..3] == s[..2] + [s[2]];
    assert s[..4] == s[..3] + [s[3]];
    assert s[4..5] == [s[4]];
    assert s[4..6] == s[4..5] + [s[5]];
    assert s[4..] == s[4..6] + [s[6]];
    assert Sum(s[..1]) == 15;
    assert Sum(s[..2]) == 25;
    assert Sum(s[..3]) == 30;
    assert Sum(s[..4]) == 35;
    assert Sum(s[4..5]) == 20;
    assert Sum(s[4..6]) == 40;
    assert Sum(s[4..]) == 60;
    SumSplit(s, 4);
  }
}
