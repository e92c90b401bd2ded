/**
 * The lists behind the expenses treemap (sankey.py:123-129): the records
 * whose name mentions "expenses", their names as labels, their balances as
 * values and the parents of their names.
 */
module ExpensesTreemap {
  import opened AccountNames
  import opened SankeyData

  const ExpensesCategory: string := "expenses"

  /** The filter at sankey.py:125: a substring test on the name. */
  predicate IsExpense(r: Record)
  {
    Contains(r.name, ExpensesCategory)
  }

  /** `[(name, value) for name, value in balances if 'expenses' in name]`. */
  function Expenses(balances: seq<Record>): (r: seq<Record>)
    ensures |r| <= |balances|
    ensures forall k :: 0 <= k < |r| ==> IsExpense(r[k])
    decreases |balances|
  {
    if |balances| == 0 then []
    else
      var init := balances[..|balances| - 1];
      var last := balances[|balances| - 1];
      assert balances == init + [last];
      if IsExpense(last) then Expenses(init) + [last] else Expenses(init)
  }

  /** The filter keeps every expense record as often as it occurs and
      drops every other record. */
  lemma {:induction false} ExpensesCount(balances: seq<Record>, x: Record)
    ensures multiset(Expenses(balances))[x] == if IsExpense(x) then multiset(balances)[x] else 0
    decreases |balances|
  {
    if |balances| > 0 {
      var init := balances[..|balances| - 1];
      var last := balances[|balances| - 1];
      assert balances == init + [last];
      ExpensesCount(init, x);
    }
  }

  /** The filter keeps the input order: filtering a concatenation filters
      each part. */
  lemma {:induction false} ExpensesAppend(a: seq<Record>, b: seq<Record>)
    ensures Expenses(a + b) == Expenses(a) + Expenses(b)
    decreases |b|
  {
    if |b| == 0 {
      assert a + b == a;
    } else {
      var init := b[..|b| - 1];
      var last := b[|b| - 1];
      ExpensesAppend(a, init);
      assert (a + b)[..|a + b| - 1] == a + init;
      assert (a + b)[|a + b| - 1] == last;
    }
  }

  /** A single record is kept exactly when its name mentions "expenses". */
  lemma {:induction false} ExpensesSingle(r: Record)
    ensures Expenses([r]) == if IsExpense(r) then [r] else []
  {
    assert [r][..0] == [];
  }

  /** The three lists handed to the treemap figure (sankey.py:131-136). */
  datatype Treemap = Treemap(labels: seq<string>, values: seq<real>, parents: seq<string>)

  /** sankey.py:125-129. */
  function TreemapOf(balances: seq<Record>): (t: Treemap)
    ensures |t.labels| == |t.values| == |t.parents| == |Expenses(balances)|
    ensures forall k :: 0 <= k < |t.labels| ==>
      Record(t.labels[k], t.values[k]) == Expenses(balances)[k] &&
      Contains(t.labels[k], ExpensesCategory) &&
      t.parents[k] == Parent(t.labels[k])
  {
    var e := Expenses(balances);
    Treemap(
      seq(|e|, k requires 0 <= k < |e| => e[k].name),
      seq(|e|, k requires 0 <= k < |e| => e[k].balance),
      seq(|e|, k requires 0 <= k < |e| => Parent(e[k].name)))
  }

  /** The parent of a sub-account starting with a separator-free prefix
      still starts with that prefix. */
  lemma {:induction false} ParentKeepsPrefix(name: string, c: string)
    requires c <= name && Separator !in c && Separator in name
    ensures c <= Parent(name)
  {
    ParentBeforeLastSeparator(name);
    var k :| LastSeparatorAt(name, k) && Parent(name) == name[..k];
  }

  /** The name of every kept record is a label. */
  lemma {:induction false} ExpenseIsLabelled(balances: seq<Record>, r: Record)
    requires r in balances && IsExpense(r)
    ensures r.name in TreemapOf(balances).labels
  {
    var e := Expenses(balances);
    ExpensesCount(balances, r);
    assert multiset(e)[r] == multiset(balances)[r] > 0;
    assert r in e;
    var l :| 0 <= l < |e| && e[l] == r;
    assert TreemapOf(balances).labels[l] == r.name;
  }

  /** Every label is the name of a record of the report. */
  lemma {:induction false} LabelIsName(balances: seq<Record>, k: int)
    requires 0 <= k < |TreemapOf(balances).labels|
    ensures Expenses(balances)[k] in balances
    ensures TreemapOf(balances).labels[k] in Names(balances)
  {
    var e := Expenses(balances);
    assert e[k] in e;
    ExpensesCount(balances, e[k]);
    assert multiset(balances)[e[k]] == multiset(e)[e[k]] > 0;
    var j :| 0 <= j < |balances| && balances[j] == e[k];
  }

  /** In a complete report whose expense accounts all sit under the
      "expenses" category, every treemap parent is the root "" or another
      label, so the tree the figure draws has no dangling parent. */
  lemma {:induction false} TreemapParentsResolve(balances: seq<Record>, k: int)
    requires ClosedUnderParent(Names(balances))
    requires forall r :: r in balances && IsExpense(r) ==> ExpensesCategory <= r.name
    requires 0 <= k < |TreemapOf(balances).labels|
    ensures TreemapOf(balances).parents[k] == "" || TreemapOf(balances).parents[k] in TreemapOf(balances).labels
  {
    var t := TreemapOf(balances);
    var name := t.labels[k];
    if Separator !in name {
      ParentOfTopSegment(name);
    } else {
      var i :| 0 <= i < |name| && name[i] == Separator;
      SubAccountNotTopLevel(name, i);
      LabelIsName(balances, k);
      var r := Expenses(balances)[k];
      assert IsExpense(r) && r.name == name;
      var p := Parent(name);
      NamesFromRecords(balances, p);
      var j :| 0 <= j < |balances| && balances[j].name == p;
      ParentKeepsPrefix(name, ExpensesCategory);
      assert IsExpense(balances[j]);
      ExpenseIsLabelled(balances, balances[j]);
    }
  }
}
