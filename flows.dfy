/**
 * The balance-to-flow transformation `to_sankey_data` (sankey.py:59-94):
 * every (account, balance) record becomes one edge between the account and
 * its anchor (its parent account, or the synthetic "pot" for a top-level
 * category), pointing in the direction the sign of the balance gives and
 * weighted by the absolute balance.
 */
module SankeyData {
  import opened AccountNames

  /** TOPLEVEL_ACCOUNT_CATEGORIES (sankey.py:9). */
  const TopLevelCategories: seq<string> :=
    ["income", "expenses", "assets", "liabilities", "virtual"]

  /** `x in xs` on a Python list. */
  predicate ListContains(xs: seq<string>, x: string)
    decreases |xs|
  {
    |xs| > 0 && (xs[0] == x || ListContains(xs[1..], x))
  }

  lemma {:induction false} ListContainsIsMembership(xs: seq<string>, x: string)
    ensures ListContains(xs, x) <==> x in xs
    decreases |xs|
  {
    if |xs| > 0 {
      ListContainsIsMembership(xs[1..], x);
      assert xs == [xs[0]] + xs[1..];
    }
  }

  /** The membership test at sankey.py:70: exact equality with one of the
      top-level categories. */
  predicate IsTopLevel(name: string)
  {
    ListContains(TopLevelCategories, name)
  }

  /** The synthetic node all top-level categories are attached to. */
  const Pot: string := "pot"

  /** One line of the balance report: an account and its balance. */
  datatype Record = Record(name: string, balance: real)

  /** A flow of `value` from `source` to `target`. */
  datatype Edge = Edge(source: string, target: string, value: real)

  datatype Result<T, E> = Success(value: T) | Failure(error: E)

  /** The exception raised at sankey.py:75, with the two names its message
      reports. */
  datatype HierarchyError = ParentNotFound(account: string, parent: string)

  function Abs(x: real): (r: real)
    ensures r >= 0.0
    ensures r == x || r == -x
  {
    if x < 0.0 then -x else x
  }

  /** The report filter at sankey.py:41: some top-level category occurs in
      the name as a substring. */
  predicate InReportScope(name: string)
  {
    exists c :: c in TopLevelCategories && Contains(name, c)
  }

  /** The filter keeps every top-level category name itself. */
  lemma {:induction false} TopLevelInReportScope(name: string)
    requires IsTopLevel(name)
    ensures InReportScope(name)
  {
    assert Contains(name, name);
  }

  /** The set `accounts` built at sankey.py:64. */
  function Names(balances: seq<Record>): (names: set<string>)
    ensures forall j :: 0 <= j < |balances| ==> balances[j].name in names
    decreases |balances|
  {
    if |balances| == 0 then {} else Names(balances[..|balances| - 1]) + {balances[|balances| - 1].name}
  }

  /** Every name in the set comes from some record. */
  lemma {:induction false} NamesFromRecords(balances: seq<Record>, n: string)
    requires n in Names(balances)
    ensures exists j :: 0 <= j < |balances| && balances[j].name == n
    decreases |balances|
  {
    var last := balances[|balances| - 1];
    if n != last.name {
      var init := balances[..|balances| - 1];
      NamesFromRecords(init, n);
      var j :| 0 <= j < |init| && init[j].name == n;
      assert balances[j] == init[j];
    }
  }

  /** The anchor chosen at sankey.py:70-73. */
  function Anchor(name: string): (anchor: string)
  {
    if IsTopLevel(name) then Pot else Parent(name)
  }

  /** The classification at sankey.py:78: names mentioning "income" or
      "virtual" are meant to flow up, towards the pot. */
  predicate FlowsUp(name: string)
  {
    Contains(name, "income") || Contains(name, "virtual")
  }

  /** The edge emitted at sankey.py:78-92 for one record with the given
      anchor. */
  function FlowEdge(name: string, balance: real, anchor: string): (e: Edge)
    ensures e.value == Abs(balance) && e.value >= 0.0
    ensures {e.source, e.target} == {name, anchor}
  {
    if FlowsUp(name) then
      if balance < 0.0 then Edge(name, anchor, Abs(balance))
      else Edge(anchor, name, Abs(balance))
    else
      if balance >= 0.0 then Edge(anchor, name, Abs(balance))
      else Edge(name, anchor, Abs(balance))
  }

  /** Whatever the classification, a negative balance flows from the account
      to its anchor and any other balance from the anchor to the account:
      the two branches at sankey.py:78-90 agree on every real balance. */
  lemma {:induction false} FlowDirectionBySign(name: string, balance: real, anchor: string)
    ensures balance < 0.0 ==> FlowEdge(name, balance, anchor) == Edge(name, anchor, -balance)
    ensures balance >= 0.0 ==> FlowEdge(name, balance, anchor) == Edge(anchor, name, balance)
  {
  }

  /** Negating a non-zero balance reverses the edge and keeps its weight. */
  lemma {:induction false} ReversalLaw(name: string, balance: real, anchor: string)
    requires balance != 0.0
    ensures var e := FlowEdge(name, balance, anchor);
      FlowEdge(name, -balance, anchor) == Edge(e.target, e.source, e.value)
  {
    FlowDirectionBySign(name, balance, anchor);
    FlowDirectionBySign(name, -balance, anchor);
  }

  /** A record whose parent account is missing (sankey.py:74). */
  predicate Orphan(r: Record, names: set<string>)
  {
    !IsTopLevel(r.name) && Parent(r.name) !in names
  }

  /** Every non-top-level name has its parent among `names`. */
  predicate ClosedUnderParent(names: set<string>)
  {
    forall n :: n in names ==> IsTopLevel(n) || Parent(n) in names
  }

  /** A report in which no record is an orphan is complete. */
  lemma {:induction false} ClosedWithoutOrphans(bs: seq<Record>)
    requires forall j {:trigger bs[j]} :: 0 <= j < |bs| ==> !Orphan(bs[j], Names(bs))
    ensures ClosedUnderParent(Names(bs))
  {
    forall n | n in Names(bs) ensures IsTopLevel(n) || Parent(n) in Names(bs) {
      NamesFromRecords(bs, n);
      var j :| 0 <= j < |bs| && bs[j].name == n;
      assert !Orphan(bs[j], Names(bs));
    }
  }

  /** An orphan makes the report incomplete. The second postcondition only
      restates the requires in the form of the failure postcondition of
      ToSankeyData, which carries it to that method. */
  lemma {:induction false} FirstOrphanReported(bs: seq<Record>, i: int, e: HierarchyError)
    requires 0 <= i < |bs| && Orphan(bs[i], Names(bs))
    requires forall j {:trigger bs[j]} :: 0 <= j < i ==> !Orphan(bs[j], Names(bs))
    requires e == ParentNotFound(bs[i].name, Parent(bs[i].name))
    ensures !ClosedUnderParent(Names(bs))
    ensures exists k :: (0 <= k < |bs| && Orphan(bs[k], Names(bs)) &&
      (forall j :: 0 <= j < k ==> !Orphan(bs[j], Names(bs))) &&
      e == ParentNotFound(bs[k].name, Parent(bs[k].name)))
  {
    assert bs[i].name in Names(bs);
  }

  /** The sign convention behind sankey.py:77-92: a negative balance flows
      from the account to its anchor, any other balance from the anchor to
      the account, weighted by the absolute balance. */
  function RecordEdge(r: Record): (e: Edge)
    ensures e.value == Abs(r.balance) && e.value >= 0.0
    ensures {e.source, e.target} == {r.name, Anchor(r.name)}
  {
    if r.balance < 0.0 then Edge(r.name, Anchor(r.name), -r.balance)
    else Edge(Anchor(r.name), r.name, r.balance)
  }

  /** The rule as written, with its income/virtual classification, emits
      exactly the edge of the sign convention. */
  lemma {:induction false} FlowEdgeIsRecordEdge(r: Record)
    ensures FlowEdge(r.name, r.balance, Anchor(r.name)) == RecordEdge(r)
  {
    FlowDirectionBySign(r.name, r.balance, Anchor(r.name));
  }

  /** On complete input every edge of a record has a non-negative weight and
      connects accounts of the report or the pot. */
  lemma {:induction false} RecordEdgeWithinAccounts(bs: seq<Record>, j: int)
    requires ClosedUnderParent(Names(bs))
    requires 0 <= j < |bs|
    ensures RecordEdge(bs[j]).value >= 0.0
    ensures RecordEdge(bs[j]).source in Names(bs) || RecordEdge(bs[j]).source == Pot
    ensures RecordEdge(bs[j]).target in Names(bs) || RecordEdge(bs[j]).target == Pot
  {
    assert bs[j].name in Names(bs);
  }

  /** `to_sankey_data` (sankey.py:59-94): fails on the first record whose
      parent is missing, and otherwise returns one edge per record, in order. */
  method ToSankeyData(balances: seq<Record>) returns (result: Result<seq<Edge>, HierarchyError>)
    ensures result.Success? <==> ClosedUnderParent(Names(balances))
    ensures result.Failure? ==>
      exists i :: (0 <= i < |balances| && Orphan(balances[i], Names(balances)) &&
        (forall j :: 0 <= j < i ==> !Orphan(balances[j], Names(balances))) &&
        result.error == ParentNotFound(balances[i].name, Parent(balances[i].name)))
    ensures result.Success? ==>
      |result.value| == |balances| &&
      forall i :: 0 <= i < |balances| ==> result.value[i] == RecordEdge(balances[i])
  {
    var accounts := Names(balances);
    var edges: seq<Edge> := [];
    var i := 0;
    while i < |balances|
      invariant 0 <= i <= |balances| && |edges| == i
      invariant forall j {:trigger balances[j]} :: 0 <= j < i ==> !Orphan(balances[j], accounts)
      invariant forall j {:trigger edges[j]} :: 0 <= j < i ==> edges[j] == RecordEdge(balances[j])
    {
      var name, balance := balances[i].name, balances[i].balance;
      var anchor: string;
      if IsTopLevel(name) {
        anchor := Pot;
      } else {
        anchor := Parent(name);
        if anchor !in accounts {
          FirstOrphanReported(balances, i, ParentNotFound(name, anchor));
          return Failure(ParentNotFound(name, anchor));
        }
      }
      FlowEdgeIsRecordEdge(balances[i]);
      edges := edges + [FlowEdge(name, balance, anchor)];
      i := i + 1;
    }
    ClosedWithoutOrphans(balances);
    return Success(edges);
  }

  /** Following anchors from `name` stays inside `names` until it reaches a
      top-level category, whose anchor is the pot. */
  ghost predicate ReachesPot(name: string, names: set<string>)
    decreases |name|
  {
    IsTopLevel(name) ||
    (name != "" && Parent(name) in names &&
      (ParentIsProperPrefix(name); ReachesPot(Parent(name), names)))
  }

  /** When every parent is present and no account has the empty name, every
      account is linked to the pot through a chain of edges; and conversely. */
  lemma {:induction false} ReachesPotIffClosed(names: set<string>)
    ensures (forall n :: n in names ==> ReachesPot(n, names)) <==>
      ClosedUnderParent(names) && "" !in names
  {
    if ClosedUnderParent(names) && "" !in names {
      forall n | n in names ensures ReachesPot(n, names) {
        ClosedReachesPot(names, n);
      }
    }
  }

  lemma {:induction false} ClosedReachesPot(names: set<string>, name: string)
    requires ClosedUnderParent(names) && "" !in names
    requires name in names
    ensures ReachesPot(name, names)
    decreases |name|
  {
    if name !in TopLevelCategories {
      ParentIsProperPrefix(name);
      ClosedReachesPot(names, Parent(name));
    }
  }

  /** A name with a separator is not a top-level category. */
  lemma {:induction false} SubAccountNotTopLevel(name: string, k: int)
    requires 0 <= k < |name| && name[k] == Separator
    ensures !IsTopLevel(name)
  {
    ListContainsIsMembership(TopLevelCategories, name);
  }

  /** A sub-account `a:b` hangs off `a`. */
  lemma {:induction false} SubAccountAnchor(a: string, b: string, name: string)
    requires Separator !in b && name == a + [Separator] + b
    ensures !IsTopLevel(name) && Anchor(name) == a
  {
    ParentOfChild(a, b);
    SubAccountNotTopLevel(name, |a|);
  }

  const SalaryReport: seq<Record> := [
    Record("income", -1000.0), Record("income:salary", -1000.0),
    Record("expenses", 400.0), Record("expenses:rent", 400.0)]

  lemma {:induction false} SalaryAnchors()
    ensures IsTopLevel("income") && IsTopLevel("expenses")
    ensures !IsTopLevel("income:salary") && Anchor("income:salary") == "income"
    ensures !IsTopLevel("expenses:rent") && Anchor("expenses:rent") == "expenses"
  {
    SubAccountAnchor("income", "salary", "income:salary");
    SubAccountAnchor("expenses", "rent", "expenses:rent");
  }

  lemma {:induction false} SalaryReportComplete()
    ensures ClosedUnderParent(Names(SalaryReport))
    ensures Anchor("income") == Pot && Anchor("expenses") == Pot
    ensures Anchor("income:salary") == "income" && Anchor("expenses:rent") == "expenses"
  {
    var bs := SalaryReport;
    SalaryAnchors();
    assert bs[0].name in Names(bs) && bs[2].name in Names(bs);
    assert !Orphan(bs[0], Names(bs)) && !Orphan(bs[2], Names(bs));
    assert Parent(bs[1].name) == bs[0].name && Parent(bs[3].name) == bs[2].name;
    assert !Orphan(bs[1], Names(bs)) && !Orphan(bs[3], Names(bs));
    ClosedWithoutOrphans(bs);
  }

  /** The income/expenses scenario: income flows from its sub-account to
      the pot and on to expenses and their sub-account. */
  method SalaryExample() returns (result: Result<seq<Edge>, HierarchyError>)
    ensures result == Success([
      Edge("income", Pot, 1000.0), Edge("income:salary", "income", 1000.0),
      Edge(Pot, "expenses", 400.0), Edge("expenses", "expenses:rent", 400.0)])
  {
    SalaryReportComplete();
    result := ToSankeyData(SalaryReport);
    var v := result.value;
    assert v[0] == RecordEdge(SalaryReport[0]) == Edge("income", Pot, 1000.0);
    assert v[1] == RecordEdge(SalaryReport[1]) == Edge("income:salary", "income", 1000.0);
    assert v[2] == RecordEdge(SalaryReport[2]) == Edge(Pot, "expenses", 400.0);
    assert v[3] == RecordEdge(SalaryReport[3]) == Edge("expenses", "expenses:rent", 400.0);
    assert v == [
      Edge("income", Pot, 1000.0), Edge("income:salary", "income", 1000.0),
      Edge(Pot, "expenses", 400.0), Edge("expenses", "expenses:rent", 400.0)];
  }

  const RefundReport: seq<Record> := [Record("expenses", 0.0), Record("expenses:food", -50.0)]

  lemma {:induction false} RefundReportComplete()
    ensures ClosedUnderParent(Names(RefundReport))
    ensures Anchor("expenses") == Pot && Anchor("expenses:food") == "expenses"
  {
    var bs := RefundReport;
    SubAccountAnchor("expenses", "food", "expenses:food");
    assert IsTopLevel("expenses");
    assert bs[0].name in Names(bs);
    assert !Orphan(bs[0], Names(bs));
    assert Parent(bs[1].name) == bs[0].name;
    assert !Orphan(bs[1], Names(bs));
    ClosedWithoutOrphans(bs);
  }

  /** A refund on an expense account flows back to its parent. */
  method RefundExample() returns (result: Result<seq<Edge>, HierarchyError>)
    ensures result == Success([Edge(Pot, "expenses", 0.0), Edge("expenses:food", "expenses", 50.0)])
  {
    RefundReportComplete();
    result := ToSankeyData(RefundReport);
    var v := result.value;
    assert v[0] == RecordEdge(RefundReport[0]) == Edge(Pot, "expenses", 0.0);
    assert v[1] == RecordEdge(RefundReport[1]) == Edge("expenses:food", "expenses", 50.0);
    assert v == [Edge(Pot, "expenses", 0.0), Edge("expenses:food", "expenses", 50.0)];
  }

  /** A sub-account whose parent is absent from the report is an error. */
  method MissingParentExample() returns (result: Result<seq<Edge>, HierarchyError>)
    ensures result == Failure(ParentNotFound("assets:cash", "assets"))
  {
    var balances := [Record("assets:cash", 10.0)];
    ParentExamples();
    SubAccountNotTopLevel("assets:cash", 6);
    assert Names(balances) == {"assets:cash"};
    assert Orphan(balances[0], Names(balances));
    result := ToSankeyData(balances);
  }
}
