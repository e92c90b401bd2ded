# hledger-sankey: the balance-to-flow core, in Dafny

hledger-sankey turns an hledger balance report into a Sankey diagram of money
flows. A report is a list of `(account_name, balance)` records. Account
names are `:`-separated paths ("expenses:food:groceries"), so the set of
names encodes a tree. The core modelled here is all in `sankey.py`:

- `parent` (the path-stripping rule) and the list of top-level categories;
- `to_sankey_data`: each record becomes one edge between the account and its
  *anchor*. The anchor is the synthetic node `"pot"` for a top-level
  category and the parent account otherwise, and a missing parent is an
  error. The edge points in the direction the sign of the balance gives and
  carries the absolute balance;
- the data preparation inside `sankey_plot`: sort the edges by
  `(target, source)`, list the distinct nodes in first-seen order, and turn
  every edge into a pair of node indices;
- the three lists behind `expenses_treemap_plot`: labels, values and parents
  of the records whose name mentions "expenses".

Modules, one per file:

| file | module | models |
|---|---|---|
| `accounts.dfy` | `AccountNames` | `str.split(':')`, `':'.join`, `parent`, substring `in` |
| `flows.dfy` | `SankeyData` | `TOPLEVEL_ACCOUNT_CATEGORIES`, the records and edges, `to_sankey_data` as a method with a loop |
| `plot.dfy` | `SankeyPlot` | the sort, `dict.fromkeys`, `list.index` and the link arrays of `sankey_plot` |
| `treemap.dfy` | `ExpensesTreemap` | the filter and the label/value/parent lists of `expenses_treemap_plot` |

The classification follows the code exactly. Membership in the top-level
list is exact equality (sankey.py:70). The "flows up" test is substring
containment of "income" or "virtual" anywhere in the name (sankey.py:78).

**The classification does not change the direction.** For every real
balance, both branches at sankey.py:78-90 pick the same direction. A
negative balance flows from the account to its anchor; any other balance
flows from the anchor to the account. `SankeyData.FlowDirectionBySign`
states this, and `SankeyData.ToSankeyData` is specified by the sign rule
`SankeyData.RecordEdge`. The two branches differ only for a NaN balance,
which fails both `< 0` and `>= 0`. The output is what the comments at
sankey.py:52-58 describe, so this is reported as an observation and not as a
defect.

Facts about the code that the model keeps:

- `to_sankey_data` appends edges in input order (sankey.py:67, 92), and
  `ToSankeyData` proves that order.
- Treemap values are the balances unchanged, sign included (sankey.py:128).
- The treemap filter keeps every name containing "expenses" anywhere
  (sankey.py:125), and `ExpensesTreemap.TreemapOf` does the same. So a
  name such as "assets:expenses" is kept with the parent "assets". That
  parent is not a label, so the treemap then has a dangling parent.
  `ExpensesTreemap.TreemapParentsResolve` therefore assumes that every kept
  name starts with "expenses".

## Model

| member | source | states |
|---|---|---|
| AccountNames.Split | sankey.py:14 | `name.split(':')`: at least one piece; its properties are in `JoinSplit`, `SplitJoin` and `SplitPiecesColonFree` |
| AccountNames.Join | sankey.py:14 | definition of `':'.join`; its properties are in `JoinSplit` and `SplitJoin` |
| AccountNames.Parent | sankey.py:13-14 | definition; its properties are in `ParentSegments`, `ParentBeforeLastSeparator` and `ParentExamples` |
| AccountNames.Contains | sankey.py:78 | definition of Python's substring `in`; its properties are in `ContainsIffOccurs` |
| SankeyData.TopLevelCategories | sankey.py:9 | definition: the five top-level category names |
| SankeyData.Pot | sankey.py:71 | definition: the anchor "pot" of the top-level categories |
| SankeyData.IsTopLevel | sankey.py:70 | definition; its properties are in `ListContainsIsMembership` and `SubAccountNotTopLevel` |
| SankeyData.Anchor | sankey.py:70-73 | definition; its properties are in `RecordEdge`, `SubAccountAnchor` and `ReachesPotIffClosed` |
| SankeyData.FlowsUp | sankey.py:78 | definition; its properties are in `FlowDirectionBySign` |
| SankeyData.InReportScope | sankey.py:41 | definition of the report filter; its properties are in `TopLevelInReportScope` |
| ExpensesTreemap.ExpensesCategory | sankey.py:125 | definition: the text "expenses" the treemap filter looks for |
| ExpensesTreemap.IsExpense | sankey.py:125 | definition of the treemap filter; its properties are in `ExpensesCount` and `ExpensesSingle` |
| SankeyPlot.Sources | sankey.py:102 | the list of sources, one per edge in edge order; used by `Nodes` and `SankeyLinks` |
| SankeyPlot.Targets | sankey.py:103 | the list of targets, one per edge in edge order; used by `Nodes` and `SankeyLinks` |
| SankeyPlot.Values | sankey.py:118 | the list of values, one per edge in edge order; used by `SankeyLinks` |
| AccountNames.JoinSplit | sankey.py:14 | joining the pieces of `name.split(':')` with ':' gives the name back |
| AccountNames.SplitJoin | sankey.py:14 | splitting a ':'-join of one or more colon-free pieces gives exactly those pieces |
| AccountNames.SplitPiecesColonFree | sankey.py:14 | no piece of a split contains the separator |
| AccountNames.ParentSegments | sankey.py:11-14 | a one-segment name has parent ""; otherwise the parent's segments are the name's segments without the last one |
| AccountNames.ParentOfChild | sankey.py:11-14 | the parent of `a:b`, for a colon-free `b`, is `a` |
| AccountNames.ParentOfTopSegment | sankey.py:12-14 | a name without ':' has the empty parent |
| AccountNames.ParentBeforeLastSeparator | sankey.py:13-14 | the parent is the text before the last ':', or "" when there is none |
| AccountNames.ParentIsProperPrefix | sankey.py:13-14 | the parent of a non-empty name is a proper prefix of it |
| AccountNames.ParentExamples | sankey.py:11-12 | `parent("assets:cash") == "assets"` and `parent("assets") == ""` |
| AccountNames.ContainsIffOccurs | sankey.py:78 | the substring test holds exactly when the text occurs at some position |
| SankeyData.ListContains | sankey.py:70 | definition of the list `in`; its properties are in `ListContainsIsMembership` |
| SankeyData.ListContainsIsMembership | sankey.py:70 | the list test is exact membership in the list |
| SankeyData.SubAccountNotTopLevel | sankey.py:9 | a name containing ':' is not a top-level category |
| SankeyData.TopLevelInReportScope | sankey.py:41 | the report filter keeps every top-level category name |
| SankeyData.Names | sankey.py:64 | every record's name is in the account set |
| SankeyData.NamesFromRecords | sankey.py:64 | every name in the account set is the name of some record |
| SankeyData.Abs | sankey.py:92 | `abs` is non-negative and equals the balance or its negation |
| SankeyData.FlowEdge | sankey.py:77-92 | the edge as the code writes it weighs `abs(balance)` and its endpoint set is `{account, anchor}` |
| SankeyData.FlowDirectionBySign | sankey.py:78-90 | on both branches a negative balance gives (account, anchor) and any other gives (anchor, account) |
| SankeyData.ReversalLaw | sankey.py:78-92 | negating a non-zero balance swaps source and target and keeps the weight |
| SankeyData.RecordEdge | sankey.py:70-73 | the sign-rule edge weighs `abs(balance)` and joins the account with its anchor ("pot" or the parent) |
| SankeyData.FlowEdgeIsRecordEdge | sankey.py:70-92 | the code's four-way branch emits exactly the sign-rule edge |
| SankeyData.Orphan | sankey.py:70-74 | definition of the raise condition (not top-level, parent not in the account set); its properties are in `ClosedWithoutOrphans` and `FirstOrphanReported` |
| SankeyData.ClosedWithoutOrphans | sankey.py:70-75 | if no record fails the parent check, every non-top-level account's parent is present |
| SankeyData.FirstOrphanReported | sankey.py:74-75 | an orphan record makes the set incomplete, and the first one is the one the error names |
| SankeyData.RecordEdgeWithinAccounts | sankey.py:64-92 | on complete input every edge weighs at least 0 and joins report accounts or "pot" |
| SankeyData.ToSankeyData | sankey.py:59-94 | succeeds iff every non-top-level account's parent is present; on failure reports the first record whose parent is missing, with both names; on success gives one sign-rule edge per record, in input order |
| SankeyData.ReachesPotIffClosed | sankey.py:68-75 | every account reaches "pot" along anchors iff parents are all present and no name is empty |
| SankeyData.ClosedReachesPot | sankey.py:68-75 | in a complete report without the empty name, following anchors from any account ends at a top-level category |
| SankeyData.SubAccountAnchor | sankey.py:70-73 | the anchor of `a:b` is `a` |
| SankeyData.SalaryExample | sankey.py:59-94 | income -1000, income:salary -1000, expenses 400, expenses:rent 400 give income→pot, income:salary→income, pot→expenses, expenses→expenses:rent |
| SankeyData.RefundExample | sankey.py:86-90 | a refund of -50 on expenses:food flows from expenses:food to expenses |
| SankeyData.MissingParentExample | sankey.py:73-75 | assets:cash without assets fails, naming assets:cash and assets |
| SankeyPlot.StrLe | sankey.py:98 | definition of Python's code-point string `<=`, which the sort uses; its properties are in `StrLeRefl`, `StrLeTotal`, `StrLeAntisym` and `StrLeTrans` |
| SankeyPlot.StrLeRefl | sankey.py:98 | string order is reflexive |
| SankeyPlot.StrLeTotal | sankey.py:98 | string order is total |
| SankeyPlot.StrLeAntisym | sankey.py:98 | string order is antisymmetric |
| SankeyPlot.StrLeTrans | sankey.py:98 | string order is transitive |
| SankeyPlot.KeyLe | sankey.py:98 | definition of the `(target, source)` key order; its properties are in `KeyLeTotal` and `KeyLeTrans` |
| SankeyPlot.KeyLeTotal | sankey.py:98 | the `(target, source)` key order is total |
| SankeyPlot.KeyLeTrans | sankey.py:98 | the `(target, source)` key order is transitive |
| SankeyPlot.SortedPairwise | sankey.py:98 | in a sorted list any earlier edge is key-ordered before any later one |
| SankeyPlot.Insert | sankey.py:98 | inserting adds exactly the new edge to the multiset |
| SankeyPlot.InsertSorted | sankey.py:98 | inserting into a sorted list keeps it sorted |
| SankeyPlot.SortEdges | sankey.py:98 | the sorted list is a permutation of the input |
| SankeyPlot.SortEdgesSorted | sankey.py:98 | the sorted list is ordered by `(target, source)` |
| SankeyPlot.SortEdgesSameEdges | sankey.py:98 | an edge is in the sorted list iff it is in the input |
| SankeyPlot.Dedup | sankey.py:101-104 | `dict.fromkeys` keeps each element once and keeps exactly the input's elements |
| SankeyPlot.DedupKeepsFirstOrder | sankey.py:101-104 | the kept elements are in the order of their first occurrences |
| SankeyPlot.IndexOf | sankey.py:116-117 | `list.index` returns a position holding the element with no earlier occurrence |
| SankeyPlot.IndexOfUnique | sankey.py:116-117 | in a duplicate-free list the index of an element is its only position |
| SankeyPlot.Nodes | sankey.py:101-104 | the node list has no duplicates and holds exactly the sources and targets |
| SankeyPlot.EndpointsAreNodes | sankey.py:101-104 | every edge's source and target are nodes |
| SankeyPlot.NodesAreEndpoints | sankey.py:101-104 | every node is the source or target of some edge |
| SankeyPlot.Indices | sankey.py:116-117 | every index is in range and names the node it stands for |
| SankeyPlot.SankeyLinks | sankey.py:98-118 | duplicate-free nodes; source, target and value arrays of the edge count with in-range indices; link `i` reads back as the `i`-th sorted edge |
| SankeyPlot.SankeyLinksCoverEdges | sankey.py:98-104 | the endpoints of every input edge are nodes of the figure |
| SankeyPlot.SankeyLinksNodesAreEndpoints | sankey.py:98-104 | every node of the figure is an endpoint of some input edge |
| SankeyPlot.SankeyLinksRoundTrip | sankey.py:98-118 | reading the links back gives the input edges, sorted by `(target, source)` and as a permutation |
| SankeyPlot.SankeyLinksIndexUnique | sankey.py:116 | a link's source index is the only position of its source node |
| ExpensesTreemap.Expenses | sankey.py:125 | every kept record's name contains "expenses" |
| ExpensesTreemap.ExpensesCount | sankey.py:125 | each record containing "expenses" is kept as often as it occurs; every other record is dropped |
| ExpensesTreemap.ExpensesAppend | sankey.py:125 | filtering a concatenation filters each part, so input order is kept |
| ExpensesTreemap.ExpensesSingle | sankey.py:125 | a single record is kept iff its name contains "expenses" |
| ExpensesTreemap.TreemapOf | sankey.py:125-129 | labels, values and parents have the length of the filtered list; label `k` and value `k` form the `k`-th kept record; parent `k` is the parent of label `k` |
| ExpensesTreemap.ParentKeepsPrefix | sankey.py:13-14 | the parent of a sub-account keeps any colon-free prefix of its name |
| ExpensesTreemap.ExpenseIsLabelled | sankey.py:125-127 | every record containing "expenses" has its name among the labels |
| ExpensesTreemap.LabelIsName | sankey.py:125-127 | every label is the name of a record of the report |
| ExpensesTreemap.TreemapParentsResolve | sankey.py:125-129 | in a complete report whose kept names start with "expenses", every parent is "" or a label |

## Left out

- `read_balance_report` (sankey.py:16-50): it builds the hledger command, runs it and parses its JSON output. Only the category filter at line 41 is modelled, as `SankeyData.InReportScope`.
- Plotly figure construction and display (sankey.py:107-119, 131-136) and the `__main__` block with its argument parsing (sankey.py:141-206): foreign library calls and I/O.
- Floating point: balances are `real`. NaN, infinities and -0.0 are not modelled. NaN is the only input on which the income/virtual classification changes an edge's direction.
- The exception message text at sankey.py:75: the error value carries the two names the message reports.
- SankeyPlot.SortEdges: an insertion sort that keeps equal keys in input order, like Python's stable `sorted`. The model proves that the result is a sorted permutation, not that it is stable.
- SankeyPlot.IndexOf: requires the element to be present. `list.index` raises `ValueError` otherwise, and sankey.py:116-117 only looks up names that are in the node list.
- ExpensesTreemap.TreemapParentsResolve: assumes every kept name starts with "expenses". A name that only contains it elsewhere can have a parent that is not a label.
