/**
 * The data preparation at the front of `sankey_plot` (sankey.py:98-118):
 * the edges are sorted by (target, source), the node list is the
 * order-preserving de-duplication of all sources followed by all targets,
 * and every edge is turned into a pair of indices into that node list.
 */
module SankeyPlot {
  import opened SankeyData

  /** Python's `a <= b` on strings: lexicographic by code point. */
  predicate StrLe(a: string, b: string)
    decreases |a|
  {
    |a| == 0 || (|b| > 0 && (a[0] < b[0] || (a[0] == b[0] && StrLe(a[1..], b[1..]))))
  }

  lemma {:induction false} StrLeRefl(a: string)
    ensures StrLe(a, a)
    decreases |a|
  {
    if |a| > 0 {
      StrLeRefl(a[1..]);
    }
  }

  lemma {:induction false} StrLeTotal(a: string, b: string)
    ensures StrLe(a, b) || StrLe(b, a)
    decreases |a|
  {
    if |a| > 0 && |b| > 0 && a[0] == b[0] {
      StrLeTotal(a[1..], b[1..]);
    }
  }

  lemma {:induction false} StrLeAntisym(a: string, b: string)
    requires StrLe(a, b) && StrLe(b, a)
    ensures a == b
    decreases |a|
  {
    if |a| > 0 {
      StrLeAntisym(a[1..], b[1..]);
      assert a == [a[0]] + a[1..] && b == [b[0]] + b[1..];
    }
  }

  lemma {:induction false} StrLeTrans(a: string, b: string, c: string)
    requires StrLe(a, b) && StrLe(b, c)
    ensures StrLe(a, c)
    decreases |a|
  {
    if |a| > 0 && a[0] == b[0] && b[0] == c[0] {
      StrLeTrans(a[1..], b[1..], c[1..]);
    }
  }

  /** The order of the sort key `(target, source)` at sankey.py:98: tuples
      compare by their first component and fall back to the second. */
  predicate KeyLe(x: Edge, y: Edge)
  {
    if x.target == y.target then StrLe(x.source, y.source) else StrLe(x.target, y.target)
  }

  lemma {:induction false} KeyLeTotal(x: Edge, y: Edge)
    ensures KeyLe(x, y) || KeyLe(y, x)
  {
    StrLeTotal(x.target, y.target);
    StrLeTotal(x.source, y.source);
  }

  lemma {:induction false} KeyLeTrans(x: Edge, y: Edge, z: Edge)
    requires KeyLe(x, y) && KeyLe(y, z)
    ensures KeyLe(x, z)
  {
    if x.target == y.target && y.target == z.target {
      StrLeTrans(x.source, y.source, z.source);
    } else if x.target == y.target {
      assert StrLe(x.target, z.target);
    } else if y.target == z.target {
      assert StrLe(x.target, z.target);
    } else {
      StrLeTrans(x.target, y.target, z.target);
      if x.target == z.target {
        StrLeAntisym(x.target, y.target);
      }
    }
  }

  /** Each edge is in key order with its successor. */
  predicate Sorted(s: seq<Edge>)
  {
    forall i :: 0 < i < |s| ==> KeyLe(s[i - 1], s[i])
  }

  /** A sorted list is in key order between any two positions. */
  lemma {:induction false} SortedPairwise(s: seq<Edge>, i: int, j: int)
    requires Sorted(s) && 0 <= i < j < |s|
    ensures KeyLe(s[i], s[j])
    decreases j - i
  {
    if i + 1 < j {
      SortedPairwise(s, i + 1, j);
      KeyLeTrans(s[i], s[i + 1], s[j]);
    }
  }

  /** `x` placed in front of the first element it is in key order with. */
  function Insert(x: Edge, s: seq<Edge>): (r: seq<Edge>)
    ensures |r| == |s| + 1
    ensures multiset(r) == multiset(s) + multiset{x}
    ensures r[0] == x || (|s| > 0 && r[0] == s[0])
  {
    if |s| == 0 then [x]
    else if KeyLe(x, s[0]) then [x] + s
    else
      assert s == [s[0]] + s[1..];
      [s[0]] + Insert(x, s[1..])
  }

  lemma {:induction false} InsertSorted(x: Edge, s: seq<Edge>)
    requires Sorted(s)
    ensures Sorted(Insert(x, s))
  {
    if |s| > 0 && !KeyLe(x, s[0]) {
      var t := s[1..];
      assert Sorted(t) by {
        forall i | 0 < i < |t| ensures KeyLe(t[i - 1], t[i]) {
          assert t[i - 1] == s[i] && t[i] == s[i + 1];
        }
      }
      InsertSorted(x, t);
      KeyLeTotal(x, s[0]);
      var r := Insert(x, s);
      var u := Insert(x, t);
      assert r == [s[0]] + u;
      assert KeyLe(s[0], u[0]) by {
        if u[0] != x {
          assert KeyLe(s[0], s[1]);
        }
      }
      forall i | 0 < i < |r| ensures KeyLe(r[i - 1], r[i]) {
        if i > 1 {
          assert r[i - 1] == u[i - 2] && r[i] == u[i - 1];
        }
      }
    }
  }

  /** `sorted(sankey_data, key=lambda x: (x[1], x[0]))`, as an insertion
      sort that keeps equal keys in their input order. */
  function SortEdges(s: seq<Edge>): (r: seq<Edge>)
    ensures multiset(r) == multiset(s)
    ensures |r| == |s|
  {
    if |s| == 0 then []
    else
      assert s == [s[0]] + s[1..];
      Insert(s[0], SortEdges(s[1..]))
  }

  /** The sorted list is ordered by the key. */
  lemma {:induction false} SortEdgesSorted(s: seq<Edge>)
    ensures Sorted(SortEdges(s))
  {
    if |s| > 0 {
      SortEdgesSorted(s[1..]);
      InsertSorted(s[0], SortEdges(s[1..]));
    }
  }

  /** Sorting keeps the edges, each as many times as it occurs. */
  lemma {:induction false} SortEdgesSameEdges(s: seq<Edge>, e: Edge)
    ensures e in SortEdges(s) <==> e in s
  {
    assert e in multiset(SortEdges(s)) <==> e in multiset(s);
  }

  predicate NoDuplicates(s: seq<string>)
  {
    forall i, j :: 0 <= i < j < |s| ==> s[i] != s[j]
  }

  /** `list(dict.fromkeys(s))`: every distinct element once, at the place
      of its first occurrence. */
  function Dedup(s: seq<string>): (r: seq<string>)
    ensures NoDuplicates(r)
    ensures forall x :: x in r <==> x in s
    decreases |s|
  {
    if |s| == 0 then []
    else
      var d := Dedup(s[..|s| - 1]);
      var x := s[|s| - 1];
      assert s == s[..|s| - 1] + [x];
      if x in d then d else d + [x]
  }

  /** `s.index(x)`: the position of the first occurrence of `x`. */
  function IndexOf(s: seq<string>, x: string): (i: nat)
    requires x in s
    ensures i < |s| && s[i] == x
    ensures x !in s[..i]
  {
    if s[0] == x then 0
    else
      assert s == [s[0]] + s[1..];
      var j := IndexOf(s[1..], x);
      assert s[..j + 1] == [s[0]] + s[1..][..j];
      j + 1
  }

  /** In a list without duplicates the first occurrence is the only one. */
  lemma {:induction false} IndexOfUnique(s: seq<string>, i: int)
    requires NoDuplicates(s) && 0 <= i < |s|
    ensures IndexOf(s, s[i]) == i
  {
  }

  /** De-duplication keeps first occurrences in their order: a node listed
      before another was first seen before it. */
  lemma {:induction false} DedupKeepsFirstOrder(s: seq<string>, i: int, j: int)
    requires 0 <= i < j < |Dedup(s)|
    ensures IndexOf(s, Dedup(s)[i]) < IndexOf(s, Dedup(s)[j])
    decreases |s|
  {
    var m := s[..|s| - 1];
    var x := s[|s| - 1];
    var d := Dedup(m);
    var r := Dedup(s);
    assert s == m + [x];
    if j < |d| {
      assert r[i] == d[i] && r[j] == d[j];
      DedupKeepsFirstOrder(m, i, j);
      IndexOfPrefix(m, x, d[i]);
      IndexOfPrefix(m, x, d[j]);
    } else {
      assert x !in d && r[j] == x && r[i] == d[i];
      assert x !in m;
      IndexOfPrefix(m, x, d[i]);
      assert IndexOf(s, x) == |m|;
    }
  }

  /** Appending does not move the first occurrence of an element already
      present. */
  lemma {:induction false} IndexOfPrefix(m: seq<string>, x: string, y: string)
    requires y in m
    ensures IndexOf(m + [x], y) == IndexOf(m, y)
  {
    var s := m + [x];
    var k := IndexOf(m, y);
    assert s[k] == y && s[..k] == m[..k];
  }

  function Sources(edges: seq<Edge>): (r: seq<string>)
    ensures |r| == |edges| && forall i :: 0 <= i < |edges| ==> r[i] == edges[i].source
  {
    seq(|edges|, i requires 0 <= i < |edges| => edges[i].source)
  }

  function Targets(edges: seq<Edge>): (r: seq<string>)
    ensures |r| == |edges| && forall i :: 0 <= i < |edges| ==> r[i] == edges[i].target
  {
    seq(|edges|, i requires 0 <= i < |edges| => edges[i].target)
  }

  function Values(edges: seq<Edge>): (r: seq<real>)
    ensures |r| == |edges| && forall i :: 0 <= i < |edges| ==> r[i] == edges[i].value
  {
    seq(|edges|, i requires 0 <= i < |edges| => edges[i].value)
  }

  /** `nodes` at sankey.py:101-104. */
  function Nodes(edges: seq<Edge>): (nodes: seq<string>)
    ensures NoDuplicates(nodes)
    ensures forall n :: n in nodes <==> n in Sources(edges) || n in Targets(edges)
  {
    Dedup(Sources(edges) + Targets(edges))
  }

  /** Every edge's endpoints are nodes. */
  lemma {:induction false} EndpointsAreNodes(edges: seq<Edge>, k: int)
    requires 0 <= k < |edges|
    ensures edges[k].source in Nodes(edges) && edges[k].target in Nodes(edges)
  {
    assert Sources(edges)[k] == edges[k].source;
    assert Targets(edges)[k] == edges[k].target;
  }

  /** Every node is an endpoint of some edge. */
  lemma {:induction false} NodesAreEndpoints(edges: seq<Edge>, n: string)
    requires n in Nodes(edges)
    ensures exists k :: 0 <= k < |edges| && (edges[k].source == n || edges[k].target == n)
  {
    if n in Sources(edges) {
      var k :| 0 <= k < |edges| && Sources(edges)[k] == n;
      assert edges[k].source == n;
    } else {
      var k :| 0 <= k < |edges| && Targets(edges)[k] == n;
      assert edges[k].target == n;
    }
  }

  /** `[nodes.index(x) for x in names]` at sankey.py:116-117. */
  function Indices(nodes: seq<string>, names: seq<string>): (r: seq<nat>)
    requires forall x :: x in names ==> x in nodes
    ensures |r| == |names|
    ensures forall k :: 0 <= k < |names| ==> r[k] < |nodes| && nodes[r[k]] == names[k]
  {
    seq(|names|, k requires 0 <= k < |names| => IndexOf(nodes, names[k]))
  }

  /** The `link` arrays handed to the figure (sankey.py:107-119). */
  datatype Links = Links(nodes: seq<string>, sources: seq<nat>, targets: seq<nat>, values: seq<real>)

  /** Every link has a source, a target and a value, and its indices are
      positions of the node list. */
  predicate WellIndexed(l: Links)
  {
    |l.sources| == |l.values| && |l.targets| == |l.values| &&
    forall i :: 0 <= i < |l.values| ==> l.sources[i] < |l.nodes| && l.targets[i] < |l.nodes|
  }

  /** The edge that link `i` describes, read back through the node list. */
  function Linked(l: Links, i: int): (e: Edge)
    requires WellIndexed(l) && 0 <= i < |l.values|
  {
    Edge(l.nodes[l.sources[i]], l.nodes[l.targets[i]], l.values[i])
  }

  /** sankey.py:98-118: sort the edges, list the nodes, and replace each
      endpoint by the index of its node. */
  function SankeyLinks(edges: seq<Edge>): (l: Links)
    ensures NoDuplicates(l.nodes)
    ensures WellIndexed(l) && |l.values| == |edges|
    ensures forall i :: 0 <= i < |edges| ==> Linked(l, i) == SortEdges(edges)[i]
  {
    var sorted := SortEdges(edges);
    var nodes := Nodes(sorted);
    Links(nodes, Indices(nodes, Sources(sorted)), Indices(nodes, Targets(sorted)), Values(sorted))
  }

  /** Every input edge's endpoints are nodes of the figure. */
  lemma {:induction false} SankeyLinksCoverEdges(edges: seq<Edge>, e: Edge)
    requires e in edges
    ensures e.source in SankeyLinks(edges).nodes && e.target in SankeyLinks(edges).nodes
  {
    var sorted := SortEdges(edges);
    SortEdgesSameEdges(edges, e);
    var k :| 0 <= k < |sorted| && sorted[k] == e;
    EndpointsAreNodes(sorted, k);
  }

  /** Every node of the figure is an endpoint of some input edge. */
  lemma {:induction false} SankeyLinksNodesAreEndpoints(edges: seq<Edge>, n: string)
    requires n in SankeyLinks(edges).nodes
    ensures exists e :: e in edges && (e.source == n || e.target == n)
  {
    var sorted := SortEdges(edges);
    NodesAreEndpoints(sorted, n);
    var k :| 0 <= k < |sorted| && (sorted[k].source == n || sorted[k].target == n);
    SortEdgesSameEdges(edges, sorted[k]);
  }

  /** Reading the links back gives the input edges, sorted by
      (target, source) and each as often as in the input. */
  lemma {:induction false} SankeyLinksRoundTrip(edges: seq<Edge>)
    ensures var l := SankeyLinks(edges);
      Sorted(seq(|edges|, i requires 0 <= i < |edges| => Linked(l, i))) &&
      multiset(seq(|edges|, i requires 0 <= i < |edges| => Linked(l, i))) == multiset(edges)
  {
    var l := SankeyLinks(edges);
    var back := seq(|edges|, i requires 0 <= i < |edges| => Linked(l, i));
    assert back == SortEdges(edges);
    SortEdgesSorted(edges);
  }

  /** Each index is the only position of its node: distinct nodes get
      distinct indices. */
  lemma {:induction false} SankeyLinksIndexUnique(edges: seq<Edge>, i: int, k: int)
    requires 0 <= i < |edges| && 0 <= k < |SankeyLinks(edges).nodes|
    requires SankeyLinks(edges).nodes[k] == SortEdges(edges)[i].source
    ensures SankeyLinks(edges).sources[i] == k
  {
    var l := SankeyLinks(edges);
    IndexOfUnique(l.nodes, k);
    IndexOfUnique(l.nodes, l.sources[i]);
  }
}
