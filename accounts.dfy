/**
 * Account names of a chart of accounts. A name is a path of segments
 * separated by ':' ("expenses:food:groceries"); dropping the last segment
 * gives the parent account, so the set of names encodes a tree.
 *
 * Split and Join follow Python's str.split(':') and ':'.join(...), which is
 * how the parent rule is written; Contains is Python's substring test `in`.
 */
module AccountNames {

  const Separator: char := ':'

  /** `s.split(':')`: the colon-free pieces of `s` between separators, in
      order. There is always at least one piece (the empty string gives [""]). */
  function Split(s: string): (parts: seq<string>)
    ensures |parts| >= 1
    decreases |s|
  {
    if |s| == 0 then [""]
    else
      var init := Split(s[..|s| - 1]);
      var c := s[|s| - 1];
      if c == Separator then init + [""]
      else init[..|init| - 1] + [init[|init| - 1] + [c]]
  }

  /** `':'.join(parts)`. */
  function Join(parts: seq<string>): (joined: string)
    decreases |parts|
  {
    if |parts| == 0 then ""
    else if |parts| == 1 then parts[0]
    else Join(parts[..|parts| - 1]) + [Separator] + parts[|parts| - 1]
  }

  /** `parent` (sankey.py:13-14): the name without its last segment;
      a single-segment name has the empty parent. */
  function Parent(name: string): (p: string)
  {
    var parts := Split(name);
    Join(parts[..|parts| - 1])
  }

  /** Python's `sub in s` on strings. */
  predicate Contains(s: string, sub: string)
    decreases |s|
  {
    sub <= s || (|s| > 0 && Contains(s[1..], sub))
  }

  /** `sub` sits in `s` starting at index `i`. */
  predicate OccursAt(s: string, sub: string, i: int)
  {
    0 <= i && i + |sub| <= |s| && s[i..i + |sub|] == sub
  }

  /** Contains agrees with the window definition of a substring. */
  lemma {:induction false} ContainsIffOccurs(s: string, sub: string)
    ensures Contains(s, sub) <==> exists i :: OccursAt(s, sub, i)
    decreases |s|
  {
    if sub <= s {
      assert OccursAt(s, sub, 0);
    } else if |s| > 0 {
      ContainsIffOccurs(s[1..], sub);
      if Contains(s[1..], sub) {
        var j :| OccursAt(s[1..], sub, j);
        assert s[j + 1..j + 1 + |sub|] == s[1..][j..j + |sub|];
        assert OccursAt(s, sub, j + 1);
      }
      if i :| OccursAt(s, sub, i) {
        assert i != 0;
        assert s[1..][i - 1..i - 1 + |sub|] == s[i..i + |sub|];
        assert OccursAt(s[1..], sub, i - 1);
      }
    }
  }

  /** `p` with `t` appended to its last element. */
  function ExtendLast(p: seq<string>, t: string): (r: seq<string>)
    requires |p| >= 1
  {
    p[..|p| - 1] + [p[|p| - 1] + t]
  }

  /** One step of Split: a separator opens a new segment, any other
      character extends the last one. */
  lemma {:induction false} SplitSnoc(m: string, c: char)
    ensures c == Separator ==> Split(m + [c]) == Split(m) + [""]
    ensures c != Separator ==> Split(m + [c]) == ExtendLast(Split(m), [c])
  {
    assert (m + [c])[..|m|] == m;
  }

  /** The pieces of a split contain no separator. */
  lemma {:induction false} SplitPiecesColonFree(s: string)
    ensures forall k :: 0 <= k < |Split(s)| ==> Separator !in Split(s)[k]
    decreases |s|
  {
    if |s| > 0 {
      var m := s[..|s| - 1];
      var c := s[|s| - 1];
      assert s == m + [c];
      SplitPiecesColonFree(m);
      SplitSnoc(m, c);
      var p := Split(m);
      if c != Separator {
        var last := p[|p| - 1] + [c];
        assert Separator !in last by {
          forall x | 0 <= x < |last| ensures last[x] != Separator {
            if x < |last| - 1 {
              assert last[x] == p[|p| - 1][x];
            }
          }
        }
        assert Split(s) == p[..|p| - 1] + [last];
      }
    }
  }

  /** Appending a separator opens a new, empty segment. */
  lemma {:induction false} SplitAppendSeparator(s: string)
    ensures Split(s + [Separator]) == Split(s) + [""]
  {
    SplitSnoc(s, Separator);
  }

  lemma {:induction false} ExtendLastTwice(p: seq<string>, u: string, v: string)
    requires |p| >= 1
    ensures ExtendLast(ExtendLast(p, u), v) == ExtendLast(p, u + v)
  {
    var q := ExtendLast(p, u);
    assert q[..|q| - 1] == p[..|p| - 1];
    assert q[|q| - 1] + v == p[|p| - 1] + (u + v);
  }

  lemma {:induction false} ExtendLastEmpty(p: seq<string>)
    requires |p| >= 1
    ensures ExtendLast(p, "") == p
  {
    assert p[|p| - 1] + "" == p[|p| - 1];
    assert p == p[..|p| - 1] + [p[|p| - 1]];
  }

  /** Appending colon-free text extends the last segment. */
  lemma {:induction false} SplitAppendSegment(s: string, t: string)
    requires Separator !in t
    ensures Split(s + t) == ExtendLast(Split(s), t)
    decreases |t|
  {
    if |t| == 0 {
      assert s + t == s;
      ExtendLastEmpty(Split(s));
    } else {
      var u := t[..|t| - 1];
      var c := t[|t| - 1];
      assert t == u + [c];
      assert c in t;
      assert Separator !in u by {
        forall k | 0 <= k < |u| ensures u[k] != Separator {
          assert u[k] == t[k];
        }
      }
      SplitAppendSegment(s, u);
      assert s + t == (s + u) + [c];
      SplitSnoc(s + u, c);
      ExtendLastTwice(Split(s), u, [c]);
    }
  }

  /** Joining after appending a piece puts a separator in front of it. */
  lemma {:induction false} JoinSnoc(p: seq<string>, x: string)
    requires |p| >= 1
    ensures Join(p + [x]) == Join(p) + [Separator] + x
  {
    assert (p + [x])[..|p|] == p;
  }

  /** Extending the last piece extends the join by the same text. */
  lemma {:induction false} JoinExtendLast(p: seq<string>, t: string)
    requires |p| >= 1
    ensures Join(ExtendLast(p, t)) == Join(p) + t
  {
    var k := |p| - 1;
    var q := ExtendLast(p, t);
    if k == 0 {
      assert q == [p[0] + t];
    } else {
      assert q[..k] == p[..k];
      assert q[k] == p[k] + t;
      var j := Join(p[..k]) + [Separator];
      assert Join(q) == j + q[k];
      assert Join(p) == j + p[k];
      assert j + (p[k] + t) == (j + p[k]) + t;
    }
  }

  /** Joining the pieces of a split gives the string back. */
  lemma {:induction false} JoinSplit(s: string)
    ensures Join(Split(s)) == s
    decreases |s|
  {
    if |s| > 0 {
      var m := s[..|s| - 1];
      var c := s[|s| - 1];
      assert s == m + [c];
      JoinSplit(m);
      SplitSnoc(m, c);
      if c == Separator {
        JoinSnoc(Split(m), "");
      } else {
        JoinExtendLast(Split(m), [c]);
      }
    }
  }

  /** A new last piece after a separator: `p + [""]` extended by `t`. */
  lemma {:induction false} ExtendLastOfFresh(p: seq<string>, t: string)
    ensures ExtendLast(p + [""], t) == p + [t]
  {
    assert (p + [""])[..|p|] == p;
    assert "" + t == t;
  }

  /** Splitting a join of colon-free pieces gives the pieces back. */
  lemma {:induction false} SplitJoin(parts: seq<string>)
    requires |parts| >= 1
    requires forall k :: 0 <= k < |parts| ==> Separator !in parts[k]
    ensures Split(Join(parts)) == parts
    decreases |parts|
  {
    var last := parts[|parts| - 1];
    if |parts| == 1 {
      SplitAppendSegment("", last);
      ExtendLastOfFresh([], last);
      assert "" + last == last;
    } else {
      var init := parts[..|parts| - 1];
      assert parts == init + [last];
      SplitJoin(init);
      var j := Join(init);
      JoinSnoc(init, last);
      SplitAppendSeparator(j);
      SplitAppendSegment(j + [Separator], last);
      ExtendLastOfFresh(init, last);
    }
  }

  /** The parent's segments are the name's segments minus the last one. */
  lemma {:induction false} ParentSegments(name: string)
    ensures |Split(name)| == 1 ==> Parent(name) == ""
    ensures |Split(name)| >= 2 ==>
      Split(Parent(name)) == Split(name)[..|Split(name)| - 1]
  {
    var parts := Split(name);
    if |parts| >= 2 {
      SplitPiecesColonFree(name);
      SplitJoin(parts[..|parts| - 1]);
    }
  }

  /** The parent of `a:b`, for a colon-free last segment `b`, is `a`. */
  lemma {:induction false} ParentOfChild(a: string, b: string)
    requires Separator !in b
    ensures Parent(a + [Separator] + b) == a
  {
    SplitAppendSeparator(a);
    SplitAppendSegment(a + [Separator], b);
    var p := Split(a + [Separator]);
    assert p[..|p| - 1] == Split(a);
    var q := Split(a + [Separator] + b);
    assert q[..|q| - 1] == Split(a);
    JoinSplit(a);
  }

  /** A single-segment name has the empty parent. */
  lemma {:induction false} ParentOfTopSegment(name: string)
    requires Separator !in name
    ensures Parent(name) == ""
  {
    SplitAppendSegment("", name);
    assert "" + name == name;
  }

  /** A last character that is not a separator does not change the parent. */
  lemma {:induction false} ParentIgnoresLastChar(m: string, c: char)
    requires c != Separator
    ensures Parent(m + [c]) == Parent(m)
  {
    assert (m + [c])[..|m|] == m;
    var init := Split(m);
    var parts := Split(m + [c]);
    assert parts == init[..|init| - 1] + [init[|init| - 1] + [c]];
    assert parts[..|parts| - 1] == init[..|init| - 1];
  }

  /** `k` is the position of the last separator in `name`. */
  predicate LastSeparatorAt(name: string, k: int)
  {
    0 <= k < |name| && name[k] == Separator && Separator !in name[k + 1..]
  }

  /** A trailing non-separator keeps the last separator where it was. */
  lemma {:induction false} LastSeparatorSnoc(m: string, c: char, k: int)
    requires c != Separator && LastSeparatorAt(m, k)
    ensures LastSeparatorAt(m + [c], k) && (m + [c])[..k] == m[..k]
  {
    var name := m + [c];
    var tail := name[k + 1..];
    assert tail == m[k + 1..] + [c];
    forall x | 0 <= x < |tail| ensures tail[x] != Separator {
      if x < |tail| - 1 {
        assert tail[x] == m[k + 1..][x];
      }
    }
    assert name[k] == m[k];
  }

  /** The parent is the text before the last separator, or "" when there is
      none. */
  lemma {:induction false} ParentBeforeLastSeparator(name: string)
    ensures Separator !in name ==> Parent(name) == ""
    ensures Separator in name ==>
      exists k :: LastSeparatorAt(name, k) && Parent(name) == name[..k]
    decreases |name|
  {
    if Separator !in name {
      ParentOfTopSegment(name);
    } else {
      var m := name[..|name| - 1];
      var c := name[|name| - 1];
      assert name == m + [c];
      if c == Separator {
        ParentOfChild(m, "");
        assert m + [Separator] + "" == name;
        var k := |name| - 1;
        assert name[k + 1..] == "";
        assert name[..k] == m;
        assert LastSeparatorAt(name, k);
      } else {
        ParentIgnoresLastChar(m, c);
        assert Separator in m;
        ParentBeforeLastSeparator(m);
        var k :| LastSeparatorAt(m, k) && Parent(m) == m[..k];
        LastSeparatorSnoc(m, c, k);
      }
    }
  }

  /** The parent of a non-empty name is a proper prefix of it. */
  lemma {:induction false} ParentIsProperPrefix(name: string)
    requires name != ""
    ensures Parent(name) < name
  {
    ParentBeforeLastSeparator(name);
  }

  /** sankey.py:11-12: "assets:cash" -> "assets", "assets" -> "". */
  lemma {:induction false} ParentExamples()
    ensures Parent("assets:cash") == "assets"
    ensures Parent("assets") == ""
  {
    ParentOfChild("assets", "cash");
    assert "assets" + [Separator] + "cash" == "assets:cash";
    ParentOfTopSegment("assets");
  }
}
