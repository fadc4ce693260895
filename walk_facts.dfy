/** What `SquashFs.Walk` promises about the visits it makes (squash.go:84-137),
    whatever the visitor does: the order of the visits, which results stop
    the walk, and what `SkipDir` skips. */
module WalkFacts {
  import opened Common
  import opened Squash

  function Last(t: seq<Visited>): Visited
    requires |t| > 0
  {
    t[|t| - 1]
  }

  /** Only the last visit of a trace may have asked to abort. */
  predicate AbortOnlyLast(t: seq<Visited>) {
    forall k :: 0 <= k < |t| - 1 ==> !Aborts(t[k].res)
  }

  /** What the walk of one entry returns: nothing, or the last visit's
      result; and an aborting last visit is always returned. */
  predicate ReturnsLast(t: seq<Visited>, err: Option<Error>) {
    && (err.Some? ==> |t| > 0 && err == Last(t).res)
    && (|t| > 0 && Aborts(Last(t).res) ==> err == Last(t).res)
  }

  /** Every visit of the walk of `p` is of `p` or of a path below it. */
  predicate Rooted(t: seq<Visited>, p: Path) {
    forall k :: 0 <= k < |t| ==> p <= t[k].path
  }

  /** Every visit of the loop over `names[i..]` in `p` is below one of those names. */
  predicate InNames(t: seq<Visited>, p: Path, names: seq<string>, i: nat) {
    i <= |names| && forall k :: 0 <= k < |t| ==> p < t[k].path && t[k].path[|p|] in names[i..]
  }

  lemma ConsTrace(v: Visited, t: seq<Visited>, err: Option<Error>)
    requires !Aborts(v.res) && AbortOnlyLast(t) && ReturnsLast(t, err)
    ensures AbortOnlyLast([v] + t) && ReturnsLast([v] + t, err)
  {
    assert forall k :: 0 < k < |[v] + t| ==> ([v] + t)[k] == t[k - 1];
  }

  lemma AppendTrace(t1: seq<Visited>, t2: seq<Visited>, err: Option<Error>)
    requires |t1| > 0 && AbortOnlyLast(t1) && !Aborts(Last(t1).res)
    requires AbortOnlyLast(t2) && ReturnsLast(t2, err)
    ensures AbortOnlyLast(t1 + t2) && ReturnsLast(t1 + t2, err)
  {
    assert forall k :: |t1| <= k < |t1 + t2| ==> (t1 + t2)[k] == t2[k - |t1|];
  }

  lemma InNamesCons(v: Visited, t: seq<Visited>, p: Path, names: seq<string>, i: nat)
    requires i < |names| && p < v.path && v.path[|p|] == names[i] && InNames(t, p, names, i + 1)
    ensures InNames([v] + t, p, names, i)
  {
    assert forall k :: 0 < k < |[v] + t| ==> ([v] + t)[k] == t[k - 1];
    assert forall x :: x in names[i + 1..] ==> x in names[i..];
  }

  lemma InNamesAppend(t1: seq<Visited>, t2: seq<Visited>, p: Path, names: seq<string>, i: nat)
    requires i < |names| && Rooted(t1, p + [names[i]]) && InNames(t2, p, names, i + 1)
    ensures InNames(t1 + t2, p, names, i)
  {
    var c := p + [names[i]];
    forall k | 0 <= k < |t1 + t2|
      ensures p < (t1 + t2)[k].path && (t1 + t2)[k].path[|p|] in names[i..]
    {
      if k < |t1| {
        assert c <= t1[k].path;
        assert t1[k].path[|p|] == c[|p|];
      } else {
        assert (t1 + t2)[k] == t2[k - |t1|];
        assert forall x :: x in names[i + 1..] ==> x in names[i..];
      }
    }
  }

  /** No non-directory's visit returned `SkipDir` (which would skip the
      rest of its directory). */
  predicate NoFileSkip(t: seq<Visited>) {
    forall k :: 0 <= k < |t| ==> !FileSkip(t[k])
  }

  /** A directory visit after which its listing is walked: the listing
      succeeded and the visitor returned nil. */
  predicate Listed(a: Archive, v: Visited) {
    v.path in a.inodes && v.path !in a.unlistable && IsDir(v.info) && v.err.None? && v.res.None?
  }

  /** Every child of directory `d` is among the paths `ps`. */
  predicate ChildrenIn(a: Archive, d: Path, ps: set<Path>)
    requires d in a.inodes
  {
    forall n :: n in a.inodes[d].names ==> d + [n] in ps
  }

  /** Every directory listed during the walk had all of its children visited. */
  predicate Closed(a: Archive, t: seq<Visited>) {
    forall k :: 0 <= k < |t| && Listed(a, t[k]) ==> ChildrenIn(a, t[k].path, PathsOf(t))
  }

  lemma PathsOfConcat(t1: seq<Visited>, t2: seq<Visited>)
    ensures PathsOf(t1 + t2) == PathsOf(t1) + PathsOf(t2)
  {
    var t := t1 + t2;
    forall x | x in PathsOf(t) ensures x in PathsOf(t1) + PathsOf(t2) {
      var k :| 0 <= k < |t| && t[k].path == x;
      if k < |t1| { assert t1[k] == t[k]; } else { assert t2[k - |t1|] == t[k]; }
    }
    forall x | x in PathsOf(t1) + PathsOf(t2) ensures x in PathsOf(t) {
      if x in PathsOf(t1) {
        var k :| 0 <= k < |t1| && t1[k].path == x;
        assert t[k] == t1[k];
      } else {
        var k :| 0 <= k < |t2| && t2[k].path == x;
        assert t[|t1| + k] == t2[k];
      }
    }
  }

  lemma NoFileSkipConcat(t1: seq<Visited>, t2: seq<Visited>)
    ensures NoFileSkip(t1 + t2) == (NoFileSkip(t1) && NoFileSkip(t2))
  {
    var t := t1 + t2;
    if NoFileSkip(t1) && NoFileSkip(t2) {
      forall k | 0 <= k < |t| ensures !FileSkip(t[k]) {
        if k < |t1| { assert t[k] == t1[k]; } else { assert t[k] == t2[k - |t1|]; }
      }
    }
    if NoFileSkip(t) {
      forall k | 0 <= k < |t1| ensures !FileSkip(t1[k]) { assert t[k] == t1[k]; }
      forall k | 0 <= k < |t2| ensures !FileSkip(t2[k]) { assert t[|t1| + k] == t2[k]; }
    }
  }

  lemma ClosedAppend(a: Archive, t1: seq<Visited>, t2: seq<Visited>)
    requires Closed(a, t1) && Closed(a, t2)
    ensures Closed(a, t1 + t2)
  {
    var t := t1 + t2;
    PathsOfConcat(t1, t2);
    forall k | 0 <= k < |t| && Listed(a, t[k]) ensures ChildrenIn(a, t[k].path, PathsOf(t)) {
      if k < |t1| { assert t[k] == t1[k]; } else { assert t[k] == t2[k - |t1|]; }
    }
  }

  /** A listed directory followed by a closed walk of its children. */
  lemma ClosedCons(a: Archive, v: Visited, t: seq<Visited>)
    requires Closed(a, t)
    requires Listed(a, v) ==> ChildrenIn(a, v.path, PathsOf([v] + t))
    ensures Closed(a, [v] + t)
  {
    var u := [v] + t;
    PathsOfConcat([v], t);
    forall k | 0 < k < |u| && Listed(a, u[k]) ensures ChildrenIn(a, u[k].path, PathsOf(u)) {
      assert u[k] == t[k - 1];
    }
  }

  /** Unless a visit aborted the walk or a non-directory skipped the rest
      of its directory, every directory whose listing the walk of `p` read
      had every one of its children visited. */
  lemma {:induction false} WalkAtCloses<S>(a: Archive, p: Path, info: Info, visit: Visitor<S>, s: S)
    requires p in a.inodes
    ensures var o := WalkAt(a, p, info, visit, s);
      && |o.trace| >= 1 && o.trace[0].path == p
      && (!Aborts(o.err) && NoFileSkip(o.trace) ==> Closed(a, o.trace))
    decreases Deeper(a, p), 1
  {
    var o := WalkAt(a, p, info, visit, s);
    if IsDir(info) {
      var names := List(a, p);
      var lerr := if names.Err? then Some(names.error) else None;
      var (s1, r) := visit(s, p, info, lerr);
      var v := Visited(p, info, lerr, r);
      if lerr.None? && r.None? {
        WalkNamesCloses(a, p, names.value, 0, visit, s1);
        var on := WalkNames(a, p, names.value, 0, visit, s1);
        assert o.trace == [v] + on.trace;
        if !Aborts(o.err) && NoFileSkip(o.trace) {
          NoFileSkipConcat([v], on.trace);
          PathsOfConcat([v], on.trace);
          forall n | n in a.inodes[p].names ensures p + [n] in PathsOf(o.trace) {
            var j :| 0 <= j < |names.value| && names.value[j] == n;
          }
          ClosedCons(a, v, on.trace);
        }
      }
    }
  }

  /** The loop over `names[i..]`: unless it was aborted or a non-directory
      skipped the rest, it returns nil, visits every remaining child and
      closes every directory it listed. */
  lemma {:induction false} WalkNamesCloses<S>(a: Archive, p: Path, names: seq<string>, i: nat,
                                              visit: Visitor<S>, s: S)
    ensures var o := WalkNames(a, p, names, i, visit, s);
      !Aborts(o.err) && NoFileSkip(o.trace) ==>
        && o.err.None? && Closed(a, o.trace)
        && (forall j :: i <= j < |names| ==> p + [names[j]] in PathsOf(o.trace))
    decreases Deeper(a, p), 0, |names| - i
  {
    var o := WalkNames(a, p, names, i, visit, s);
    if i < |names| && !Aborts(o.err) && NoFileSkip(o.trace) {
      var c := p + [names[i]];
      match Lstat(a, c)
      case Err(e) =>
        var (s1, r) := visit(s, c, ZeroInfo, Some(e));
        var v := Visited(c, ZeroInfo, Some(e), r);
        WalkNamesCloses(a, p, names, i + 1, visit, s1);
        var o2 := WalkNames(a, p, names, i + 1, visit, s1);
        assert o.trace == [v] + o2.trace;
        NoFileSkipConcat([v], o2.trace);
        ClosedCons(a, v, o2.trace);
        PathsOfConcat([v], o2.trace);
        assert o.trace[0] == v;
      case Ok(ci) =>
        DeeperShrinks(a, p, c);
        WalkAtCloses(a, c, ci, visit, s);
        var oc := WalkAt(a, c, ci, visit, s);
        if oc.err.Some? && (!IsDir(ci) || oc.err != Some(SkipDir)) {
          assert false;
        } else {
          WalkNamesCloses(a, p, names, i + 1, visit, oc.state);
          var o2 := WalkNames(a, p, names, i + 1, visit, oc.state);
          assert o.trace == oc.trace + o2.trace;
          NoFileSkipConcat(oc.trace, o2.trace);
          ClosedAppend(a, oc.trace, o2.trace);
          PathsOfConcat(oc.trace, o2.trace);
        }
    }
  }

  /** The loop goes on to the next name after an entry whose `Lstat` failed
      and whose visit returned nil or `SkipDir`, and after a child whose walk
      returned nil, or `SkipDir` when the child is a directory: the rest of
      the loop is then exactly the walk of the remaining names. */
  lemma WalkNamesGoesOn<S>(a: Archive, p: Path, names: seq<string>, i: nat, visit: Visitor<S>, s: S)
    requires i < |names|
    ensures var c := p + [names[i]];
      var o := WalkNames(a, p, names, i, visit, s);
      && (c !in a.inodes ==>
            var (s1, r) := visit(s, c, ZeroInfo, Some(NotExist));
            var rest := WalkNames(a, p, names, i + 1, visit, s1);
            !Aborts(r) ==>
              o.trace == [Visited(c, ZeroInfo, Some(NotExist), r)] + rest.trace
              && (o.state, o.err) == (rest.state, rest.err))
      && (c in a.inodes ==>
            var ci := GetFileInfo(c, a.inodes[c]);
            var oc := WalkAt(a, c, ci, visit, s);
            var rest := WalkNames(a, p, names, i + 1, visit, oc.state);
            oc.err.None? || (IsDir(ci) && oc.err == Some(SkipDir)) ==>
              o.trace == oc.trace + rest.trace && (o.state, o.err) == (rest.state, rest.err))
  {
  }

  lemma {:induction false} WalkAtShape<S>(a: Archive, p: Path, info: Info, visit: Visitor<S>, s: S)
    requires p in a.inodes
    ensures var o := WalkAt(a, p, info, visit, s);
      && |o.trace| >= 1 && o.trace[0].path == p && o.trace[0].info == info
      && Rooted(o.trace, p) && AbortOnlyLast(o.trace) && ReturnsLast(o.trace, o.err)
      && (forall k :: 0 < k < |o.trace| ==> p < o.trace[k].path)
      && (!Aborts(o.err) && NoFileSkip(o.trace) ==> Closed(a, o.trace))
    decreases Deeper(a, p), 1
  {
    WalkAtCloses(a, p, info, visit, s);
    if IsDir(info) {
      var names := List(a, p);
      var lerr := if names.Err? then Some(names.error) else None;
      var (s1, r) := visit(s, p, info, lerr);
      if lerr.None? && r.None? {
        WalkNamesShape(a, p, names.value, 0, visit, s1);
        var o := WalkNames(a, p, names.value, 0, visit, s1);
        var v := Visited(p, info, lerr, r);
        ConsTrace(v, o.trace, o.err);
        assert forall k :: 0 < k < |[v] + o.trace| ==> ([v] + o.trace)[k] == o.trace[k - 1];
      }
    }
  }

  lemma {:induction false} WalkNamesShape<S>(a: Archive, p: Path, names: seq<string>, i: nat,
                                             visit: Visitor<S>, s: S)
    requires i <= |names|
    ensures var o := WalkNames(a, p, names, i, visit, s);
      && InNames(o.trace, p, names, i) && AbortOnlyLast(o.trace) && ReturnsLast(o.trace, o.err)
      && (!Aborts(o.err) && NoFileSkip(o.trace) ==>
            o.err.None? && Closed(a, o.trace)
            && forall j :: i <= j < |names| ==> p + [names[j]] in PathsOf(o.trace))
    decreases Deeper(a, p), 0, |names| - i
  {
    WalkNamesCloses(a, p, names, i, visit, s);
    if i < |names| {
      var c := p + [names[i]];
      match Lstat(a, c)
      case Err(e) =>
        var (s1, r) := visit(s, c, ZeroInfo, Some(e));
        if !Aborts(r) {
          WalkNamesShape(a, p, names, i + 1, visit, s1);
          var o := WalkNames(a, p, names, i + 1, visit, s1);
          var v := Visited(c, ZeroInfo, Some(e), r);
          ConsTrace(v, o.trace, o.err);
          InNamesCons(v, o.trace, p, names, i);
        }
      case Ok(ci) =>
        DeeperShrinks(a, p, c);
        WalkAtShape(a, c, ci, visit, s);
        var o := WalkAt(a, c, ci, visit, s);
        if !(o.err.Some? && (!IsDir(ci) || o.err != Some(SkipDir))) {
          WalkNamesShape(a, p, names, i + 1, visit, o.state);
          var o2 := WalkNames(a, p, names, i + 1, visit, o.state);
          AppendTrace(o.trace, o2.trace, o2.err);
          InNamesAppend(o.trace, o2.trace, p, names, i);
        } else {
          InNamesAppend(o.trace, [], p, names, i);
          assert o.trace + [] == o.trace;
        }
    }
  }

  /** `SquashFs.Walk`: a missing root is reported without any visit; otherwise
      the root is visited first, every visit is of the root or below it, a
      visit that aborts is the last one and its result is the walk's result,
      and `SkipDir` never escapes the walk. When the walk returns nil and no
      non-directory returned `SkipDir`, every directory whose listing was
      read had every one of its children visited. */
  lemma WalkResult<S>(a: Archive, root: Path, visit: Visitor<S>, s: S)
    ensures var o := Walk(a, root, visit, s);
      && o.err != Some(SkipDir)
      && (root !in a.inodes ==> o.err == Some(NotExist) && o.trace == [] && o.state == s)
      && (root in a.inodes ==>
            && |o.trace| >= 1 && o.trace[0].path == root && Rooted(o.trace, root)
            && AbortOnlyLast(o.trace)
            && (o.err.Some? ==> Aborts(o.err) && o.err == Last(o.trace).res)
            && (Aborts(Last(o.trace).res) ==> o.err == Last(o.trace).res)
            && (o.err.None? && NoFileSkip(o.trace) ==> Closed(a, o.trace)))
  {
    if root in a.inodes {
      WalkAtShape(a, root, GetFileInfo(root, a.inodes[root]), visit, s);
    }
  }

  /** A regular entry (anything but a directory) is visited exactly once,
      with no error, and the walk of it returns what the visitor returned. */
  lemma NonDirVisitedOnce<S>(a: Archive, p: Path, info: Info, visit: Visitor<S>, s: S)
    requires p in a.inodes && !IsDir(info)
    ensures var o := WalkAt(a, p, info, visit, s);
      && o.trace == [Visited(p, info, None, o.err)]
      && (o.state, o.err) == visit(s, p, info, None)
  {
  }

  /** The directory's children are not walked when its listing failed or
      when the visitor returned anything but nil for it. */
  lemma DirStopsOnListErrorOrResult<S>(a: Archive, p: Path, info: Info, visit: Visitor<S>, s: S)
    requires p in a.inodes && IsDir(info)
    requires p in a.unlistable || visit(s, p, info, None).1.Some?
    ensures var o := WalkAt(a, p, info, visit, s);
      |o.trace| == 1 && o.trace[0].path == p && o.err == o.trace[0].res
  {
  }

  function PathsOf(t: seq<Visited>): set<Path> {
    set k | 0 <= k < |t| :: t[k].path
  }

  /** Every visit but the walk's first is of a path whose parent directory
      was visited earlier (or is the directory being listed, `p`). */
  predicate ParentsFirst(t: seq<Visited>, p: Path) {
    forall k :: 0 <= k < |t| ==> Parent(t[k].path) == p || Parent(t[k].path) in PathsOf(t[..k])
  }

  lemma PathsOfGrow(t1: seq<Visited>, t2: seq<Visited>, j: nat)
    requires j <= |t2|
    ensures PathsOf(t2[..j]) <= PathsOf((t1 + t2)[..|t1| + j])
    ensures PathsOf(t1) <= PathsOf((t1 + t2)[..|t1| + j])
  {
    var u := (t1 + t2)[..|t1| + j];
    forall x | x in PathsOf(t2[..j]) ensures x in PathsOf(u) {
      var k :| 0 <= k < j && t2[..j][k].path == x;
      assert u[|t1| + k] == t2[k];
    }
    forall x | x in PathsOf(t1) ensures x in PathsOf(u) {
      var k :| 0 <= k < |t1| && t1[k].path == x;
      assert u[k] == t1[k];
    }
  }

  lemma ParentsFirstAppend(t1: seq<Visited>, t2: seq<Visited>, p: Path)
    requires ParentsFirst(t1, p) && ParentsFirst(t2, p)
    ensures ParentsFirst(t1 + t2, p)
  {
    var t := t1 + t2;
    forall k | 0 <= k < |t| && Parent(t[k].path) != p
      ensures Parent(t[k].path) in PathsOf(t[..k])
    {
      if k < |t1| {
        assert t[..k] == t1[..k];
        assert t[k] == t1[k];
      } else {
        assert t[k] == t2[k - |t1|];
        PathsOfGrow(t1, t2, k - |t1|);
      }
    }
  }

  /** Every visit after the first is of a path whose parent was visited earlier. */
  predicate PreOrder(t: seq<Visited>) {
    forall k :: 0 < k < |t| ==> Parent(t[k].path) in PathsOf(t[..k])
  }

  lemma PreOrderFromFirst(t: seq<Visited>, p: Path)
    requires |t| > 0 && t[0].path == p && ParentsFirst(t, p)
    ensures PreOrder(t)
  {
    forall k | 0 < k < |t| ensures Parent(t[k].path) in PathsOf(t[..k]) {
      assert t[..k][0] == t[0];
    }
  }

  /** The walk of `c`, a child of `p`, as part of the loop over `p`'s names. */
  lemma ParentsFirstChild(t: seq<Visited>, p: Path, c: Path)
    requires |c| > 0 && Parent(c) == p && |t| > 0 && t[0].path == c && PreOrder(t)
    ensures ParentsFirst(t, p)
  {
  }

  lemma PreOrderCons(v: Visited, t: seq<Visited>, p: Path)
    requires v.path == p && ParentsFirst(t, p)
    ensures PreOrder([v] + t)
  {
    var u := [v] + t;
    forall k | 0 < k < |u| ensures Parent(u[k].path) in PathsOf(u[..k]) {
      assert u[k] == t[k - 1];
      assert u[..k][0] == v;
      PathsOfGrow([v], t, k - 1);
    }
  }

  /** Pre-order: a directory is visited before anything below it. */
  lemma {:induction false} WalkAtPreOrder<S>(a: Archive, p: Path, info: Info, visit: Visitor<S>, s: S)
    requires p in a.inodes
    ensures var o := WalkAt(a, p, info, visit, s);
      |o.trace| >= 1 && o.trace[0].path == p && PreOrder(o.trace)
    decreases Deeper(a, p), 1
  {
    if IsDir(info) {
      var names := List(a, p);
      var lerr := if names.Err? then Some(names.error) else None;
      var (s1, r) := visit(s, p, info, lerr);
      if lerr.None? && r.None? {
        WalkNamesPreOrder(a, p, names.value, 0, visit, s1);
        var on := WalkNames(a, p, names.value, 0, visit, s1);
        PreOrderCons(Visited(p, info, lerr, r), on.trace, p);
      }
    }
  }

  lemma {:induction false} WalkNamesPreOrder<S>(a: Archive, p: Path, names: seq<string>, i: nat,
                                                visit: Visitor<S>, s: S)
    requires i <= |names|
    ensures ParentsFirst(WalkNames(a, p, names, i, visit, s).trace, p)
    decreases Deeper(a, p), 0, |names| - i
  {
    if i < |names| {
      var c := p + [names[i]];
      assert Parent(c) == p;
      match Lstat(a, c)
      case Err(e) =>
        var (s1, r) := visit(s, c, ZeroInfo, Some(e));
        var v := Visited(c, ZeroInfo, Some(e), r);
        if !Aborts(r) {
          WalkNamesPreOrder(a, p, names, i + 1, visit, s1);
          var o := WalkNames(a, p, names, i + 1, visit, s1);
          ParentsFirstAppend([v], o.trace, p);
        }
      case Ok(ci) =>
        DeeperShrinks(a, p, c);
        WalkAtPreOrder(a, c, ci, visit, s);
        var o := WalkAt(a, c, ci, visit, s);
        ParentsFirstChild(o.trace, p, c);
        if !(o.err.Some? && (!IsDir(ci) || o.err != Some(SkipDir))) {
          WalkNamesPreOrder(a, p, names, i + 1, visit, o.state);
          var o2 := WalkNames(a, p, names, i + 1, visit, o.state);
          ParentsFirstAppend(o.trace, o2.trace, p);
        }
    }
  }

  /** No directory lists the same name twice. */
  predicate DistinctNames(a: Archive) {
    forall p, x, y :: p in a.inodes && 0 <= x < y < |a.inodes[p].names|
      ==> a.inodes[p].names[x] != a.inodes[p].names[y]
  }

  /** The visit reported an error for this entry or returned non-nil. */
  predicate Stopped(v: Visited) { v.err.Some? || v.res.Some? }

  /** A non-directory whose visit returned `SkipDir`. */
  predicate FileSkip(v: Visited) { v.err.None? && !IsDir(v.info) && v.res == Some(SkipDir) }

  /** After a visit that stopped, nothing below it is visited; after a
      non-directory returned `SkipDir`, nothing more in its directory is. */
  predicate SkipSound(t: seq<Visited>) {
    && (forall i, j :: 0 <= i < j < |t| && Stopped(t[i]) ==> !(t[i].path < t[j].path))
    && (forall i, j :: 0 <= i < j < |t| && FileSkip(t[i]) ==> !(Parent(t[i].path) < t[j].path))
  }

  /** Visits of `t1` are never above or beside visits of `t2` in the way
      `SkipSound` forbids. */
  predicate Apart(t1: seq<Visited>, t2: seq<Visited>) {
    forall x, y :: 0 <= x < |t1| && 0 <= y < |t2| ==>
      (Stopped(t1[x]) ==> !(t1[x].path < t2[y].path))
      && (FileSkip(t1[x]) ==> !(Parent(t1[x].path) < t2[y].path))
  }

  lemma SkipSoundAppend(t1: seq<Visited>, t2: seq<Visited>)
    requires SkipSound(t1) && SkipSound(t2) && Apart(t1, t2)
    ensures SkipSound(t1 + t2)
  {
    var t := t1 + t2;
    forall i, j | 0 <= i < j < |t|
      ensures Stopped(t[i]) ==> !(t[i].path < t[j].path)
      ensures FileSkip(t[i]) ==> !(Parent(t[i].path) < t[j].path)
    {
      if j < |t1| {
        assert t[i] == t1[i] && t[j] == t1[j];
      } else if i >= |t1| {
        assert t[i] == t2[i - |t1|] && t[j] == t2[j - |t1|];
      } else {
        assert t[i] == t1[i] && t[j] == t2[j - |t1|];
      }
    }
  }

  /** The walk of child `c = p + [names[i]]` and the rest of the loop are
      apart when the names after `i` differ from `names[i]`, except that the
      first visit (of `c` itself) must not be a non-directory `SkipDir`. */
  lemma ChildApart(t1: seq<Visited>, t2: seq<Visited>, p: Path, names: seq<string>, i: nat)
    requires i < |names| && names[i] !in names[i + 1..]
    requires |t1| > 0 && t1[0].path == p + [names[i]] && !FileSkip(t1[0])
    requires Rooted(t1, p + [names[i]]) && InNames(t2, p, names, i + 1)
    requires forall k :: 0 < k < |t1| ==> p + [names[i]] < t1[k].path
    ensures Apart(t1, t2)
  {
    var c := p + [names[i]];
    forall x, y | 0 <= x < |t1| && 0 <= y < |t2|
      ensures Stopped(t1[x]) ==> !(t1[x].path < t2[y].path)
      ensures FileSkip(t1[x]) ==> !(Parent(t1[x].path) < t2[y].path)
    {
      var q, r := t1[x].path, t2[y].path;
      assert c <= q;
      assert r[|p|] in names[i + 1..];
      assert r[|p|] != names[i];
      assert q[|p|] == names[i];
      if FileSkip(t1[x]) {
        assert x > 0;
        var pq := Parent(q);
        assert c <= pq by { assert pq == q[..|q| - 1]; }
        assert pq[|p|] == names[i];
      }
    }
  }

  lemma DistinctAfter(a: Archive, p: Path, i: nat)
    requires DistinctNames(a) && p in a.inodes && i < |a.inodes[p].names|
    ensures a.inodes[p].names[i] !in a.inodes[p].names[i + 1..]
  {
  }

  lemma {:induction false} WalkAtSkipSound<S>(a: Archive, p: Path, info: Info, visit: Visitor<S>, s: S)
    requires p in a.inodes && DistinctNames(a)
    ensures var o := WalkAt(a, p, info, visit, s);
      && SkipSound(o.trace)
      && (!Aborts(o.err) && NoFileSkip(o.trace) ==> Closed(a, o.trace))
    decreases Deeper(a, p), 1
  {
    WalkAtCloses(a, p, info, visit, s);
    if IsDir(info) {
      var names := List(a, p);
      var lerr := if names.Err? then Some(names.error) else None;
      var (s1, r) := visit(s, p, info, lerr);
      if lerr.None? && r.None? {
        WalkNamesSkipSound(a, p, names.value, 0, visit, s1);
        var on := WalkNames(a, p, names.value, 0, visit, s1);
        var v := Visited(p, info, lerr, r);
        assert Apart([v], on.trace);
        SkipSoundAppend([v], on.trace);
      }
    }
  }

  lemma {:induction false} WalkNamesSkipSound<S>(a: Archive, p: Path, names: seq<string>, i: nat,
                                                 visit: Visitor<S>, s: S)
    requires p in a.inodes && names == a.inodes[p].names && i <= |names| && DistinctNames(a)
    ensures var o := WalkNames(a, p, names, i, visit, s);
      && SkipSound(o.trace)
      && (!Aborts(o.err) && NoFileSkip(o.trace) ==>
            o.err.None? && Closed(a, o.trace)
            && forall j :: i <= j < |names| ==> p + [names[j]] in PathsOf(o.trace))
    decreases Deeper(a, p), 0, |names| - i
  {
    WalkNamesCloses(a, p, names, i, visit, s);
    if i < |names| {
      var c := p + [names[i]];
      DistinctAfter(a, p, i);
      match Lstat(a, c)
      case Err(e) =>
        var (s1, r) := visit(s, c, ZeroInfo, Some(e));
        var v := Visited(c, ZeroInfo, Some(e), r);
        if !Aborts(r) {
          WalkNamesSkipSound(a, p, names, i + 1, visit, s1);
          WalkNamesShape(a, p, names, i + 1, visit, s1);
          var o := WalkNames(a, p, names, i + 1, visit, s1);
          ChildApart([v], o.trace, p, names, i);
          SkipSoundAppend([v], o.trace);
        }
      case Ok(ci) =>
        DeeperShrinks(a, p, c);
        WalkAtSkipSound(a, c, ci, visit, s);
        WalkAtShape(a, c, ci, visit, s);
        var o := WalkAt(a, c, ci, visit, s);
        if !(o.err.Some? && (!IsDir(ci) || o.err != Some(SkipDir))) {
          WalkNamesSkipSound(a, p, names, i + 1, visit, o.state);
          WalkNamesShape(a, p, names, i + 1, visit, o.state);
          var o2 := WalkNames(a, p, names, i + 1, visit, o.state);
          if !IsDir(ci) {
            NonDirVisitedOnce(a, c, ci, visit, s);
          }
          ChildApart(o.trace, o2.trace, p, names, i);
          SkipSoundAppend(o.trace, o2.trace);
        }
    }
  }

  /** `SkipDir` from a directory's visit skips that directory's contents;
      from a file's visit it skips the rest of the file's directory; an
      error reported for an entry is never followed by anything below it.
      And nothing else is skipped: when no visit aborted and no file
      returned `SkipDir`, every directory whose listing was read had all of
      its children visited (a directory's `SkipDir` leaves its siblings to
      be walked). */
  lemma WalkSkipSound<S>(a: Archive, root: Path, visit: Visitor<S>, s: S)
    requires DistinctNames(a)
    ensures var o := Walk(a, root, visit, s);
      && SkipSound(o.trace)
      && (o.err.None? && NoFileSkip(o.trace) ==> Closed(a, o.trace))
  {
    WalkResult(a, root, visit, s);
    if root in a.inodes {
      WalkAtSkipSound(a, root, GetFileInfo(root, a.inodes[root]), visit, s);
    }
  }
}
