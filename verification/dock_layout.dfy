/**
 * The dock panel's saved layout tree and `PerspectiveDockPanel.mapWidgets`
 * (workspace/dockpanel.js), plus the few layout edits of the docking toolkit
 * the workspace relies on (remove a widget, split-right insertion, the
 * single-document view), stated on the same tree.
 *
 * A JavaScript layout node is recognised by which of `main`, `children` and
 * `widgets` it carries; here that choice is the constructor, so a node is
 * exactly one of the three kinds.
 */
module DockLayout {
  import opened Wrappers
  import opened Seqs

  datatype Orientation = Horizontal | Vertical

  datatype Node<W> =
    | Root(main: Option<Node<W>>)                                        // {main: ...}, `main` may be null
    | SplitArea(orientation: Orientation, children: seq<Node<W>>, sizes: seq<real>)  // {type: "split-area", ...}
    | TabArea(widgets: seq<W>, currentIndex: int)                        // {type: "tab-area", ...}

  /** Relative weight the toolkit gives an area it creates (sizes are otherwise opaque). */
  const NewAreaSize: real := 1.0

  /** The leaf widgets of each child, in order. */
  function ChildLeaves<W>(cs: seq<Node<W>>): (r: seq<seq<W>>)
    ensures |r| == |cs|
    decreases cs, 0
  {
    seq(|cs|, i requires 0 <= i < |cs| => Leaves(cs[i]))
  }

  /** Every leaf widget of the tree, left to right (the toolkit's `widgets()` order). */
  function Leaves<W>(n: Node<W>): seq<W>
    decreases n, 1
  {
    match n
    case Root(None) => []
    case Root(Some(m)) => Leaves(m)
    case SplitArea(_, cs, _) => Flatten(ChildLeaves(cs))
    case TabArea(ws, _) => ws
  }

  /**
   * Two trees have the same shape: same kinds of node, same orientation,
   * sizes and current index, the same number of children at every split
   * and of widgets at every tab area. Only the leaves may differ.
   */
  predicate SameShape<A, B>(a: Node<A>, b: Node<B>)
    decreases a
  {
    match a
    case Root(m) =>
      b.Root? && (m.Some? <==> b.main.Some?) && (m.Some? ==> SameShape(m.value, b.main.value))
    case SplitArea(o, cs, s) =>
      b.SplitArea? && b.orientation == o && b.sizes == s && |b.children| == |cs| &&
      forall i :: 0 <= i < |cs| ==> SameShape(cs[i], b.children[i])
    case TabArea(ws, ci) =>
      b.TabArea? && |b.widgets| == |ws| && b.currentIndex == ci
  }

  /**
   * `PerspectiveDockPanel.mapWidgets(f, layout)`: rebuild the node with `main`
   * mapped, else every child mapped, else `f` applied to every widget; a root
   * whose `main` is null comes back unchanged.
   */
  function MapWidgets<W, V>(f: W -> V, n: Node<W>): (r: Node<V>)
    ensures SameShape(n, r)
    decreases n
  {
    match n
    case Root(None) => Root(None)
    case Root(Some(m)) => Root(Some(MapWidgets(f, m)))
    case SplitArea(o, cs, s) =>
      SplitArea(o, seq(|cs|, i requires 0 <= i < |cs| => MapWidgets(f, cs[i])), s)
    case TabArea(ws, ci) => TabArea(MapSeq(f, ws), ci)
  }

  /** `f` reaches every leaf exactly once, left to right, and nothing else. */
  lemma {:induction false} MapWidgetsLeaves<W, V>(f: W -> V, n: Node<W>)
    ensures Leaves(MapWidgets(f, n)) == MapSeq(f, Leaves(n))
    decreases n
  {
    match n
    case Root(None) =>
    case Root(Some(m)) => MapWidgetsLeaves(f, m);
    case SplitArea(o, cs, s) =>
      var r := MapWidgets(f, n);
      forall i | 0 <= i < |cs|
        ensures ChildLeaves(r.children)[i] == MapSeq(f, ChildLeaves(cs)[i])
      {
        MapWidgetsLeaves(f, cs[i]);
      }
      FlattenMap(f, ChildLeaves(cs), ChildLeaves(r.children));
    case TabArea(ws, ci) =>
  }

  /** Mapping with the identity leaves the tree equal. */
  lemma {:induction false} MapWidgetsIdentity<W>(n: Node<W>)
    ensures MapWidgets(x => x, n) == n
    decreases n
  {
    match n
    case Root(None) =>
    case Root(Some(m)) => MapWidgetsIdentity(m);
    case SplitArea(o, cs, s) =>
      var r := MapWidgets(x => x, n);
      forall i | 0 <= i < |cs| ensures r.children[i] == cs[i] {
        MapWidgetsIdentity(cs[i]);
      }
      assert r.children == cs;
    case TabArea(ws, ci) =>
      assert MapSeq(x => x, ws) == ws;
  }

  /** Mapping `f` and then `g` is mapping `g` after `f` once. */
  lemma {:induction false} MapWidgetsCompose<A, B, C>(f: A -> B, g: B -> C, n: Node<A>)
    ensures MapWidgets(g, MapWidgets(f, n)) == MapWidgets(x => g(f(x)), n)
    decreases n
  {
    match n
    case Root(None) =>
    case Root(Some(m)) => MapWidgetsCompose(f, g, m);
    case SplitArea(o, cs, s) =>
      var lhs := MapWidgets(g, MapWidgets(f, n));
      var rhs := MapWidgets(x => g(f(x)), n);
      forall i | 0 <= i < |cs| ensures lhs.children[i] == rhs.children[i] {
        MapWidgetsCompose(f, g, cs[i]);
      }
      assert lhs.children == rhs.children;
    case TabArea(ws, ci) =>
      assert MapSeq(g, MapSeq(f, ws)) == MapSeq(x => g(f(x)), ws);
  }

  /** A tree holding no widget at all (such as the empty dock `{main: null}`) is returned unchanged. */
  lemma {:induction false} MapWidgetsNoLeaves<W>(f: W -> W, n: Node<W>)
    requires Leaves(n) == []
    ensures MapWidgets(f, n) == n
    decreases n
  {
    match n
    case Root(None) =>
    case Root(Some(m)) => MapWidgetsNoLeaves(f, m);
    case SplitArea(o, cs, s) =>
      var r := MapWidgets(f, n);
      forall i | 0 <= i < |cs| ensures r.children[i] == cs[i] {
        FlattenEmpty(ChildLeaves(cs), i);
        MapWidgetsNoLeaves(f, cs[i]);
      }
      assert r.children == cs;
    case TabArea(ws, ci) =>
  }

  lemma {:induction false} FlattenEmpty<T>(xs: seq<seq<T>>, i: int)
    requires Flatten(xs) == [] && 0 <= i < |xs|
    ensures xs[i] == []
  {
    if i > 0 { FlattenEmpty(xs[1..], i - 1); }
  }

  /*********************************************************************
   * Toolkit layout edits used by the workspace
   */

  /** Detaching `w` from the dock (reparenting it elsewhere): it leaves every tab area. */
  function RemoveWidget<W(==)>(n: Node<W>, w: W): Node<W>
    decreases n
  {
    match n
    case Root(None) => n
    case Root(Some(m)) => Root(Some(RemoveWidget(m, w)))
    case SplitArea(o, cs, s) =>
      SplitArea(o, seq(|cs|, i requires 0 <= i < |cs| => RemoveWidget(cs[i], w)), s)
    case TabArea(ws, ci) => TabArea(Without(ws, w), ci)
  }

  lemma {:induction false} RemoveWidgetLeaves<W>(n: Node<W>, w: W)
    ensures Leaves(RemoveWidget(n, w)) == Without(Leaves(n), w)
    decreases n
  {
    match n
    case Root(None) =>
    case Root(Some(m)) => RemoveWidgetLeaves(m, w);
    case SplitArea(o, cs, s) =>
      var r := RemoveWidget(n, w);
      forall i | 0 <= i < |cs|
        ensures ChildLeaves(r.children)[i] == Without(ChildLeaves(cs)[i], w)
      {
        RemoveWidgetLeaves(cs[i], w);
      }
      FlattenWithout(ChildLeaves(cs), ChildLeaves(r.children), w);
    case TabArea(ws, ci) =>
  }

  /** The new right-hand area `{mode: "split-right"}` with no reference adds at the root. */
  function AppendRightOfMain<W>(main: Option<Node<W>>, w: W): (r: Node<W>)
  {
    match main
    case None => TabArea([w], 0)
    case Some(SplitArea(Horizontal, cs, s)) =>
      SplitArea(Horizontal, cs + [TabArea([w], 0)], s + [NewAreaSize])
    case Some(m) => SplitArea(Horizontal, [m, TabArea([w], 0)], [NewAreaSize, NewAreaSize])
  }

  /** `addWidget(w, {mode: "split-right"})`: a new tab area at the right edge of the dock. */
  function AppendRight<W>(n: Node<W>, w: W): Node<W>
  {
    match n
    case Root(m) => Root(Some(AppendRightOfMain(m, w)))
    case _ => Root(Some(AppendRightOfMain(Some(n), w)))
  }

  lemma AppendRightLeaves<W>(n: Node<W>, w: W)
    ensures Leaves(AppendRight(n, w)) == Leaves(n) + [w]
  {
    var main := if n.Root? then n.main else Some(n);
    assert Leaves(n) == if main.Some? then Leaves(main.value) else [];
    match main
    case None =>
      assert Flatten([[w]]) == [w];
    case Some(SplitArea(Horizontal, cs, s)) =>
      var cs' := cs + [TabArea([w], 0)];
      assert ChildLeaves(cs') == ChildLeaves(cs) + [[w]];
      FlattenAppend(ChildLeaves(cs), [[w]]);
    case Some(m) =>
      assert ChildLeaves([m, TabArea([w], 0)]) == [Leaves(m)] + [[w]];
      FlattenAppend([Leaves(m)], [[w]]);
  }

  /** Index of the first child holding `x` among its leaves, or -1. */
  function FirstHolding<W(==)>(cs: seq<Node<W>>, x: W): (k: int)
    ensures -1 <= k < |cs|
    ensures k == -1 <==> x !in Flatten(ChildLeaves(cs))
    ensures 0 <= k ==> x in Leaves(cs[k])
  {
    FlattenMember(ChildLeaves(cs), x);
    if cs == [] then -1
    else if x in Leaves(cs[0]) then 0
    else
      var k := FirstHolding(cs[1..], x);
      assert ChildLeaves(cs) == [Leaves(cs[0])] + ChildLeaves(cs[1..]);
      if k == -1 then -1 else k + 1
  }

  /** Sizes after the reference area at index `k` is split in two halves. */
  function HalveAt(s: seq<real>, k: int): seq<real>
  {
    if 0 <= k < |s| then s[..k] + [s[k] / 2.0, s[k] / 2.0] + s[k + 1..] else s
  }

  /**
   * `addWidget(w, {mode: "split-right", ref})` once `ref` is known to be in
   * the tree: the first tab area holding `ref` gets a new tab area holding
   * `w` on its right, as a sibling in a horizontal split, else in a new
   * horizontal split wrapping it.
   */
  function InsertRightOf<W(==)>(n: Node<W>, w: W, ref: W): Node<W>
    requires ref in Leaves(n)
    decreases n
  {
    match n
    case Root(Some(m)) => Root(Some(InsertRightOf(m, w, ref)))
    case TabArea(_, _) => SplitArea(Horizontal, [n, TabArea([w], 0)], [NewAreaSize, NewAreaSize])
    case SplitArea(o, cs, s) =>
      var k := FirstHolding(cs, ref);
      if o == Horizontal && cs[k].TabArea? then
        SplitArea(o, cs[..k + 1] + [TabArea([w], 0)] + cs[k + 1..], HalveAt(s, k))
      else
        SplitArea(o, cs[k := InsertRightOf(cs[k], w, ref)], s)
  }

  lemma {:induction false} FlattenAround<T>(ls: seq<seq<T>>, k: int)
    requires 0 <= k < |ls|
    ensures Flatten(ls) == Flatten(ls[..k]) + ls[k] + Flatten(ls[k + 1..])
  {
    var a, b, c := ls[..k], [ls[k]], ls[k + 1..];
    assert ls == a + b + c;
    FlattenAppend(a + b, c);
    FlattenAppend(a, b);
    assert b[1..] == [];
  }

  lemma ChildLeavesAppend<W>(a: seq<Node<W>>, b: seq<Node<W>>)
    ensures ChildLeaves(a + b) == ChildLeaves(a) + ChildLeaves(b)
  {
  }

  /** The sibling case: the new area goes right after the reference's tab area. */
  lemma {:induction false} InsertSiblingLeaves<W>(cs: seq<Node<W>>, k: int, w: W, ref: W) returns (p: seq<W>, q: seq<W>)
    requires 0 <= k < |cs| && ref in Leaves(cs[k])
    ensures Flatten(ChildLeaves(cs)) == p + q
    ensures Flatten(ChildLeaves(cs[..k + 1] + [TabArea([w], 0)] + cs[k + 1..])) == p + [w] + q
    ensures ref in p
  {
    var ls := ChildLeaves(cs);
    p, q := Flatten(ls[..k + 1]), Flatten(ls[k + 1..]);
    assert ls == ls[..k + 1] + ls[k + 1..];
    FlattenAppend(ls[..k + 1], ls[k + 1..]);
    ChildLeavesAppend(cs[..k + 1] + [TabArea([w], 0)], cs[k + 1..]);
    ChildLeavesAppend(cs[..k + 1], [TabArea([w], 0)]);
    assert ChildLeaves(cs[..k + 1]) == ls[..k + 1];
    assert ChildLeaves(cs[k + 1..]) == ls[k + 1..];
    assert ChildLeaves([TabArea([w], 0)]) == [[w]];
    FlattenAppend(ls[..k + 1] + [[w]], ls[k + 1..]);
    FlattenAppend(ls[..k + 1], [[w]]);
    assert Flatten([[w]]) == [w];
    FlattenAround(ls[..k + 1], k);
    assert ls[..k + 1][..k] == ls[..k];
  }

  /** The nested case: one child is rebuilt, the others keep their leaves. */
  lemma {:induction false} ReplaceChildLeaves<W>(cs: seq<Node<W>>, k: int, x: Node<W>)
    requires 0 <= k < |cs|
    ensures Flatten(ChildLeaves(cs)) == Flatten(ChildLeaves(cs[..k])) + Leaves(cs[k]) + Flatten(ChildLeaves(cs[k + 1..]))
    ensures Flatten(ChildLeaves(cs[k := x])) == Flatten(ChildLeaves(cs[..k])) + Leaves(x) + Flatten(ChildLeaves(cs[k + 1..]))
  {
    var ls := ChildLeaves(cs);
    FlattenAround(ls, k);
    assert ChildLeaves(cs[..k]) == ls[..k];
    assert ChildLeaves(cs[k + 1..]) == ls[k + 1..];
    var ls' := ChildLeaves(cs[k := x]);
    FlattenAround(ls', k);
    assert ls'[..k] == ls[..k];
    assert ls'[k + 1..] == ls[k + 1..];
  }

  /** `w` lands right after the leaves of some prefix that already holds `ref`; nothing else moves. */
  lemma {:induction false} InsertRightOfLeaves<W>(n: Node<W>, w: W, ref: W) returns (p: seq<W>, q: seq<W>)
    requires ref in Leaves(n)
    ensures Leaves(n) == p + q && ref in p
    ensures Leaves(InsertRightOf(n, w, ref)) == p + [w] + q
    decreases n
  {
    match n
    case Root(Some(m)) =>
      p, q := InsertRightOfLeaves(m, w, ref);
    case TabArea(ws, _) =>
      assert ChildLeaves([n, TabArea([w], 0)]) == [ws] + [[w]];
      FlattenAppend([ws], [[w]]);
      assert Flatten([ws]) == ws && Flatten([[w]]) == [w];
      p, q := ws, [];
    case SplitArea(o, cs, s) =>
      var k := FirstHolding(cs, ref);
      if o == Horizontal && cs[k].TabArea? {
        p, q := InsertSiblingLeaves(cs, k, w, ref);
      } else {
        var p0, q0 := InsertRightOfLeaves(cs[k], w, ref);
        p, q := InsertNestedLeaves(cs, k, InsertRightOf(cs[k], w, ref), w, p0, q0);
      }
  }

  /** The nested case, given what the recursive call established about the rebuilt child. */
  lemma {:induction false} InsertNestedLeaves<W>(cs: seq<Node<W>>, k: int, x: Node<W>, w: W, p0: seq<W>, q0: seq<W>)
    returns (p: seq<W>, q: seq<W>)
    requires 0 <= k < |cs|
    requires Leaves(cs[k]) == p0 + q0 && Leaves(x) == p0 + [w] + q0
    ensures Flatten(ChildLeaves(cs)) == p + q && Flatten(ChildLeaves(cs[k := x])) == p + [w] + q
    ensures forall y :: y in p0 ==> y in p
  {
    ReplaceChildLeaves(cs, k, x);
    p, q := Flatten(ChildLeaves(cs[..k])) + p0, q0 + Flatten(ChildLeaves(cs[k + 1..]));
  }

  /**
   * `dockpanel.addWidget(w, {mode: "split-right", ref})`; `None` is the
   * toolkit's error for a reference widget that is not in the layout.
   */
  function SplitRight<W(==)>(n: Node<W>, w: W, ref: Option<W>): Option<Node<W>>
  {
    match ref
    case None => Some(AppendRight(n, w))
    case Some(r) => if r in Leaves(n) then Some(InsertRightOf(n, w, r)) else None
  }

  /**
   * A successful split-right holds exactly the old widgets and `w`; without a
   * reference `w` becomes the last widget; a widget new to the dock keeps
   * the dock free of duplicates. It fails only for a reference outside the dock.
   */
  lemma SplitRightLeaves<W>(n: Node<W>, w: W, ref: Option<W>)
    ensures SplitRight(n, w, ref).None? <==> ref.Some? && ref.value !in Leaves(n)
    ensures SplitRight(n, w, ref).Some? ==>
      var ls := Leaves(SplitRight(n, w, ref).value);
      (forall x :: x in ls ==> x in Leaves(n) || x == w) && w in ls &&
      (forall x :: x in Leaves(n) ==> x in ls) &&
      (ref.None? ==> ls == Leaves(n) + [w]) &&
      (NoDup(Leaves(n)) && w !in Leaves(n) ==> NoDup(ls))
  {
    match ref
    case None =>
      AppendRightLeaves(n, w);
      if NoDup(Leaves(n)) && w !in Leaves(n) { NoDupInsert(Leaves(n), [], w); }
    case Some(r) =>
      if r in Leaves(n) {
        var p, q := InsertRightOfLeaves(n, w, r);
        if NoDup(Leaves(n)) && w !in Leaves(n) { NoDupInsert(p, q, w); }
      }
  }

  /**
   * The layout the toolkit shows in single-document mode: every widget in
   * one tab area, `w` the current one when it is there.
   */
  function SingleDocument<W(==)>(n: Node<W>, w: W): (r: Node<W>)
    ensures Leaves(r) == Leaves(n)
  {
    var ws := Leaves(n);
    if ws == [] then Root(None)
    else
      var k := IndexOf(ws, w);
      Root(Some(TabArea(ws, if k < 0 then 0 else k)))
  }

  /**
   * `addWidget(w)` while the dock shows one document: the toolkit ignores
   * the placement and inserts `w` into the one tab area right after the
   * current tab, which stays current. An empty dock gets a new tab area;
   * a dock of any other shape, which single-document mode does not
   * produce, gets `w` at its right edge.
   */
  function AddTab<W>(n: Node<W>, w: W): Node<W>
  {
    match n
    case Root(Some(TabArea(ws, ci))) => Root(Some(TabArea(InsertAt(ws, ci + 1, w), ci)))
    case _ => AppendRight(n, w)
  }

  /**
   * `w` is inserted and nothing else moves: the tabs up to the current one
   * come before it, the rest after it, and the current tab is unchanged.
   */
  lemma AddTabLeaves<W>(n: Node<W>, w: W) returns (p: seq<W>, q: seq<W>)
    ensures Leaves(n) == p + q && Leaves(AddTab(n, w)) == p + [w] + q
    ensures n.Root? && n.main.Some? && n.main.value.TabArea? ==>
              var ci := n.main.value.currentIndex;
              && |p| == (if ci + 1 < 0 then 0 else if ci + 1 > |Leaves(n)| then |Leaves(n)| else ci + 1)
              && AddTab(n, w).main.value.TabArea? && AddTab(n, w).main.value.currentIndex == ci
    ensures !(n.Root? && n.main.Some? && n.main.value.TabArea?) ==> q == []
  {
    match n
    case Root(Some(TabArea(ws, ci))) =>
      var j := if ci + 1 < 0 then 0 else if ci + 1 > |ws| then |ws| else ci + 1;
      p, q := ws[..j], ws[j..];
      assert ws == p + q;
    case _ =>
      AppendRightLeaves(n, w);
      p, q := Leaves(n), [];
  }

  /*********************************************************************
   * The same tree with other leaves
   */

  lemma ChildLeavesCons<W>(cs: seq<Node<W>>)
    requires cs != []
    ensures Flatten(ChildLeaves(cs)) == Leaves(cs[0]) + Flatten(ChildLeaves(cs[1..]))
  {
    assert ChildLeaves(cs)[1..] == ChildLeaves(cs[1..]);
  }

  /**
   * The tree `n` with its leaves replaced, left to right, by `ws`: how a
   * layout whose leaves were turned into something else one at a time is
   * put back together.
   */
  function Refill<A, B>(n: Node<A>, ws: seq<B>): (r: Node<B>)
    requires |ws| == |Leaves(n)|
    ensures Leaves(r) == ws
    decreases n, 1
  {
    match n
    case Root(None) => Root(None)
    case Root(Some(m)) => Root(Some(Refill(m, ws)))
    case SplitArea(o, cs, s) => SplitArea(o, RefillChildren(cs, ws), s)
    case TabArea(_, ci) => TabArea(ws, ci)
  }

  function RefillChildren<A, B>(cs: seq<Node<A>>, ws: seq<B>): (r: seq<Node<B>>)
    requires |ws| == |Flatten(ChildLeaves(cs))|
    ensures |r| == |cs|
    ensures Flatten(ChildLeaves(r)) == ws
    decreases cs, 0
  {
    if cs == [] then []
    else
      ChildLeavesCons(cs);
      var k := |Leaves(cs[0])|;
      var r := [Refill(cs[0], ws[..k])] + RefillChildren(cs[1..], ws[k..]);
      ChildLeavesCons(r);
      assert r[1..] == RefillChildren(cs[1..], ws[k..]);
      assert ws == ws[..k] + ws[k..];
      r
  }

  /** Refilling changes nothing but the leaves. */
  lemma {:induction false} RefillShape<A, B>(n: Node<A>, ws: seq<B>)
    requires |ws| == |Leaves(n)|
    ensures SameShape(n, Refill(n, ws))
    decreases n, 1
  {
    match n
    case Root(None) =>
    case Root(Some(m)) => RefillShape(m, ws);
    case SplitArea(o, cs, s) => RefillChildrenShape(cs, ws);
    case TabArea(_, _) =>
  }

  lemma {:induction false} RefillChildrenShape<A, B>(cs: seq<Node<A>>, ws: seq<B>)
    requires |ws| == |Flatten(ChildLeaves(cs))|
    ensures forall i :: 0 <= i < |cs| ==> SameShape(cs[i], RefillChildren(cs, ws)[i])
    decreases cs, 0
  {
    if cs != [] {
      ChildLeavesCons(cs);
      var k := |Leaves(cs[0])|;
      RefillShape(cs[0], ws[..k]);
      RefillChildrenShape(cs[1..], ws[k..]);
      var r := RefillChildren(cs, ws);
      assert r[0] == Refill(cs[0], ws[..k]);
      forall i | 1 <= i < |cs| ensures SameShape(cs[i], r[i]) {
        assert cs[i] == cs[1..][i - 1] && r[i] == RefillChildren(cs[1..], ws[k..])[i - 1];
      }
    }
  }

  /** A tree refilled with its own leaves is itself. */
  lemma {:induction false} RefillSelf<W>(n: Node<W>)
    ensures Refill(n, Leaves(n)) == n
    decreases n, 1
  {
    match n
    case Root(None) =>
    case Root(Some(m)) => RefillSelf(m);
    case SplitArea(o, cs, s) => RefillChildrenSelf(cs);
    case TabArea(_, _) =>
  }

  lemma {:induction false} RefillChildrenSelf<W>(cs: seq<Node<W>>)
    ensures RefillChildren(cs, Flatten(ChildLeaves(cs))) == cs
    decreases cs, 0
  {
    if cs != [] {
      ChildLeavesCons(cs);
      var ws := Flatten(ChildLeaves(cs));
      var k := |Leaves(cs[0])|;
      assert ws[..k] == Leaves(cs[0]) && ws[k..] == Flatten(ChildLeaves(cs[1..]));
      RefillSelf(cs[0]);
      RefillChildrenSelf(cs[1..]);
      assert [cs[0]] + cs[1..] == cs;
    }
  }

  /** Refilling twice is refilling once with the last leaves. */
  lemma {:induction false} RefillRefill<A, B, C>(n: Node<A>, xs: seq<B>, ys: seq<C>)
    requires |xs| == |Leaves(n)| && |ys| == |Leaves(n)|
    ensures Refill(Refill(n, xs), ys) == Refill(n, ys)
    decreases n, 1
  {
    match n
    case Root(None) =>
    case Root(Some(m)) => RefillRefill(m, xs, ys);
    case SplitArea(o, cs, s) => RefillChildrenRefill(cs, xs, ys);
    case TabArea(_, _) =>
  }

  lemma {:induction false} RefillChildrenRefill<A, B, C>(cs: seq<Node<A>>, xs: seq<B>, ys: seq<C>)
    requires |xs| == |Flatten(ChildLeaves(cs))| && |ys| == |Flatten(ChildLeaves(cs))|
    ensures RefillChildren(RefillChildren(cs, xs), ys) == RefillChildren(cs, ys)
    decreases cs, 0
  {
    if cs != [] {
      ChildLeavesCons(cs);
      var k := |Leaves(cs[0])|;
      var r := RefillChildren(cs, xs);
      assert r[0] == Refill(cs[0], xs[..k]) && r[1..] == RefillChildren(cs[1..], xs[k..]);
      assert |Leaves(r[0])| == k;
      RefillRefill(cs[0], xs[..k], ys[..k]);
      RefillChildrenRefill(cs[1..], xs[k..], ys[k..]);
    }
  }

  /** `mapWidgets(f, n)` is `n` refilled with `f` of each of its leaves, in order. */
  lemma {:induction false} MapWidgetsIsRefill<W, V>(f: W -> V, n: Node<W>)
    ensures MapWidgets(f, n) == Refill(n, MapSeq(f, Leaves(n)))
    decreases n, 1
  {
    match n
    case Root(None) =>
    case Root(Some(m)) => MapWidgetsIsRefill(f, m);
    case SplitArea(o, cs, s) => MapWidgetsChildrenIsRefill(f, cs);
    case TabArea(_, _) =>
  }

  lemma {:induction false} MapWidgetsChildrenIsRefill<W, V>(f: W -> V, cs: seq<Node<W>>)
    ensures seq(|cs|, i requires 0 <= i < |cs| => MapWidgets(f, cs[i])) ==
            RefillChildren(cs, MapSeq(f, Flatten(ChildLeaves(cs))))
    decreases cs, 0
  {
    if cs != [] {
      ChildLeavesCons(cs);
      var ws := MapSeq(f, Flatten(ChildLeaves(cs)));
      var k := |Leaves(cs[0])|;
      assert ws[..k] == MapSeq(f, Leaves(cs[0]));
      assert ws[k..] == MapSeq(f, Flatten(ChildLeaves(cs[1..])));
      MapWidgetsIsRefill(f, cs[0]);
      MapWidgetsChildrenIsRefill(f, cs[1..]);
      var lhs := seq(|cs|, i requires 0 <= i < |cs| => MapWidgets(f, cs[i]));
      var rest := seq(|cs| - 1, i requires 0 <= i < |cs| - 1 => MapWidgets(f, cs[1..][i]));
      assert lhs == [lhs[0]] + rest;
    }
  }
}
