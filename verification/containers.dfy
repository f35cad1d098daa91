/**
 * What the workspace (phosphor/workspace.js) does to its containers, as
 * values: which of the master panel and the dock's box panel are mounted in
 * the top-level split (and in what order and proportion), the master
 * panel's ordered widgets, the dock's layout tree, its document mode and
 * the one-slot snapshot of `toggleSingleDocument`.
 *
 * Generic in the widget type; the `Workspace` class is proved against these
 * functions.
 */
module Containers {
  import opened Wrappers
  import opened Seqs
  import opened DockLayout

  /** The two children the top-level split can hold. */
  datatype Container = MasterPanel | BoxPanel

  datatype DockMode = MultipleDocument | SingleDocument

  datatype Arrangement<W> = Arrangement(
    mounted: seq<Container>,       // the workspace split's children, in order
    sizes: seq<real>,              // their relative sizes
    master: seq<W>,                // masterpanel.widgets
    masterSizes: seq<real>,        // the master panel's sizes as last set by `restore`; not kept one per widget
    dock: Node<W>,                 // the dock panel's layout
    mode: DockMode,                // dockpanel.mode
    snapshot: Option<Node<W>>)     // single_document_prev_layout

  /** `DEFAULT_WORKSPACE_SIZE` */
  const DefaultSizes: seq<real> := [1.0, 3.0]

  /** The toolkit's `addWidget` on a split: the child moves to the end. */
  function AddChild(mounted: seq<Container>, c: Container): seq<Container>
  {
    Without(mounted, c) + [c]
  }

  /** `close()` on a mounted container takes it out of the split. */
  function CloseChild(mounted: seq<Container>, c: Container): seq<Container>
  {
    Without(mounted, c)
  }

  /**
   * `children.forEach(c => c.close())` over the split's live children from
   * index `i`: closing a child shifts the later ones down, so the one right
   * after it is skipped.
   */
  function CloseEach(mounted: seq<Container>, i: nat): seq<Container>
    decreases |mounted|
  {
    if i < |mounted| then
      WithoutShorter(mounted, mounted[i]);
      CloseEach(CloseChild(mounted, mounted[i]), i + 1)
    else mounted
  }

  /** The children of the split once the master panel is mounted on `side`. */
  function MasterLayout(side: string): seq<Container>
  {
    if side == "left" then [MasterPanel, BoxPanel] else [BoxPanel, MasterPanel]
  }

  /** `setupMasterPanel(sizes)` */
  function SetupMasterPanel<W>(a: Arrangement<W>, side: string, sizes: seq<real>): (r: Arrangement<W>)
    ensures r.master == a.master && r.dock == a.dock && r.mode == a.mode && r.snapshot == a.snapshot
  {
    var order := if side == "left" then (MasterPanel, BoxPanel) else (BoxPanel, MasterPanel);
    a.(mounted := AddChild(AddChild(a.mounted, order.0), order.1),
       sizes := if side == "left" then sizes else Reverse(sizes))
  }

  /** The box panel mounted alone; the toolkit then gives it the whole split. */
  function DockAlone<W>(a: Arrangement<W>): Arrangement<W>
  {
    a.(mounted := AddChild(a.mounted, BoxPanel), sizes := [1.0])
  }

  /** `makeMaster(w)` on the containers */
  function MakeMaster<W(==)>(a: Arrangement<W>, w: W, side: string): Arrangement<W>
  {
    var a1 := if |a.master| == 0
              then SetupMasterPanel(a.(mounted := CloseChild(a.mounted, BoxPanel)), side, DefaultSizes)
              else a;
    a1.(master := Without(a1.master, w) + [w], dock := RemoveWidget(a1.dock, w))
  }

  /** `makeDetail(w)` on the containers; a dock showing one document takes `w` as a tab. */
  function MakeDetail<W(==)>(a: Arrangement<W>, w: W): Arrangement<W>
  {
    var rest := RemoveWidget(a.dock, w);
    var a1 := a.(master := Without(a.master, w),
                 dock := if a.mode == SingleDocument then AddTab(rest, w) else AppendRight(rest, w));
    if |a1.master| == 0
    then DockAlone(a1.(mounted := CloseChild(CloseChild(a1.mounted, BoxPanel), MasterPanel)))
    else a1
  }

  /** `toggleSingleDocument(w)` on the dock: snapshot and maximise, or put the snapshot back. */
  function ToggleSingleDocument<W(==)>(a: Arrangement<W>, w: W): Arrangement<W>
  {
    if a.mode != SingleDocument then
      a.(snapshot := Some(a.dock), mode := SingleDocument, dock := DockLayout.SingleDocument(a.dock, w))
    else
      a.(mode := MultipleDocument, dock := if a.snapshot.Some? then a.snapshot.value else a.dock)
  }

  /** `toggleMasterDetail(w)`: promote a dock widget (leaving single-document mode first), demote any other. */
  function ToggleMasterDetail<W(==)>(a: Arrangement<W>, w: W, side: string): Arrangement<W>
  {
    if w in Leaves(a.dock) then
      var a1 := if a.mode == SingleDocument then ToggleSingleDocument(a, w) else a;
      MakeMaster(a1, w, side)
    else
      MakeDetail(a, w)
  }

  /**
   * Where `duplicate(w)` puts the copy: right after `w` in the master list
   * when `w` is flagged master, else split-right of `w` in the dock
   * (unplaced when the dock refuses `w` as a reference).
   */
  function PlaceCopy<W(==)>(a: Arrangement<W>, w: W, wIsMaster: bool, copy: W): Arrangement<W>
  {
    if wIsMaster then
      a.(master := InsertAt(a.master, IndexOf(a.master, w) + 1, copy))
    else
      match SplitRight(a.dock, copy, Some(w))
      case Some(d) => a.(dock := d)
      case None => a
  }

  /** `duplicate(w)` on the containers: leave single-document mode, then place the copy. */
  function Duplicate<W(==)>(a: Arrangement<W>, w: W, wIsMaster: bool, copy: W): Arrangement<W>
  {
    var a1 := if a.mode == SingleDocument then ToggleSingleDocument(a, w) else a;
    PlaceCopy(a1, w, wIsMaster, copy)
  }

  /**
   * The first half of `restore(layout)` on the containers: `clearLayout`
   * closes the two containers (not the widgets in them), then the master
   * panel is mounted beside the dock when the layout brings master widgets,
   * else the dock alone.
   */
  function Remount<W>(a: Arrangement<W>, side: string, sizes: Option<seq<real>>, withMaster: bool): (r: Arrangement<W>)
    ensures r.(mounted := a.mounted, sizes := a.sizes) == a
    ensures withMaster ==> |r.mounted| == 2 && MasterPanel in r.mounted && BoxPanel in r.mounted
    ensures !withMaster ==> r.mounted == [BoxPanel]
  {
    var cleared := a.(mounted := []);
    if withMaster then SetupMasterPanel(cleared, side, if sizes.Some? then sizes.value else DefaultSizes)
    else DockAlone(cleared)
  }

  /** The master half of `restore`: the new widgets appended to the master panel, then its sizes when given. */
  function AppendMaster<W>(a: Arrangement<W>, newMaster: seq<W>, masterSizes: Option<seq<real>>): Arrangement<W>
  {
    a.(master := a.master + newMaster,
       masterSizes := if masterSizes.Some? then masterSizes.value else a.masterSizes)
  }

  /** The dock panel's `restoreLayout`: the dock takes the tree and is back in multiple-document mode. */
  function RestoreLayout<W>(a: Arrangement<W>, detail: Node<W>): Arrangement<W>
  {
    a.(dock := detail, mode := MultipleDocument)
  }

  /**
   * `restore(layout)` on the containers, with the widgets it created: the
   * containers are remounted, the new master widgets are appended to the
   * master panel, and the dock takes the materialised detail tree.
   */
  function Restore<W>(a: Arrangement<W>, side: string, sizes: Option<seq<real>>,
                      newMaster: seq<W>, masterSizes: Option<seq<real>>, detail: Node<W>): Arrangement<W>
  {
    RestoreLayout(AppendMaster(Remount(a, side, sizes, |newMaster| > 0), newMaster, masterSizes), detail)
  }

  /*********************************************************************
   * Invariants
   */

  /** The master panel is mounted, beside the dock on the configured side, iff it holds a widget. */
  predicate WellMounted<W>(a: Arrangement<W>, side: string)
  {
    if |a.master| > 0 then a.mounted == MasterLayout(side) else a.mounted == [BoxPanel]
  }

  /**
   * No widget is in both containers, or twice in one; in single-document
   * mode the snapshot to return to shares no widget with the master panel.
   */
  predicate Exclusive<W(==)>(a: Arrangement<W>)
  {
    && NoDup(a.master)
    && NoDup(Leaves(a.dock))
    && (forall w :: w in a.master ==> w !in Leaves(a.dock))
    && (a.mode == SingleDocument ==> a.snapshot.Some? && NoDup(Leaves(a.snapshot.value)) &&
                                     forall w :: w in a.master ==> w !in Leaves(a.snapshot.value))
  }

  /*********************************************************************
   * Properties
   */

  /** Closing both containers empties the split, whatever it held. */
  lemma {:induction false} CloseBoth(m: seq<Container>, c: Container, d: Container)
    requires c != d
    ensures Without(Without(m, c), d) == []
    decreases m
  {
    if m != [] {
      CloseBoth(m[1..], c, d);
      if m[0] != c {
        assert m[0] == d;
        var x := Without(m[1..], c);
        assert Without(m, c) == [d] + x;
        assert ([d] + x)[1..] == x;
      }
    }
  }

  /** Whatever was mounted before, `setupMasterPanel` leaves exactly the two containers, ordered by side. */
  lemma SetupMasterPanelMounts<W>(a: Arrangement<W>, side: string, sizes: seq<real>)
    ensures SetupMasterPanel(a, side, sizes).mounted == MasterLayout(side)
    ensures SetupMasterPanel(a, side, sizes).sizes == if side == "left" then sizes else Reverse(sizes)
  {
    var x, y := if side == "left" then MasterPanel else BoxPanel, if side == "left" then BoxPanel else MasterPanel;
    WithoutAppend(Without(a.mounted, x), [x], y);
    CloseBoth(a.mounted, x, y);
    assert Without([x], y) == [x];
    assert AddChild(AddChild(a.mounted, x), y) == [] + [x] + [y];
  }

  /**
   * `makeMaster(w)`: `w` moves to the end of the master list, the other
   * master widgets keeping their order, and leaves the dock; the document
   * mode and the snapshot are untouched; an empty master panel is first
   * mounted beside the dock at 1:3 on the configured side (3:1 on the
   * right); a non-empty one stays as it is.
   */
  lemma MakeMasterSpec<W>(a: Arrangement<W>, w: W, side: string)
    ensures var r := MakeMaster(a, w, side);
      && |r.master| > 0 && r.master[|r.master| - 1] == w && w !in Leaves(r.dock)
      && r.master == Without(a.master, w) + [w]
      && (forall x :: x in r.master ==> x in a.master || x == w)
      && Leaves(r.dock) == Without(Leaves(a.dock), w)
      && r.mode == a.mode && r.snapshot == a.snapshot
      && (|a.master| == 0 ==> r.mounted == MasterLayout(side) &&
                               r.sizes == if side == "left" then [1.0, 3.0] else [3.0, 1.0])
      && (|a.master| > 0 ==> r.mounted == a.mounted && r.sizes == a.sizes)
  {
    RemoveWidgetLeaves(a.dock, w);
    if |a.master| == 0 {
      SetupMasterPanelMounts(a.(mounted := CloseChild(a.mounted, BoxPanel)), side, DefaultSizes);
    }
  }

  /**
   * `makeMaster(w)` keeps the mounting invariant, and keeps the containers
   * exclusive unless the dock shows one document whose snapshot holds `w`.
   */
  lemma MakeMasterPreserves<W>(a: Arrangement<W>, w: W, side: string)
    ensures var r := MakeMaster(a, w, side);
      && (WellMounted(a, side) ==> WellMounted(r, side))
      && (Exclusive(a) && (a.mode == SingleDocument ==> w !in Leaves(a.snapshot.value)) ==> Exclusive(r))
  {
    var r := MakeMaster(a, w, side);
    MakeMasterSpec(a, w, side);
    if Exclusive(a) {
      WithoutNoDup(a.master, w);
      NoDupInsert(Without(a.master, w), [], w);
      assert Without(a.master, w) + [w] + [] == r.master;
      WithoutNoDup(Leaves(a.dock), w);
    }
  }

  /**
   * `makeDetail(w)`: `w` leaves the master panel and joins the dock, every
   * other dock widget keeping its order: as the last widget in
   * multiple-document mode, right after the current tab when the dock shows
   * one document. When the master panel empties, the dock is mounted alone.
   */
  lemma MakeDetailSpec<W>(a: Arrangement<W>, w: W, side: string)
    ensures var r := MakeDetail(a, w);
      && r.master == Without(a.master, w)
      && (exists p, q :: Without(Leaves(a.dock), w) == p + q && Leaves(r.dock) == p + [w] + q)
      && (a.mode == MultipleDocument ==> Leaves(r.dock) == Without(Leaves(a.dock), w) + [w])
      && (|r.master| == 0 ==> r.mounted == [BoxPanel] && r.sizes == [1.0])
      && (|r.master| > 0 ==> r.mounted == a.mounted && r.sizes == a.sizes)
  {
    var r := MakeDetail(a, w);
    var p, q := DockAfterDetail(a, w);
    if |r.master| == 0 {
      CloseBoth(a.mounted, BoxPanel, MasterPanel);
    }
  }

  /** Where `makeDetail` puts `w` in the dock, as the two runs of widgets around it. */
  lemma DockAfterDetail<W>(a: Arrangement<W>, w: W) returns (p: seq<W>, q: seq<W>)
    ensures Without(Leaves(a.dock), w) == p + q && Leaves(MakeDetail(a, w).dock) == p + [w] + q
    ensures a.mode == MultipleDocument ==> q == []
  {
    var rest := RemoveWidget(a.dock, w);
    RemoveWidgetLeaves(a.dock, w);
    if a.mode == SingleDocument {
      p, q := AddTabLeaves(rest, w);
    } else {
      AppendRightLeaves(rest, w);
      p, q := Leaves(rest), [];
    }
  }

  /** `makeDetail(w)` keeps the mounting invariant and the containers exclusive. */
  lemma MakeDetailPreserves<W>(a: Arrangement<W>, w: W, side: string)
    ensures var r := MakeDetail(a, w);
      && (WellMounted(a, side) ==> WellMounted(r, side))
      && (Exclusive(a) ==> Exclusive(r))
  {
    var r := MakeDetail(a, w);
    MakeDetailSpec(a, w, side);
    if Exclusive(a) {
      var p, q := DockAfterDetail(a, w);
      WithoutNoDup(a.master, w);
      WithoutNoDup(Leaves(a.dock), w);
      NoDupInsert(p, q, w);
    }
  }

  /**
   * Entering single-document mode from multiple-document mode and leaving it
   * again gives back the dock exactly as it was, with the snapshot slot
   * holding that layout.
   */
  lemma SingleDocumentRoundTrip<W>(a: Arrangement<W>, w: W, w': W)
    requires a.mode == MultipleDocument
    ensures ToggleSingleDocument(ToggleSingleDocument(a, w), w') == a.(snapshot := Some(a.dock))
  {
  }

  /**
   * Entering overwrites the one snapshot slot with the current dock and
   * shows the same widgets; either direction keeps the containers exclusive
   * and the mounting untouched.
   */
  lemma ToggleSingleDocumentSpec<W>(a: Arrangement<W>, w: W, side: string)
    ensures var r := ToggleSingleDocument(a, w);
      && (a.mode == MultipleDocument ==>
            r.mode == SingleDocument && r.snapshot == Some(a.dock) && Leaves(r.dock) == Leaves(a.dock))
      && (a.mode == SingleDocument && a.snapshot.Some? ==>
            r.mode == MultipleDocument && r.dock == a.snapshot.value)
      && r.master == a.master && r.mounted == a.mounted
      && (WellMounted(a, side) ==> WellMounted(r, side))
      && (Exclusive(a) ==> Exclusive(r))
  {
  }

  /**
   * `toggleMasterDetail(w)`: a dock widget ends as the last master widget,
   * any other widget joins the dock (as its last widget in
   * multiple-document mode); exclusivity and the mounting invariant survive
   * both.
   */
  lemma ToggleMasterDetailSpec<W>(a: Arrangement<W>, w: W, side: string)
    ensures var r := ToggleMasterDetail(a, w, side);
      && (w in Leaves(a.dock) ==> r.master[|r.master| - 1] == w && w !in Leaves(r.dock) &&
                                  r.mode == MultipleDocument)
      && (w !in Leaves(a.dock) ==>
            && r.master == Without(a.master, w)
            && (exists p, q :: Leaves(a.dock) == p + q && Leaves(r.dock) == p + [w] + q)
            && (a.mode == MultipleDocument ==> Leaves(r.dock) == Leaves(a.dock) + [w]))
      && (WellMounted(a, side) ==> WellMounted(r, side))
      && (Exclusive(a) ==> Exclusive(r))
  {
    if w in Leaves(a.dock) {
      var a1 := if a.mode == SingleDocument then ToggleSingleDocument(a, w) else a;
      ToggleSingleDocumentSpec(a, w, side);
      MakeMasterSpec(a1, w, side);
      MakeMasterPreserves(a1, w, side);
    } else {
      var p, q := DockAfterDetail(a, w);
      MakeDetailSpec(a, w, side);
      MakeDetailPreserves(a, w, side);
    }
  }

  /**
   * Where `duplicate(w)` puts the copy: the dock is back in multiple-document
   * mode; a master `w` gets the copy right after it in the master list;
   * otherwise the copy joins the dock split-right of `w`, and stays unplaced
   * only when `w` is not in the dock.
   */
  lemma DuplicatePlacement<W>(a: Arrangement<W>, w: W, wIsMaster: bool, copy: W)
    ensures var r := Duplicate(a, w, wIsMaster, copy);
      var a1 := if a.mode == SingleDocument then ToggleSingleDocument(a, w) else a;
      && r.mode == MultipleDocument && r.mounted == a.mounted
      && (wIsMaster && w in a.master ==>
            var i := IndexOf(a.master, w);
            r.master == a.master[..i + 1] + [copy] + a.master[i + 1..] && r.dock == a1.dock)
      && (wIsMaster && w !in a.master ==> r.master == [copy] + a.master)
      && (!wIsMaster ==> r.master == a.master)
      && (!wIsMaster && w in Leaves(a1.dock) ==>
            exists p, q :: Leaves(a1.dock) == p + q && w in p && Leaves(r.dock) == p + [copy] + q)
      && (!wIsMaster && w !in Leaves(a1.dock) ==> r.dock == a1.dock)
  {
    var a1 := if a.mode == SingleDocument then ToggleSingleDocument(a, w) else a;
    if !wIsMaster && w in Leaves(a1.dock) {
      var p, q := InsertRightOfLeaves(a1.dock, copy, w);
    }
  }

  /**
   * In multiple-document mode, placing a copy new to the workspace keeps
   * the containers exclusive, and keeps the mounting invariant unless it
   * adds the first master widget without mounting the master panel.
   */
  lemma PlaceCopyPreserves<W>(a: Arrangement<W>, w: W, wIsMaster: bool, copy: W, side: string)
    requires a.mode == MultipleDocument
    requires copy !in a.master && copy !in Leaves(a.dock)
    ensures var r := PlaceCopy(a, w, wIsMaster, copy);
      && (WellMounted(a, side) && (wIsMaster ==> |a.master| > 0) ==> WellMounted(r, side))
      && (Exclusive(a) ==> Exclusive(r))
  {
    if wIsMaster {
      var i := IndexOf(a.master, w);
      if Exclusive(a) {
        var j := if i + 1 < 0 then 0 else if i + 1 > |a.master| then |a.master| else i + 1;
        NoDupInsert(a.master[..j], a.master[j..], copy);
        assert a.master[..j] + a.master[j..] == a.master;
      }
    } else {
      SplitRightLeaves(a.dock, copy, Some(w));
    }
  }

  /**
   * With a copy new to the workspace, `duplicate` keeps the containers
   * exclusive, and keeps the mounting invariant unless it adds the first
   * master widget without mounting the master panel.
   */
  lemma DuplicatePreserves<W>(a: Arrangement<W>, w: W, wIsMaster: bool, copy: W, side: string)
    requires copy !in a.master
    requires copy !in Leaves(if a.mode == SingleDocument && a.snapshot.Some? then a.snapshot.value else a.dock)
    ensures var r := Duplicate(a, w, wIsMaster, copy);
      && (WellMounted(a, side) && (wIsMaster ==> |a.master| > 0) ==> WellMounted(r, side))
      && (Exclusive(a) ==> Exclusive(r))
  {
    var a1 := if a.mode == SingleDocument then ToggleSingleDocument(a, w) else a;
    ToggleSingleDocumentSpec(a, w, side);
    PlaceCopyPreserves(a1, w, wIsMaster, copy, side);
  }

  /**
   * `restore`: the earlier master widgets stay in the master panel ahead of
   * the new ones, and the master panel is mounted iff the layout brings
   * master widgets, so the mounting invariant holds afterwards exactly
   * when the master panel was empty or the layout has master widgets.
   */
  lemma RestoreSpec<W>(a: Arrangement<W>, side: string, sizes: Option<seq<real>>,
                       newMaster: seq<W>, masterSizes: Option<seq<real>>, detail: Node<W>)
    requires forall x :: x in newMaster ==> x !in a.master && x !in Leaves(detail)
    requires forall x :: x in Leaves(detail) ==> x !in a.master
    requires a.mode == SingleDocument && a.snapshot.Some? ==>
               forall x :: x in newMaster ==> x !in Leaves(a.snapshot.value)
    requires NoDup(newMaster) && NoDup(Leaves(detail))
    ensures var r := Restore(a, side, sizes, newMaster, masterSizes, detail);
      && r.master == a.master + newMaster && r.dock == detail && r.mode == MultipleDocument
      && (MasterPanel in r.mounted <==> |newMaster| > 0)
      && (|newMaster| > 0 ==>
            r.sizes == var s := if sizes.Some? then sizes.value else DefaultSizes;
                       if side == "left" then s else Reverse(s))
      && (WellMounted(r, side) <==> |a.master| == 0 || |newMaster| > 0)
      && (Exclusive(a) ==> Exclusive(r))
  {
    var r := Restore(a, side, sizes, newMaster, masterSizes, detail);
    var cleared := a.(mounted := []);
    if |newMaster| > 0 {
      SetupMasterPanelMounts(cleared, side, if sizes.Some? then sizes.value else DefaultSizes);
    } else {
      assert r.mounted == [BoxPanel];
    }
    assert |r.master| == |a.master| + |newMaster|;
    assert |MasterLayout(side)| == 2;
    if Exclusive(a) {
      NoDupConcat(a.master, newMaster);
    }
  }

  /** A concrete case of the above: restoring a layout without master widgets hides, but keeps, earlier ones. */
  lemma RestoreKeepsEarlierMasters<W>(a: Arrangement<W>, side: string, detail: Node<W>)
    requires |a.master| > 0
    ensures var r := Restore(a, side, None, [], None, detail);
      r.master == a.master && MasterPanel !in r.mounted && !WellMounted(r, side)
  {
    var r := Restore(a, side, None, [], None, detail);
    assert r.mounted == [BoxPanel];
    assert a.master + [] == a.master;
  }

  /** With both containers mounted, the loop of `clearLayout` closes the first and skips the second. */
  lemma CloseEachSkipsSecond(x: Container, y: Container)
    requires x != y
    ensures CloseEach([x, y], 0) == [y]
  {
  }

  /**
   * The split's sizes master first, the order `restore` reads them in.
   * `save()` as written stores them in display order instead, which is the
   * same only on the left side.
   */
  function SavedSizes<W>(a: Arrangement<W>, side: string): seq<real>
  {
    if side == "left" then a.sizes else Reverse(a.sizes)
  }

  /**
   * Sizes saved master first come back from `restore` as given, so
   * restoring them again shows the same proportions, on either side.
   */
  lemma SavedSizesRoundTrip<W>(a: Arrangement<W>, b: Arrangement<W>, side: string, s: seq<real>,
                               m: seq<W>, m': seq<W>, ms: Option<seq<real>>, ms': Option<seq<real>>,
                               d: Node<W>, d': Node<W>)
    requires |m| > 0 && |m'| > 0
    ensures var r := Restore(a, side, Some(s), m, ms, d);
      && SavedSizes(r, side) == s
      && Restore(b, side, Some(SavedSizes(r, side)), m', ms', d').sizes == r.sizes
  {
  }

  /**
   * As written, with the master panel on the right, restoring the sizes
   * `save()` read swaps the two proportions: a 3:1 dock and master come
   * back as 1:3.
   */
  lemma RightSideSizesFlip<W>(a: Arrangement<W>, b: Arrangement<W>, m: seq<W>, m': seq<W>,
                              ms: Option<seq<real>>, ms': Option<seq<real>>, d: Node<W>, d': Node<W>)
    requires |m| > 0 && |m'| > 0
    ensures var r := Restore(a, "right", Some([1.0, 3.0]), m, ms, d);
      && r.sizes == [3.0, 1.0]
      && Restore(b, "right", Some(r.sizes), m', ms', d').sizes == [1.0, 3.0]
  {
  }

  /**
   * Demoting a master widget while the dock shows one document, then
   * leaving that mode, loses the widget: the snapshot put back predates it,
   * so it is in neither container.
   */
  lemma DetailWhileMaximisedIsDropped<W>(a: Arrangement<W>, w: W, v: W)
    requires a.mode == SingleDocument && a.snapshot.Some? && w !in Leaves(a.snapshot.value)
    ensures var r := ToggleSingleDocument(MakeDetail(a, w), v);
      w !in r.master && w !in Leaves(r.dock)
  {
    var b := MakeDetail(a, w);
    assert b.mode == SingleDocument && b.snapshot == a.snapshot;
  }
}
