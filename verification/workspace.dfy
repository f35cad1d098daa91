/**
 * `PerspectiveWorkspace` (phosphor/workspace.js): the table registry, the
 * master panel and the dock panel side by side in one horizontal split,
 * the per-widget listener registry, and the operations that move widgets
 * between the two containers, maximise the dock, propagate a master's
 * click as filters to every detail widget, and save and restore the whole
 * layout.
 *
 * The containers are kept as fields of the class and every operation is
 * proved to change them exactly as the matching function of module
 * `Containers` does; what those functions keep invariant is proved there.
 */
module Workspace {
  import opened Wrappers
  import opened Seqs
  import opened Config
  import opened Filters
  import opened DockLayout
  import opened Viewer
  import opened Containers

  /*********************************************************************
   * Table registry
   */

  /** `tables.get(name)`: absent for a name never registered. */
  function Lookup(tables: map<Value, Table>, name: Value): (r: Option<Table>)
  {
    if name in tables then Some(tables[name]) else None
  }

  /** After `tables.set(n, t)`, `n` gives `t` (the last write wins) and every other name what it gave before. */
  lemma LookupAfterSet(tables: map<Value, Table>, n: Value, t: Table, other: Value)
    ensures Lookup(tables[n := t], n) == Some(t)
    ensures other != n ==> Lookup(tables[n := t], other) == Lookup(tables, other)
    ensures Lookup(map[], other) == None
  {
  }

  /*********************************************************************
   * Listener registry, per widget
   */

  /** What `addWidgetEventListeners` leaves: whether a teardown is tracked, and the two listener counts. */
  datatype Listeners = Listeners(tracked: bool, contextMenu: nat, settings: nat)

  /** One call: a tracked teardown removes one listener of each kind, then one of each is added and tracked. */
  function Register(l: Listeners): (r: Listeners)
    ensures r.tracked
    ensures l.tracked && l.contextMenu > 0 ==> r.contextMenu == l.contextMenu
    ensures l.tracked && l.settings > 0 ==> r.settings == l.settings
    ensures !l.tracked ==> r.contextMenu == l.contextMenu + 1 && r.settings == l.settings + 1
  {
    Listeners(true,
              (if l.tracked && l.contextMenu > 0 then l.contextMenu - 1 else l.contextMenu) + 1,
              (if l.tracked && l.settings > 0 then l.settings - 1 else l.settings) + 1)
  }

  function RegisterTimes(l: Listeners, k: nat): Listeners
    decreases k
  {
    if k == 0 then l else Register(RegisterTimes(l, k - 1))
  }

  /** A widget fresh from the constructor, or one registered before: exactly one of each, tracked. */
  predicate Consistent(l: Listeners)
  {
    if l.tracked then l.contextMenu == 1 && l.settings == 1 else l.contextMenu == 0 && l.settings == 0
  }

  /** However many times a widget is registered, it ends with one listener of each kind and one teardown. */
  lemma {:induction false} RegisterTimesLeavesOne(l: Listeners, k: nat)
    requires Consistent(l) && k >= 1
    ensures RegisterTimes(l, k) == Listeners(true, 1, 1)
    decreases k
  {
    if k > 1 {
      RegisterTimesLeavesOne(l, k - 1);
    }
  }

  /*********************************************************************
   * Layout documents
   */

  /** `layout.master`: saved widget configurations and the panel's sizes. */
  datatype MasterLayoutConfig = MasterLayoutConfig(widgets: seq<Config>, sizes: Option<seq<real>>)

  /** What `save` returns and `restore` accepts; a missing field is `None`. */
  datatype Layout = Layout(sizes: Option<seq<real>>, master: Option<MasterLayoutConfig>, detail: Node<Config>)

  /** `{master: true, ...config}`: `true` only when the configuration has no `master` of its own. */
  function WithMasterDefault(config: Config): (r: Config)
    ensures MasterOf(r) == if "master" in config then config["master"] else Bool(true)
    ensures ViewerPart(r) == ViewerPart(config)
  {
    if "master" in config then config else config["master" := Bool(true)]
  }

  /** `WithMasterDefault` on each configuration of the master panel's list; the list itself when each has its flag. */
  function WithMasterDefaults(configs: seq<Config>): (r: seq<Config>)
    ensures |r| == |configs|
    ensures (forall i :: 0 <= i < |configs| ==> "master" in configs[i]) ==> r == configs
  {
    seq(|configs|, i requires 0 <= i < |configs| => WithMasterDefault(configs[i]))
  }

  /** A saved configuration restored into the master panel keeps the flag it was saved with, whatever it is. */
  lemma SavedMasterFlagWins(settings: Config, master: Value)
    ensures MasterOf(WithMasterDefault(Saved(settings, master))) == master
    ensures ViewerPart(WithMasterDefault(Saved(settings, master))) == ViewerPart(settings)
  {
    ViewerPartOfSaved(settings, master);
  }

  /** What `save()` returns for each widget, in order. */
  function SavedConfigs(ws: seq<ViewerWidget>): (r: seq<Config>)
    reads set w | w in ws
    ensures |r| == |ws|
    ensures forall i :: 0 <= i < |ws| ==> MasterOf(r[i]) == ws[i].Master()
    ensures forall i :: 0 <= i < |ws| ==> ViewerPart(r[i]) == ViewerPart(ws[i].settings)
  {
    seq(|ws|, i reads set w | w in ws requires 0 <= i < |ws| => Saved(ws[i].settings, ws[i].masterValue))
  }

  /** Every widget a layout tree holds exists already: a widget created later is in none of today's trees. */
  lemma {:induction false} LeavesAllocated(n: Node<ViewerWidget>)
    ensures forall x :: x in Leaves(n) ==> allocated(x)
    ensures forall i :: 0 <= i < |Leaves(n)| ==> allocated(Leaves(n)[i])
    decreases n
  {
    match n {
      case Root(None) =>
      case Root(Some(m)) => LeavesAllocated(m);
      case SplitArea(_, cs, _) =>
        forall x | x in Leaves(n) ensures allocated(x) {
          FlattenMember(ChildLeaves(cs), x);
          var i :| 0 <= i < |cs| && x in ChildLeaves(cs)[i];
          assert x in Leaves(cs[i]);
          LeavesAllocated(cs[i]);
        }
      case TabArea(_, _) =>
    }
    forall i | 0 <= i < |Leaves(n)| ensures allocated(Leaves(n)[i]) {
      assert Leaves(n)[i] in Leaves(n);
    }
  }

  /*********************************************************************
   * Master -> detail filters, per widget
   */

  /** The `{filters}` configuration `filterWidget` restores a detail widget with. */
  function FilterUpdate(candidates: set<string>, incoming: seq<Filter>, available: seq<string>,
                        current: seq<Filter>): Config
  {
    map["filters" := FilterList(PropagatedFilters(candidates, incoming, available, current))]
  }

  /** The update carries no `master` key: all of it goes to the viewer, and the flag it restores is `undefined`. */
  lemma FilterUpdateHasNoMaster(candidates: set<string>, incoming: seq<Filter>, available: seq<string>,
                                current: seq<Filter>)
    ensures var u := FilterUpdate(candidates, incoming, available, current);
      ViewerPart(u) == u && MasterOf(u) == Undefined
  {
    var u := FilterUpdate(candidates, incoming, available, current);
    assert "master" !in u;
    assert ViewerPart(u) == u;
  }

  /** The part of a widget `filterWidget` may change. */
  datatype ViewState = ViewState(settings: Config, master: Value, classes: set<string>, selectable: Value,
                                 calls: seq<ViewerCall>)

  function ViewOf(w: ViewerWidget): ViewState
    reads w`settings, w`masterValue, w`classes, w`selectable, w`calls
  {
    ViewState(w.settings, w.masterValue, w.classes, w.selectable, w.calls)
  }

  /**
   * `filterWidget` on one widget: with a loaded table, it is restored with
   * the propagated filters (its own taken from what it saves), which also
   * resets its master flag to `undefined`; without one, reading the schema
   * fails and the widget is left alone.
   */
  function Refiltered(v: ViewState, table: Option<Table>, candidates: set<string>, incoming: seq<Filter>,
                      schema: Table -> seq<string>): ViewState
  {
    match table
    case None => v
    case Some(t) =>
      var u := FilterUpdate(candidates, incoming, schema(t), FiltersOf(v.settings));
      ViewState(Merge(v.settings, u), Undefined, v.classes + {DetailClass} - {MasterClass}, Null,
                v.calls + [RestoreViewer(u)])
  }

  /**
   * A widget with a loaded table ends with exactly the propagated filters,
   * every other setting kept, styled as a detail and not selectable; the
   * viewer is told about the filters alone.
   */
  lemma RefilteredSpec(v: ViewState, t: Table, candidates: set<string>, incoming: seq<Filter>,
                       schema: Table -> seq<string>)
    ensures var r := Refiltered(v, Some(t), candidates, incoming, schema);
      && FiltersOf(r.settings) == PropagatedFilters(candidates, incoming, schema(t), FiltersOf(v.settings))
      && (forall k :: k in v.settings && k != "filters" ==> k in r.settings && r.settings[k] == v.settings[k])
      && (forall k :: k in r.settings ==> k in v.settings || k == "filters")
      && !Truthy(r.master) && DetailClass in r.classes && MasterClass !in r.classes
      && r.calls == v.calls + [RestoreViewer(map["filters" := r.settings["filters"]])]
  {
  }

  /*********************************************************************
   * Restoring widgets
   */

  /** What `createWidget({title, table, config})` leaves in a widget, as far as a layout can tell. */
  predicate Created(w: ViewerWidget, title: Value, table: Option<Table>, config: Config)
    reads w`titleLabel, w`closable, w`pendingTable, w`loadedTable, w`masterValue, w`settings
  {
    && w.titleLabel == title && w.closable && w.pendingTable == table && w.loadedTable == None
    && w.Master() == MasterOf(config) && w.settings == ViewerPart(config)
  }

  /** Every configuration carries its own `master` flag, as every one `save()` writes does. */
  predicate FlagsSaved(layout: Layout)
  {
    && (forall c :: c in MasterConfigs(layout) ==> "master" in c)
    && (forall c :: c in Leaves(layout.detail) ==> "master" in c)
  }

  /** `layout.master.widgets`, none without `layout.master`. */
  function MasterConfigs(layout: Layout): seq<Config>
  {
    if layout.master.Some? then layout.master.value.widgets else []
  }

  /** `layout.master.sizes`, when both are present. */
  function MasterSizesOf(layout: Layout): Option<seq<real>>
  {
    if layout.master.Some? then layout.master.value.sizes else None
  }

  /** `ws` are the master widgets `restore` created from `configs`, in order. */
  predicate MasterWidgetsFrom(ws: seq<ViewerWidget>, configs: seq<Config>, tables: map<Value, Table>)
    reads ws`titleLabel, ws`closable, ws`pendingTable, ws`loadedTable, ws`masterValue, ws`settings, ws`clickListener
  {
    && |ws| == |configs|
    && forall i :: 0 <= i < |ws| ==>
         && Created(ws[i], Get(configs[i], "name"), Lookup(tables, Get(configs[i], "table")), WithMasterDefault(configs[i]))
         && ws[i].clickListener
  }

  /** `ws` are the detail widgets `restore` created from `configs`, in order. */
  predicate DetailWidgetsFrom(ws: seq<ViewerWidget>, configs: seq<Config>, tables: map<Value, Table>)
    reads ws`titleLabel, ws`closable, ws`pendingTable, ws`loadedTable, ws`masterValue, ws`settings, ws`clickListener
  {
    && |ws| == |configs|
    && forall i :: 0 <= i < |ws| ==>
         && Created(ws[i], Get(configs[i], "name"), Lookup(tables, Get(configs[i], "table")), configs[i])
         && !ws[i].clickListener
  }

  lemma MasterWidgetsAppend(ws: seq<ViewerWidget>, configs: seq<Config>, w: ViewerWidget, c: Config,
                            tables: map<Value, Table>)
    requires MasterWidgetsFrom(ws, configs, tables) && MasterWidgetsFrom([w], [c], tables)
    ensures MasterWidgetsFrom(ws + [w], configs + [c], tables)
  {
  }

  lemma DetailWidgetsAppend(ws: seq<ViewerWidget>, configs: seq<Config>, w: ViewerWidget, c: Config,
                            tables: map<Value, Table>)
    requires DetailWidgetsFrom(ws, configs, tables) && DetailWidgetsFrom([w], [c], tables)
    ensures DetailWidgetsFrom(ws + [w], configs + [c], tables)
  {
  }

  class Workspace {
    const side: string
    var tables: map<Value, Table>
    var registry: map<ViewerWidget, (nat, nat)>  // `listeners`: the registered widgets, each with its
                                                 // "contextmenu" and "perspective-toggle-settings" counts
    var mounted: seq<Container>             // children of the workspace split
    var sizes: seq<real>
    var master: seq<ViewerWidget>           // masterpanel.widgets
    var masterSizes: seq<real>
    var dock: Node<ViewerWidget>            // dockpanel's layout
    var mode: DockMode
    var snapshot: Option<Node<ViewerWidget>>  // single_document_prev_layout
    const ids: IdCounter                    // the page's widget counter

    /** The containers, as the values `Containers` speaks about. */
    function Arr(): Arrangement<ViewerWidget>
      reads this
    {
      Arrangement(mounted, sizes, master, masterSizes, dock, mode, snapshot)
    }

    /** The listeners `w` carries; a widget the workspace never registered carries none. */
    function ListenersOf(w: ViewerWidget): Listeners
      reads this
    {
      if w in registry then Listeners(true, registry[w].0, registry[w].1) else Listeners(false, 0, 0)
    }

    /** Every registered widget holds exactly one listener of each kind and one tracked teardown. */
    predicate ListenersOnce()
      reads this
    {
      forall w :: w in registry ==> registry[w] == (1, 1)
    }

    /** The state every operation other than `restore` and `duplicate` keeps. */
    predicate Valid()
      reads this
    {
      ListenersOnce() && Exclusive(Arr()) && WellMounted(Arr(), side)
    }

    /** `new PerspectiveWorkspace(element, {side})`: the dock alone, empty; a missing side is "left". */
    constructor (side: string, ids: IdCounter)
      ensures this.side == if side == "" then "left" else side
      ensures this.ids == ids && tables == map[] && registry == map[]
      ensures Arr() == Arrangement([BoxPanel], [1.0], [], [], Root(None), MultipleDocument, None)
      ensures Valid()
    {
      this.side := if side == "" then "left" else side;
      this.ids := ids;
      tables, registry := map[], map[];
      mounted, sizes := [BoxPanel], [1.0];
      master, masterSizes := [], [];
      dock, mode, snapshot := Root(None), MultipleDocument, None;
    }

    /** `addTable(name, table)` */
    method AddTable(name: Value, table: Table)
      modifies this`tables
      ensures tables == old(tables)[name := table]
      ensures GetTable(name) == Some(table)
      ensures forall n :: n != name ==> GetTable(n) == old(GetTable(n))
    {
      tables := tables[name := table];
    }

    /** `getTable(name)` */
    function GetTable(name: Value): Option<Table>
      reads this
    {
      Lookup(tables, name)
    }

    /** `getAllWidgets()`: the master widgets, then the dock's, in order. */
    function GetAllWidgets(): (r: seq<ViewerWidget>)
      reads this
      ensures |r| == |master| + |Leaves(dock)|
      ensures forall w :: w in r ==> w in master || w in Leaves(dock)
      ensures forall w :: w in master ==> w in r
      ensures forall w :: w in Leaves(dock) ==> w in r
      ensures Exclusive(Arr()) ==> NoDup(r)
    {
      if Exclusive(Arr()) then NoDupConcat(master, Leaves(dock)); master + Leaves(dock)
      else master + Leaves(dock)
    }

    /**
     * The loop of `clearLayout()`: the children of the split are closed one
     * by one as the loop over the live array reaches them, so the child
     * after each closed one is skipped (`CloseEach`, `CloseEachSkipsSecond`).
     */
    method CloseChildren()
      modifies this`mounted
      ensures mounted == CloseEach(old(mounted), 0)
    {
      var i := 0;
      while i < |mounted|
        invariant CloseEach(mounted, i) == CloseEach(old(mounted), 0)
        decreases |mounted|
      {
        WithoutShorter(mounted, mounted[i]);
        mounted := CloseChild(mounted, mounted[i]);
        i := i + 1;
      }
    }

    /**
     * `clearLayout()`: the loop over the split's children (`CloseChildren`),
     * then the box panel, then a mounted master panel are closed.
     */
    method ClearLayout()
      modifies this`mounted
      ensures mounted == []
    {
      CloseChildren();
      mounted := CloseChild(mounted, BoxPanel);
      if MasterPanel in mounted {
        mounted := CloseChild(mounted, MasterPanel);
      }
      CloseBoth(mounted, BoxPanel, MasterPanel);
    }

    /** `setupMasterPanel(sizes)` */
    method SetupMasterPanel(s: seq<real>)
      modifies this`mounted, this`sizes
      ensures Arr() == Containers.SetupMasterPanel(old(Arr()), side, s)
      ensures mounted == MasterLayout(side)
    {
      if side == "left" {
        mounted := AddChild(mounted, MasterPanel);
        mounted := AddChild(mounted, BoxPanel);
        sizes := s;
      } else {
        mounted := AddChild(mounted, BoxPanel);
        mounted := AddChild(mounted, MasterPanel);
        sizes := Reverse(s);
      }
      SetupMasterPanelMounts(old(Arr()), side, s);
    }

    /** `addWidgetEventListeners(w)`: tear down the tracked pair, if any, then add and track a new pair. */
    method AddWidgetEventListeners(w: ViewerWidget)
      modifies this`registry
      ensures ListenersOf(w) == Register(old(ListenersOf(w)))
      ensures registry == old(registry)[w := registry[w]]
      ensures old(ListenersOnce()) ==> ListenersOnce()
    {
      var (contextMenu, settings) := if w in registry then registry[w] else (0, 0);
      if w in registry {
        contextMenu := if contextMenu > 0 then contextMenu - 1 else 0;
        settings := if settings > 0 then settings - 1 else 0;
      }
      registry := registry[w := (contextMenu + 1, settings + 1)];
    }

    /** The widget half of `createWidget`: a new closable widget with `config` restored into it. */
    method NewWidget(title: Value, table: Option<Table>, config: Config) returns (w: ViewerWidget)
      modifies ids
      ensures fresh(w)
      ensures ids.next == old(ids.next) + 1 && w.slot == SlotName(old(ids.next))
      ensures w.titleLabel == title && w.closable
      ensures w.pendingTable == table && w.loadedTable == None && !w.attached && !w.hidden
      ensures w.Master() == MasterOf(config)
      ensures w.classes == if Truthy(MasterOf(config)) then {MasterClass} else {DetailClass}
      ensures w.settings == ViewerPart(config)
      ensures w.calls == [RestoreViewer(ViewerPart(config))]
      ensures !w.clickListener
    {
      w := new ViewerWidget(title, table, ids);
      w.closable := true;
      w.Restore(config);
      MergeIntoEmpty(ViewerPart(config));
    }

    /**
     * `createWidget({title, table, config})`: a new closable widget with
     * its listeners registered and `config` restored into it.
     */
    method CreateWidget(title: Value, table: Option<Table>, config: Config) returns (w: ViewerWidget)
      modifies this`registry, ids
      ensures fresh(w) && registry == old(registry)[w := (1, 1)]
      ensures ids.next == old(ids.next) + 1 && w.slot == SlotName(old(ids.next))
      ensures w.titleLabel == title && w.closable
      ensures w.pendingTable == table && w.loadedTable == None && !w.attached && !w.hidden
      ensures w.Master() == MasterOf(config)
      ensures w.classes == if Truthy(MasterOf(config)) then {MasterClass} else {DetailClass}
      ensures w.settings == ViewerPart(config)
      ensures w.calls == [RestoreViewer(ViewerPart(config))]
      ensures !w.clickListener
      ensures old(ListenersOnce()) ==> ListenersOnce()
    {
      w := NewWidget(title, table, config);
      AddWidgetEventListeners(w);
    }

    /**
     * `toggleSingleDocument(w)`: snapshot the dock and show one document
     * with `w` current (telling `w` to resize), or put the snapshot back.
     */
    method ToggleSingleDocument(w: ViewerWidget)
      modifies this`mode, this`dock, this`snapshot, w`calls
      ensures Arr() == Containers.ToggleSingleDocument(old(Arr()), w)
      ensures old(mode) != SingleDocument ==>
                w.calls == old(w.calls) + if w.IsVisible() then [ViewerCall.NotifyResize] else []
      ensures old(mode) == SingleDocument ==> w.calls == old(w.calls)
      ensures old(Valid()) ==> Valid()
    {
      if mode != SingleDocument {
        snapshot := Some(dock);
        mode := SingleDocument;
        dock := DockLayout.SingleDocument(dock, w);
        w.NotifyResize();
      } else {
        mode := MultipleDocument;
        dock := if snapshot.Some? then snapshot.value else dock;
      }
      ToggleSingleDocumentSpec(old(Arr()), w, side);
    }

    /** The container half of `makeMaster(w)`: mount an empty master panel, then move `w` to its end. */
    method MoveToMaster(w: ViewerWidget)
      modifies this`mounted, this`sizes, this`master, this`dock
      ensures Arr() == Containers.MakeMaster(old(Arr()), w, side)
    {
      if |master| == 0 {
        mounted := CloseChild(mounted, BoxPanel);
        SetupMasterPanel(DefaultSizes);
      }
      master := Without(master, w) + [w];
      dock := RemoveWidget(dock, w);
    }

    /** The widget half of `makeMaster(w)`: flag, show, restyle and subscribe to clicks. */
    method Promote(w: ViewerWidget)
      modifies w`masterValue, w`classes, w`selectable, w`hidden, w`calls, w`clickListener
      ensures w.Master() == Bool(true) && MasterClass in w.classes && DetailClass !in w.classes
      ensures w.selectable == Bool(true) && !w.hidden && w.clickListener
      ensures w.calls == old(w.calls) + (if old(w.hidden) && w.attached then [ViewerCall.NotifyResize] else []) + [Restyle]
    {
      w.SetMaster(Bool(true));
      if w.hidden {
        w.Show();
      }
      w.calls := w.calls + [Restyle];
      w.clickListener := true;
    }

    /** The container half of `makeDetail(w)`: move `w` into the dock, and mount the dock alone once the master panel is empty. */
    method MoveToDock(w: ViewerWidget)
      modifies this`mounted, this`sizes, this`master, this`dock
      ensures Arr() == Containers.MakeDetail(old(Arr()), w)
    {
      var rest := RemoveWidget(dock, w);
      dock := if mode == SingleDocument then AddTab(rest, w) else AppendRight(rest, w);
      master := Without(master, w);
      if |master| == 0 {
        mounted := CloseChild(mounted, BoxPanel);
        mounted := CloseChild(mounted, MasterPanel);
        mounted := AddChild(mounted, BoxPanel);
        sizes := [1.0];
      }
    }

    /** The widget half of `makeDetail(w)`: flag, restyle and unsubscribe from clicks. */
    method Demote(w: ViewerWidget)
      modifies w`masterValue, w`classes, w`selectable, w`calls, w`clickListener
      ensures w.Master() == Bool(false) && DetailClass in w.classes && MasterClass !in w.classes
      ensures w.selectable == Null && !w.clickListener
      ensures w.calls == old(w.calls) + [Restyle]
    {
      w.SetMaster(Bool(false));
      w.calls := w.calls + [Restyle];
      w.clickListener := false;
    }

    /**
     * `makeMaster(w)`: flag `w` master, mount the master panel if it was
     * empty, move `w` to the end of it, show it if hidden, restyle it and
     * subscribe the workspace to its clicks.
     */
    method MakeMaster(w: ViewerWidget)
      modifies this`mounted, this`sizes, this`master, this`dock
      modifies w`masterValue, w`classes, w`selectable, w`hidden, w`calls, w`clickListener
      ensures Arr() == Containers.MakeMaster(old(Arr()), w, side)
      ensures w.Master() == Bool(true) && MasterClass in w.classes && DetailClass !in w.classes
      ensures w.selectable == Bool(true) && !w.hidden && w.clickListener
      ensures w.calls == old(w.calls) + (if old(w.hidden) && w.attached then [ViewerCall.NotifyResize] else []) + [Restyle]
      ensures old(Valid()) && (mode == SingleDocument ==> w !in Leaves(snapshot.value)) ==> Valid()
    {
      Promote(w);
      MoveToMaster(w);
      MakeMasterPreserves(old(Arr()), w, side);
    }

    /**
     * `makeDetail(w)`: flag `w` detail, move it into the dock split-right,
     * mount the dock alone once the master panel is empty, restyle `w` and
     * unsubscribe from its clicks.
     */
    method MakeDetail(w: ViewerWidget)
      modifies this`mounted, this`sizes, this`master, this`dock
      modifies w`masterValue, w`classes, w`selectable, w`calls, w`clickListener
      ensures Arr() == Containers.MakeDetail(old(Arr()), w)
      ensures w.Master() == Bool(false) && DetailClass in w.classes && MasterClass !in w.classes
      ensures w.selectable == Null && !w.clickListener
      ensures w.calls == old(w.calls) + [Restyle]
      ensures old(Valid()) ==> Valid()
    {
      Demote(w);
      MoveToDock(w);
      MakeDetailPreserves(old(Arr()), w, side);
    }

    /** `toggleMasterDetail(w)`: a dock widget is promoted (leaving single-document mode first), any other demoted. */
    method ToggleMasterDetail(w: ViewerWidget)
      modifies this`mounted, this`sizes, this`master, this`dock, this`mode, this`snapshot
      modifies w`masterValue, w`classes, w`selectable, w`hidden, w`calls, w`clickListener
      ensures Arr() == Containers.ToggleMasterDetail(old(Arr()), w, side)
      ensures w.Master() == Bool(w in old(Leaves(dock)))
      ensures w.clickListener == (w in old(Leaves(dock)))
      ensures old(Valid()) ==> Valid()
    {
      if w in Leaves(dock) {
        if mode == SingleDocument {
          ToggleSingleDocument(w);
        }
        MakeMaster(w);
      } else {
        MakeDetail(w);
      }
      ToggleMasterDetailSpec(old(Arr()), w, side);
    }

    /** The copy `duplicate(w)` creates: titled "duplicate", on `w`'s loaded table, with `w`'s saved configuration. */
    method CopyOf(w: ViewerWidget) returns (copy: ViewerWidget)
      modifies this`registry, ids
      ensures fresh(copy) && registry == old(registry)[copy := (1, 1)]
      ensures copy.titleLabel == Str("duplicate") && copy.pendingTable == w.loadedTable
      ensures copy.Master() == w.Master() && copy.settings == ViewerPart(w.settings) && !copy.clickListener
      ensures old(ListenersOnce()) ==> ListenersOnce()
      ensures copy !in master && copy !in Leaves(dock)
    {
      LeavesAllocated(dock);
      var config := w.Save();
      copy := CreateWidget(Str("duplicate"), w.GetTable(), config);
      ViewerPartOfSaved(w.settings, w.Master());
    }

    /** Where `duplicate` puts the copy: after a master `w` in the master panel, else split-right of `w` in the dock. */
    method PlaceCopy(w: ViewerWidget, isMaster: bool, copy: ViewerWidget)
      modifies this`master, this`dock
      ensures Arr() == Containers.PlaceCopy(old(Arr()), w, isMaster, copy)
    {
      if isMaster {
        master := InsertAt(master, IndexOf(master, w) + 1, copy);
      } else {
        match SplitRight(dock, copy, Some(w))
        case Some(d) => dock := d;
        case None =>
      }
    }

    /**
     * `duplicate(w)`: leave single-document mode, create a copy titled
     * "duplicate" on `w`'s loaded table with `w`'s saved configuration, and
     * place it after `w` in the master panel when `w` is flagged master,
     * else split-right of `w` in the dock (where a `w` outside the dock
     * makes the toolkit refuse, leaving the copy unplaced).
     */
    method Duplicate(w: ViewerWidget) returns (copy: ViewerWidget)
      modifies this`registry, this`mode, this`dock, this`snapshot, this`master, ids, w`calls
      ensures Arr() == Containers.Duplicate(old(Arr()), w, Truthy(old(w.Master())), copy)
      ensures fresh(copy) && copy.titleLabel == Str("duplicate")
      ensures copy.pendingTable == w.loadedTable && copy.Master() == w.Master()
      ensures copy.settings == ViewerPart(w.settings) && !copy.clickListener
      ensures w.calls == old(w.calls)
      ensures old(Valid()) && (Truthy(old(w.Master())) ==> |old(master)| > 0) ==> Valid()
    {
      var isMaster := Truthy(w.Master());
      if mode == SingleDocument {
        ToggleSingleDocument(w);
      }
      copy := CopyOf(w);
      ghost var a1 := Arr();
      PlaceCopy(w, isMaster, copy);
      PlaceCopyPreserves(a1, w, isMaster, copy, side);
    }

    /** `filterWidget`'s step for one widget. */
    method Refilter(w: ViewerWidget, candidates: set<string>, incoming: seq<Filter>, schema: Table -> seq<string>)
      modifies w`masterValue, w`classes, w`selectable, w`settings, w`calls
      ensures ViewOf(w) == Refiltered(old(ViewOf(w)), w.loadedTable, candidates, incoming, schema)
    {
      match w.GetTable()
      case None =>
      case Some(t) =>
        var config := w.Save();
        assert FiltersOf(config) == FiltersOf(w.settings);
        var u := FilterUpdate(candidates, incoming, schema(t), FiltersOf(config));
        FilterUpdateHasNoMaster(candidates, incoming, schema(t), FiltersOf(config));
        w.Restore(u);
    }

    /**
     * `filterWidget(candidates, filters)`: every dock widget with a loaded
     * table is restored with the incoming filters its schema has, followed by
     * its own filters off the candidate columns, one per column.
     * `schema` gives the column names of a table's schema.
     */
    method FilterWidget(candidates: set<string>, incoming: seq<Filter>, schema: Table -> seq<string>)
      requires (LeavesAllocated(dock); NoDup(Leaves(dock)))
      modifies Leaves(dock)`masterValue, Leaves(dock)`classes, Leaves(dock)`selectable
      modifies Leaves(dock)`settings, Leaves(dock)`calls
      ensures forall i :: 0 <= i < |Leaves(dock)| ==>
                ViewOf(Leaves(dock)[i]) ==
                Refiltered(old(ViewOf(Leaves(dock)[i])), Leaves(dock)[i].loadedTable, candidates, incoming, schema)
    {
      var ws := Leaves(dock);
      LeavesAllocated(dock);
      ghost var after := seq(|ws|, i reads ws requires 0 <= i < |ws| =>
                               Refiltered(ViewOf(ws[i]), ws[i].loadedTable, candidates, incoming, schema));
      ghost var before := seq(|ws|, i reads ws requires 0 <= i < |ws| => ViewOf(ws[i]));
      for k := 0 to |ws|
        invariant forall i :: 0 <= i < k ==> ViewOf(ws[i]) == after[i]
        invariant forall i :: k <= i < |ws| ==> ViewOf(ws[i]) == before[i]
      {
        assert forall i :: 0 <= i < |ws| && i != k ==> ws[i] != ws[k];
        Refilter(ws[k], candidates, incoming, schema);
      }
    }

    /**
     * `onPerspectiveClick`: the clicked viewer's row and column pivots and
     * filtered columns are the candidates, and the click's filters are
     * propagated to the dock.
     */
    method OnPerspectiveClick(source: ViewerWidget, incoming: seq<Filter>, schema: Table -> seq<string>)
      requires (LeavesAllocated(dock); NoDup(Leaves(dock)))
      modifies Leaves(dock)`masterValue, Leaves(dock)`classes, Leaves(dock)`selectable
      modifies Leaves(dock)`settings, Leaves(dock)`calls
      ensures forall i :: 0 <= i < |Leaves(dock)| ==>
                ViewOf(Leaves(dock)[i]) ==
                Refiltered(old(ViewOf(Leaves(dock)[i])), Leaves(dock)[i].loadedTable,
                           Candidates(old(source.settings)), incoming, schema)
    {
      FilterWidget(Candidates(source.settings), incoming, schema);
    }

    /**
     * `save()`: the top split's sizes, each master widget's saved
     * configuration with the panel's sizes, and the dock's tree with each
     * widget replaced by its saved configuration. The split's sizes are
     * saved in display order, which on the right side is dock first, the
     * other way round from the order `restore` reads them in.
     */
    function Save(): (r: Layout)
      reads this, set w | w in master, set w | w in Leaves(dock)
      ensures r.sizes == Some(sizes) && r.master.Some? && r.master.value.sizes == Some(masterSizes)
      ensures |r.master.value.widgets| == |master|
      ensures forall i :: 0 <= i < |master| ==>
                MasterOf(r.master.value.widgets[i]) == master[i].Master() &&
                ViewerPart(r.master.value.widgets[i]) == ViewerPart(master[i].settings)
      ensures SameShape(dock, r.detail) && |Leaves(r.detail)| == |Leaves(dock)|
      ensures forall i :: 0 <= i < |Leaves(dock)| ==>
                MasterOf(Leaves(r.detail)[i]) == Leaves(dock)[i].Master() &&
                ViewerPart(Leaves(r.detail)[i]) == ViewerPart(Leaves(dock)[i].settings)
      ensures FlagsSaved(r)
    {
      var configs := SavedConfigs(Leaves(dock));
      RefillShape(dock, configs);
      Layout(Some(sizes), Some(MasterLayoutConfig(SavedConfigs(master), Some(masterSizes))), Refill(dock, configs))
    }

    /**
     * `save()` with the split's sizes master first (`SavedSizes`), the order
     * `restore` reads them in: the same on the left side, and the corrected
     * `save()` on the right, where the one as written swaps the proportions.
     */
    function SaveMasterFirst(): (r: Layout)
      reads this, set w | w in master, set w | w in Leaves(dock)
      ensures r.sizes == Some(if side == "left" then sizes else Reverse(sizes))
      ensures r.master == Save().master && r.detail == Save().detail
      ensures side == "left" ==> r == Save()
    {
      Save().(sizes := Some(SavedSizes(Arr(), side)))
    }

    /** A master widget of `restore`: flagged master unless its configuration says otherwise, and subscribed to clicks. */
    method CreateMasterWidget(config: Config) returns (w: ViewerWidget)
      modifies this`registry, ids
      ensures fresh(w) && registry == old(registry)[w := (1, 1)]
      ensures MasterWidgetsFrom([w], [config], tables)
      ensures old(ListenersOnce()) ==> ListenersOnce()
    {
      w := CreateWidget(Get(config, "name"), GetTable(Get(config, "table")), WithMasterDefault(config));
      w.clickListener := true;
    }

    /**
     * One round of `restore`'s loop over the master configurations: create
     * the widget (flagged master unless its configuration says otherwise),
     * subscribe it to clicks and append it to the master panel. `ws` are the
     * widgets the earlier rounds created from `done`.
     */
    method AddMasterWidget(config: Config, ghost ws: seq<ViewerWidget>, ghost done: seq<Config>) returns (w: ViewerWidget)
      requires NoDup(ws) && MasterWidgetsFrom(ws, done, tables)
      requires forall i :: 0 <= i < |ws| ==> ws[i] in registry
      modifies this`master, this`registry, ids
      ensures fresh(w) && master == old(master) + [w]
      ensures registry == old(registry)[w := (1, 1)]
      ensures NoDup(ws + [w]) && MasterWidgetsFrom(ws + [w], done + [config], tables)
      ensures forall i :: 0 <= i < |ws + [w]| ==> (ws + [w])[i] in registry
      ensures old(ListenersOnce()) ==> ListenersOnce()
    {
      w := CreateMasterWidget(config);
      assert w !in master;
      master := Without(master, w) + [w];
      NoDupInsert(ws, [], w);
      MasterWidgetsAppend(ws, done, w, config, tables);
    }

    /**
     * One call of the function `restore` maps over the detail tree: create
     * the widget from its configuration. `ws` are the widgets the earlier
     * calls created from `done`.
     */
    method AddDetailWidget(config: Config, ghost ws: seq<ViewerWidget>, ghost done: seq<Config>) returns (w: ViewerWidget)
      requires NoDup(ws) && DetailWidgetsFrom(ws, done, tables)
      requires forall i :: 0 <= i < |ws| ==> ws[i] in registry
      modifies this`registry, ids
      ensures fresh(w) && registry == old(registry)[w := (1, 1)]
      ensures NoDup(ws + [w]) && DetailWidgetsFrom(ws + [w], done + [config], tables)
      ensures forall i :: 0 <= i < |ws + [w]| ==> (ws + [w])[i] in registry
      ensures old(ListenersOnce()) ==> ListenersOnce()
    {
      w := CreateWidget(Get(config, "name"), GetTable(Get(config, "table")), config);
      NoDupInsert(ws, [], w);
      DetailWidgetsAppend(ws, done, w, config, tables);
    }

    /** `restore`'s loop over the master configurations. */
    method AddMasterWidgets(configs: seq<Config>) returns (ghost ws: seq<ViewerWidget>)
      modifies this`master, this`registry, ids
      ensures master == old(master) + ws && fresh(ws) && NoDup(ws)
      ensures MasterWidgetsFrom(ws, configs, tables)
      ensures forall i :: 0 <= i < |ws| ==> ws[i] in registry
      ensures old(registry).Keys <= registry.Keys
      ensures old(ListenersOnce()) ==> ListenersOnce()
    {
      ws := [];
      for k := 0 to |configs|
        invariant master == old(master) + ws && fresh(ws) && NoDup(ws)
        invariant MasterWidgetsFrom(ws, configs[..k], tables)
        invariant forall i :: 0 <= i < |ws| ==> ws[i] in registry
        invariant old(registry).Keys <= registry.Keys
        invariant old(ListenersOnce()) ==> ListenersOnce()
      {
        var w := AddMasterWidget(configs[k], ws, configs[..k]);
        assert configs[..k + 1] == configs[..k] + [configs[k]];
        ws := ws + [w];
      }
      assert configs[..|configs|] == configs;
    }

    /** The master half of `restore`: the master widgets, then the panel's sizes when given. */
    method RestoreMaster(layout: Layout) returns (ghost ws: seq<ViewerWidget>)
      modifies this`master, this`masterSizes, this`registry, ids
      ensures |ws| == |MasterConfigs(layout)|
      ensures Arr() == Containers.AppendMaster(old(Arr()), ws, MasterSizesOf(layout))
      ensures fresh(ws) && NoDup(ws)
      ensures MasterWidgetsFrom(ws, MasterConfigs(layout), tables)
      ensures forall i :: 0 <= i < |ws| ==> ws[i] in registry
      ensures old(registry).Keys <= registry.Keys
      ensures old(ListenersOnce()) ==> ListenersOnce()
    {
      ws := AddMasterWidgets(MasterConfigs(layout));
      if MasterSizesOf(layout).Some? {
        masterSizes := MasterSizesOf(layout).value;
      }
    }

    /** The widgets `mapWidgets` creates over the detail tree, one per leaf configuration, left to right. */
    method CreateDetailWidgets(configs: seq<Config>) returns (ws: seq<ViewerWidget>)
      modifies this`registry, ids
      ensures fresh(ws) && NoDup(ws)
      ensures DetailWidgetsFrom(ws, configs, tables)
      ensures forall i :: 0 <= i < |ws| ==> ws[i] in registry
      ensures old(registry).Keys <= registry.Keys
      ensures old(ListenersOnce()) ==> ListenersOnce()
    {
      ws := [];
      for k := 0 to |configs|
        invariant fresh(ws) && NoDup(ws)
        invariant DetailWidgetsFrom(ws, configs[..k], tables)
        invariant forall i :: 0 <= i < |ws| ==> ws[i] in registry
        invariant old(registry).Keys <= registry.Keys
        invariant old(ListenersOnce()) ==> ListenersOnce()
      {
        var w := AddDetailWidget(configs[k], ws, configs[..k]);
        assert configs[..k + 1] == configs[..k] + [configs[k]];
        ws := ws + [w];
      }
      assert configs[..|configs|] == configs;
    }

    /**
     * The detail half of `restore`: the widgets for the detail tree's
     * leaves, and the dock takes the resulting tree.
     */
    method RestoreDetail(detail: Node<Config>) returns (ws: seq<ViewerWidget>)
      modifies this`dock, this`mode, this`registry, ids
      ensures |ws| == |Leaves(detail)|
      ensures Arr() == Containers.RestoreLayout(old(Arr()), Refill(detail, ws))
      ensures fresh(ws) && NoDup(ws)
      ensures DetailWidgetsFrom(ws, Leaves(detail), tables)
      ensures forall i :: 0 <= i < |ws| ==> ws[i] in registry
      ensures old(registry).Keys <= registry.Keys
      ensures old(ListenersOnce()) ==> ListenersOnce()
    {
      ws := CreateDetailWidgets(Leaves(detail));
      dock := Refill(detail, ws);
      mode := MultipleDocument;
    }

    /**
     * `restore(layout)`: close the two containers, mount the master panel
     * beside the dock when the layout has master widgets (else the dock
     * alone), create and append the master widgets, then create the detail
     * widgets leaf by leaf and give the dock the resulting tree.
     * Returns the widgets it created.
     */
    method Restore(layout: Layout) returns (ghost newMaster: seq<ViewerWidget>, newDetail: seq<ViewerWidget>)
      modifies this`mounted, this`sizes, this`master, this`masterSizes, this`dock, this`mode, this`registry, ids
      ensures |newMaster| == |MasterConfigs(layout)| && |newDetail| == |Leaves(layout.detail)|
      ensures Arr() == Containers.Restore(old(Arr()), side, layout.sizes, newMaster, MasterSizesOf(layout),
                                          Refill(layout.detail, newDetail))
      ensures MasterWidgetsFrom(newMaster, MasterConfigs(layout), tables)
      ensures DetailWidgetsFrom(newDetail, Leaves(layout.detail), tables)
      ensures fresh(newMaster) && fresh(newDetail)
      ensures NoDup(newMaster) && NoDup(newDetail) && NoDup(newMaster + newDetail)
      ensures forall w :: w in newMaster + newDetail ==> w in registry
      ensures old(ListenersOnce()) ==> ListenersOnce()
    {
      Remount(|MasterConfigs(layout)| > 0, layout.sizes);
      newMaster := RestoreMaster(layout);
      newDetail := RestoreDetail(layout.detail);
      NoDupConcat(newMaster, newDetail);
    }

    /**
     * `restore` keeps the containers exclusive, and keeps the mounting
     * invariant exactly when the master panel was empty or the layout
     * brings master widgets (earlier master widgets stay, unmounted, otherwise).
     */
    method RestoreValid(layout: Layout) returns (ghost newMaster: seq<ViewerWidget>, newDetail: seq<ViewerWidget>)
      modifies this`mounted, this`sizes, this`master, this`masterSizes, this`dock, this`mode, this`registry, ids
      ensures old(Valid()) && (|old(master)| == 0 || |MasterConfigs(layout)| > 0) ==> Valid()
    {
      if snapshot.Some? {
        LeavesAllocated(snapshot.value);
      }
      ghost var a := Arr();
      newMaster, newDetail := Restore(layout);
      RestoreSpec(a, side, layout.sizes, newMaster, MasterSizesOf(layout), dock);
    }

    /**
     * `restore(layout)` followed by `save()`: the saved layout gives back
     * the layout restored. The dock's tree has the same shape, each leaf the
     * same flag and viewer settings, and is the very same tree when every
     * leaf carries its own flag (as every saved one does). The new master
     * widgets save as their configurations with the `master: true` default,
     * after the saved configurations of any earlier master widgets, which
     * `restore` keeps. The master panel's sizes come back when given. The
     * split's sizes come back when the layout has master widgets on the
     * left side, and reversed on the right, where only `SaveMasterFirst`
     * gives them back. A layout saved from a workspace with no earlier master
     * widgets comes back whole from `save()` on the left side, and from
     * `SaveMasterFirst()` on either side.
     */
    method SaveAfterRestore(layout: Layout) returns (saved: Layout)
      modifies this`mounted, this`sizes, this`master, this`masterSizes, this`dock, this`mode, this`registry, ids
      ensures saved.master.Some?
      ensures saved.master.value.widgets == SavedConfigs(old(master)) + WithMasterDefaults(MasterConfigs(layout))
      ensures MasterSizesOf(layout).Some? ==> saved.master.value.sizes == MasterSizesOf(layout)
      ensures SameShape(layout.detail, saved.detail) && |Leaves(saved.detail)| == |Leaves(layout.detail)|
      ensures forall i :: 0 <= i < |Leaves(layout.detail)| ==>
                MasterOf(Leaves(saved.detail)[i]) == MasterOf(Leaves(layout.detail)[i]) &&
                ViewerPart(Leaves(saved.detail)[i]) == ViewerPart(Leaves(layout.detail)[i])
      ensures FlagsSaved(layout) ==> saved.detail == layout.detail
      ensures FlagsSaved(layout) && |old(master)| == 0 && layout.master.Some? && layout.master.value.sizes.Some? ==>
                saved.master == layout.master
      ensures && side == "left" && FlagsSaved(layout) && |old(master)| == 0 && |MasterConfigs(layout)| > 0
              && layout.master.Some? && layout.master.value.sizes.Some? && layout.sizes.Some?
              ==> saved == layout
      ensures && FlagsSaved(layout) && |old(master)| == 0 && |MasterConfigs(layout)| > 0
              && layout.master.Some? && layout.master.value.sizes.Some? && layout.sizes.Some?
              ==> SaveMasterFirst() == layout
      ensures |MasterConfigs(layout)| > 0 ==>
                var s := if layout.sizes.Some? then layout.sizes.value else DefaultSizes;
                saved.sizes == Some(if side == "left" then s else Reverse(s)) && SaveMasterFirst().sizes == Some(s)
    {
      ghost var a := Arr();
      var newMaster, newDetail := Restore(layout);
      SaveAfterRestoreSpec(layout, a, newMaster, newDetail);
      saved := Save();
    }

    /** `SaveAfterRestore` on the state `restore` leaves, from the containers `a` it found. */
    lemma SaveAfterRestoreSpec(layout: Layout, a: Arrangement<ViewerWidget>,
                               newMaster: seq<ViewerWidget>, newDetail: seq<ViewerWidget>)
      requires |newMaster| == |MasterConfigs(layout)| && |newDetail| == |Leaves(layout.detail)|
      requires Arr() == Containers.Restore(a, side, layout.sizes, newMaster, MasterSizesOf(layout),
                                           Refill(layout.detail, newDetail))
      requires MasterWidgetsFrom(newMaster, MasterConfigs(layout), tables)
      requires DetailWidgetsFrom(newDetail, Leaves(layout.detail), tables)
      ensures Save().master.Some?
      ensures Save().master.value.widgets == SavedConfigs(a.master) + WithMasterDefaults(MasterConfigs(layout))
      ensures MasterSizesOf(layout).Some? ==> Save().master.value.sizes == MasterSizesOf(layout)
      ensures SameShape(layout.detail, Save().detail) && |Leaves(Save().detail)| == |Leaves(layout.detail)|
      ensures forall i :: 0 <= i < |Leaves(layout.detail)| ==>
                MasterOf(Leaves(Save().detail)[i]) == MasterOf(Leaves(layout.detail)[i]) &&
                ViewerPart(Leaves(Save().detail)[i]) == ViewerPart(Leaves(layout.detail)[i])
      ensures FlagsSaved(layout) ==> Save().detail == layout.detail
      ensures FlagsSaved(layout) && |a.master| == 0 && layout.master.Some? && layout.master.value.sizes.Some? ==>
                Save().master == layout.master
      ensures && side == "left" && FlagsSaved(layout) && |a.master| == 0 && |MasterConfigs(layout)| > 0
              && layout.master.Some? && layout.master.value.sizes.Some? && layout.sizes.Some?
              ==> Save() == layout
      ensures && FlagsSaved(layout) && |a.master| == 0 && |MasterConfigs(layout)| > 0
              && layout.master.Some? && layout.master.value.sizes.Some? && layout.sizes.Some?
              ==> SaveMasterFirst() == layout
      ensures |MasterConfigs(layout)| > 0 ==>
                var s := if layout.sizes.Some? then layout.sizes.value else DefaultSizes;
                Save().sizes == Some(if side == "left" then s else Reverse(s)) && SaveMasterFirst().sizes == Some(s)
    {
      assert master == a.master + newMaster && dock == Refill(layout.detail, newDetail);
      SaveAfterRestoreDetail(layout, newDetail);
      SaveAfterRestoreMaster(layout, a.master, newMaster);
      if |MasterConfigs(layout)| > 0 {
        var s := if layout.sizes.Some? then layout.sizes.value else DefaultSizes;
        SetupMasterPanelMounts(a.(mounted := []), side, s);
        ReverseInvolutive(s);
      }
    }

    /** The dock half of `SaveAfterRestore`, once `restore` has put the new detail widgets in. */
    lemma SaveAfterRestoreDetail(layout: Layout, newDetail: seq<ViewerWidget>)
      requires |newDetail| == |Leaves(layout.detail)| && dock == Refill(layout.detail, newDetail)
      requires DetailWidgetsFrom(newDetail, Leaves(layout.detail), tables)
      ensures SameShape(layout.detail, Save().detail) && |Leaves(Save().detail)| == |Leaves(layout.detail)|
      ensures forall i :: 0 <= i < |Leaves(layout.detail)| ==>
                MasterOf(Leaves(Save().detail)[i]) == MasterOf(Leaves(layout.detail)[i]) &&
                ViewerPart(Leaves(Save().detail)[i]) == ViewerPart(Leaves(layout.detail)[i])
      ensures FlagsSaved(layout) ==> Save().detail == layout.detail
    {
      var configs := SavedConfigs(newDetail);
      assert Leaves(dock) == newDetail;
      RefillRefill(layout.detail, newDetail, configs);
      RefillShape(layout.detail, configs);
      assert Save().detail == Refill(layout.detail, configs);
      forall i | 0 <= i < |configs| ensures configs[i] == Saved(ViewerPart(Leaves(layout.detail)[i]), MasterOf(Leaves(layout.detail)[i])) {
      }
      forall i | 0 <= i < |configs|
        ensures MasterOf(configs[i]) == MasterOf(Leaves(layout.detail)[i])
        ensures ViewerPart(configs[i]) == ViewerPart(Leaves(layout.detail)[i])
        ensures "master" in Leaves(layout.detail)[i] ==> configs[i] == Leaves(layout.detail)[i]
      {
        RestoreSaveRoundTrip(Leaves(layout.detail)[i]);
      }
      if FlagsSaved(layout) {
        assert configs == Leaves(layout.detail);
        RefillSelf(layout.detail);
      }
    }

    /** The master half of `SaveAfterRestore`, once `restore` has appended the new master widgets. */
    lemma SaveAfterRestoreMaster(layout: Layout, earlier: seq<ViewerWidget>, newMaster: seq<ViewerWidget>)
      requires |newMaster| == |MasterConfigs(layout)| && master == earlier + newMaster
      requires MasterWidgetsFrom(newMaster, MasterConfigs(layout), tables)
      ensures Save().master.value.widgets == SavedConfigs(earlier) + WithMasterDefaults(MasterConfigs(layout))
      ensures FlagsSaved(layout) && earlier == [] ==> Save().master.value.widgets == MasterConfigs(layout)
    {
      var all := Save().master.value.widgets;
      var expected := SavedConfigs(earlier) + WithMasterDefaults(MasterConfigs(layout));
      assert all == SavedConfigs(master);
      forall i | 0 <= i < |all| ensures all[i] == expected[i]
      {
        if i >= |earlier| {
          var c := MasterConfigs(layout)[i - |earlier|];
          assert master[i] == newMaster[i - |earlier|];
          RestoreSaveRoundTrip(WithMasterDefault(c));
        }
      }
      if FlagsSaved(layout) && earlier == [] {
        forall i | 0 <= i < |MasterConfigs(layout)| ensures "master" in MasterConfigs(layout)[i] {
          assert MasterConfigs(layout)[i] in MasterConfigs(layout);
        }
      }
    }

    /** `clearLayout()` and the mounting half of `restore`. */
    method Remount(withMaster: bool, s: Option<seq<real>>)
      modifies this`mounted, this`sizes
      ensures Arr() == Containers.Remount(old(Arr()), side, s, withMaster)
    {
      ClearLayout();
      if withMaster {
        SetupMasterPanel(if s.Some? then s.value else DefaultSizes);
      } else {
        mounted := AddChild(mounted, BoxPanel);
        sizes := [1.0];
      }
    }
  }
}
