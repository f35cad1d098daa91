# perspective-workspace in Dafny

A model of the core of `perspective-workspace`: the `PerspectiveWorkspace`
split panel that holds a master panel of viewer widgets beside a docking
panel of detail widgets, the `PerspectiveViewerWidget` that wraps one
`<perspective-viewer>` element, and the `PerspectiveDockPanel.mapWidgets`
map over the dock's saved layout tree.

Files, each one module:

- `wrappers.dfy` (`Wrappers`): `Option`.
- `seqs.dfy` (`Seqs`): sequence helpers (flatten, remove, index-of, insert-at, duplicate-freedom).
- `config.dfy` (`Config`): viewer configurations as maps from key to a JSON-like value; filters `[column, op, operand]`; JavaScript truthiness.
- `filters.dfy` (`Filters`): the master-to-detail filter pipeline of `onPerspectiveClick`/`filterWidget` as pure functions, with lodash `uniqBy` proved equal to an independent "first occurrence per column" definition.
- `dock_layout.dfy` (`DockLayout`): the layout tree (root `main`, split areas with `children`, tab areas with `widgets`), `mapWidgets` as a functor over it, and the few toolkit layout edits the workspace triggers (reparenting out of the dock, split-right insertion, the single-document view).
- `widget.dfy` (`Viewer`): `class ViewerWidget` with the `master` and `table` setters, `restore`/`save`, attach, close and resize, and `class IdCounter` for the page-wide `ID_COUNTER` behind the `AUTO_ID_n` slot names. Calls into the viewer element are kept as an ordered log.
- `containers.dfy` (`Containers`): what every workspace operation does to the containers, as functions on an `Arrangement` value (mounted children of the top split and their sizes, the master list, the dock tree, the document mode, the one snapshot slot), and the invariants they keep: the master panel is mounted beside the dock on the configured side exactly when it holds a widget (`WellMounted`), and no widget is in both containers or twice in one (`Exclusive`).
- `workspace.dfy` (`Workspace`): `class Workspace` with the table registry, the listener registry, the containers as fields, and one method per operation, each proved to change the containers exactly as the matching `Containers` function does.

The toolkit's reparenting is explicit: adding a widget to the master panel
takes it out of the dock (`RemoveWidget`), adding it to the dock takes it
out of the master list (`Without`), and adding a container to the top split
moves it to the end (`AddChild`).

One consequence the model makes visible: demoting a master widget while
the dock shows a single document, and then leaving that mode, puts back the
layout saved on entry, which does not hold the widget, so it ends in neither
container (`Containers.DetailWhileMaximisedIsDropped`).

Where the code and its documentation differ, the model follows the code:
`clearLayout` closes the children of the top split (the box panel and the
master panel), not the viewer widgets inside them, so a `restore` appends
its master widgets after any that were already in the master panel, and a
layout without master widgets leaves earlier ones in an unmounted master
panel (`Containers.RestoreKeepsEarlierMasters`).

## Model

| member | source | states |
|---|---|---|
| Workspace.LookupAfterSet | packages/perspective-workspace/src/js/phosphor/workspace.js:45-51 | after `addTable(n, t)`, `getTable(n)` is `t` (last write wins), every other name is unchanged, and a name never registered is absent |
| Workspace.Workspace.AddTable | packages/perspective-workspace/src/js/phosphor/workspace.js:45-47 | the registry gains `name -> table`; `GetTable` gives the new table for `name` and the old answer for every other name |
| Workspace.Lookup | packages/perspective-workspace/src/js/phosphor/workspace.js:49-51 | definition: `tables.get(name)`, absent for a name never set; `LookupAfterSet` states its laws |
| Workspace.Workspace.GetTable | packages/perspective-workspace/src/js/phosphor/workspace.js:49-51 | definition: the registry lookup of `name`, whose answers `AddTable` states |
| Workspace.Workspace.constructor | packages/perspective-workspace/src/js/phosphor/workspace.js:23-43 | a new workspace has the dock alone mounted with an empty layout in multiple-document mode, no tables, no listeners, side "left" when none is given, and satisfies `Valid` |
| Workspace.Workspace.GetAllWidgets | packages/perspective-workspace/src/js/phosphor/workspace.js:53-55 | the master widgets then the dock's widgets: exactly the widgets of both containers, and without duplicates when the containers are exclusive |
| Containers.CloseBoth | packages/perspective-workspace/src/js/phosphor/workspace.js:57-64 | closing the box panel and the master panel leaves the top split empty whatever it held |
| Containers.CloseEach | packages/perspective-workspace/src/js/phosphor/workspace.js:58 | definition: `forEach(c => c.close())` over the live children from an index, each close shifting the later ones down; `CloseEachSkipsSecond` states its effect on two children |
| Workspace.Workspace.CloseChildren | packages/perspective-workspace/src/js/phosphor/workspace.js:58 | the loop over the split's live children leaves exactly what `CloseEach` leaves, the child after each closed one skipped |
| Workspace.Workspace.ClearLayout | packages/perspective-workspace/src/js/phosphor/workspace.js:57-64 | after the loop over the children, the box panel and a mounted master panel are closed, so nothing is mounted whatever the loop left |
| Containers.CloseEachSkipsSecond | packages/perspective-workspace/src/js/phosphor/workspace.js:58 | closing the children while walking the live list skips the second of two children, which only the following two closes take away |
| Containers.SetupMasterPanel | packages/perspective-workspace/src/js/phosphor/workspace.js:75-85 | mounting the master panel leaves the widgets, the dock, the mode and the snapshot alone |
| Containers.SetupMasterPanelMounts | packages/perspective-workspace/src/js/phosphor/workspace.js:75-85 | whatever was mounted, the split holds exactly master then dock on the left side (dock then master otherwise), with the sizes given, reversed on the right |
| Workspace.Workspace.SetupMasterPanel | packages/perspective-workspace/src/js/phosphor/workspace.js:75-85 | the split's children and sizes change as `Containers.SetupMasterPanel` says; the master panel is mounted on the configured side |
| Workspace.Register | packages/perspective-workspace/src/js/phosphor/workspace.js:87-102 | one registration always leaves a tracked teardown; on a widget without one it adds one listener of each kind; on a tracked one it replaces each old listener, contextmenu and settings alike, rather than adding one |
| Workspace.RegisterTimesLeavesOne | packages/perspective-workspace/src/js/phosphor/workspace.js:87-102 | after any number (at least one) of registrations of a widget that was fresh or consistently registered, it has exactly one contextmenu listener, one settings listener and one tracked teardown |
| Workspace.Workspace.AddWidgetEventListeners | packages/perspective-workspace/src/js/phosphor/workspace.js:87-102 | the widget's listeners become `Register` of what they were, no other widget's change, and "one of each per registered widget" is kept |
| Workspace.Workspace.NewWidget | packages/perspective-workspace/src/js/phosphor/workspace.js:66-71 | a fresh widget with the next slot name, the given title, closable, its table pending, its master flag and classes from `config.master`, and every other key of `config` forwarded to its viewer |
| Workspace.Workspace.CreateWidget | packages/perspective-workspace/src/js/phosphor/workspace.js:66-73 | the same widget, registered with exactly one listener of each kind, every other registration unchanged |
| Workspace.Workspace.ToggleSingleDocument | packages/perspective-workspace/src/js/phosphor/workspace.js:131-141 | the containers change as `Containers.ToggleSingleDocument` says; entering tells `w` to resize (which reaches the viewer only when visible); `Valid` is kept |
| Containers.ToggleSingleDocument | packages/perspective-workspace/src/js/phosphor/workspace.js:131-141 | definition: entering snapshots the dock and shows one document; leaving restores the snapshot; `ToggleSingleDocumentSpec` and `SingleDocumentRoundTrip` state its properties |
| Containers.SingleDocumentRoundTrip | packages/perspective-workspace/src/js/phosphor/workspace.js:131-141 | toggling twice from multiple-document mode gives back the same dock and mode, with the one snapshot slot holding that layout |
| Containers.ToggleSingleDocumentSpec | packages/perspective-workspace/src/js/phosphor/workspace.js:131-141 | entering overwrites the snapshot with the current dock and shows the same widgets; leaving puts the snapshot back; the master list and mounting are untouched; both invariants are kept |
| DockLayout.SingleDocument | packages/perspective-workspace/src/js/phosphor/workspace.js:133-135 | the single-document view shows exactly the dock's widgets |
| Workspace.Workspace.MoveToMaster | packages/perspective-workspace/src/js/phosphor/workspace.js:174-179 | the containers change as `Containers.MakeMaster` says |
| Containers.MakeMaster | packages/perspective-workspace/src/js/phosphor/workspace.js:171-185 | definition: on an empty master panel, close the box panel and mount both containers at the default sizes; then `w` to the end of the master list and out of the dock; `MakeMasterSpec` and `MakeMasterPreserves` state its properties |
| DockLayout.RemoveWidget | packages/perspective-workspace/src/js/phosphor/workspace.js:179 | definition: `w` taken out of every tab area of the dock; `RemoveWidgetLeaves` states its effect |
| Workspace.Workspace.Promote | packages/perspective-workspace/src/js/phosphor/workspace.js:172-184 | `w` is flagged master with class `p-Master` and not `p-Detail`, a selectable viewer, shown, restyled, and subscribed to clicks; a hidden attached widget is told to resize before the restyle |
| Workspace.Workspace.MakeMaster | packages/perspective-workspace/src/js/phosphor/workspace.js:171-185 | the containers change as `Containers.MakeMaster` says and `w` is promoted as above; `Valid` is kept unless a single-document snapshot still holds `w` |
| Containers.MakeMasterSpec | packages/perspective-workspace/src/js/phosphor/workspace.js:171-185 | `w` moves to the end of the master list, the other master widgets keeping their order, and leaves the dock, which keeps all its other widgets; mode and snapshot are unchanged; an empty master panel is first mounted at 1:3 on the left (3:1 on the right); a non-empty one keeps its mounting and sizes |
| Containers.MakeMasterPreserves | packages/perspective-workspace/src/js/phosphor/workspace.js:171-185 | `makeMaster` keeps the master panel mounted iff non-empty, and keeps the containers exclusive unless a single-document snapshot holds `w` |
| DockLayout.RemoveWidgetLeaves | packages/perspective-workspace/src/js/phosphor/workspace.js:179 | reparenting `w` out of the dock removes exactly `w` from its widgets, order kept |
| Workspace.Workspace.MoveToDock | packages/perspective-workspace/src/js/phosphor/workspace.js:190-196 | the containers change as `Containers.MakeDetail` says |
| Containers.MakeDetail | packages/perspective-workspace/src/js/phosphor/workspace.js:187-200 | definition: `w` out of the master list and into the dock (split-right, or a tab in single-document mode), with a lone remount once the master list is empty; `MakeDetailSpec`, `DockAfterDetail` and `MakeDetailPreserves` state its properties |
| Workspace.Workspace.Demote | packages/perspective-workspace/src/js/phosphor/workspace.js:188-199 | `w` is flagged detail with class `p-Detail` and not `p-Master`, `selectable = null` on its viewer, restyled, and unsubscribed from clicks |
| Workspace.Workspace.MakeDetail | packages/perspective-workspace/src/js/phosphor/workspace.js:187-200 | the containers change as `Containers.MakeDetail` says and `w` is demoted as above; `Valid` is kept |
| Containers.MakeDetailSpec | packages/perspective-workspace/src/js/phosphor/workspace.js:187-200 | `w` leaves the master list and is inserted into the dock's other widgets, as their last in multiple-document mode; once the master list is empty the dock is mounted alone at full size, otherwise the mounting is unchanged |
| Containers.DockAfterDetail | packages/perspective-workspace/src/js/phosphor/workspace.js:190 | the dock after `makeDetail` is its other widgets with `w` inserted once, at the end in multiple-document mode |
| Containers.MakeDetailPreserves | packages/perspective-workspace/src/js/phosphor/workspace.js:187-200 | `makeDetail` keeps the master panel mounted iff non-empty and the containers exclusive |
| DockLayout.AppendRightLeaves | packages/perspective-workspace/src/js/phosphor/workspace.js:190 | a split-right without reference adds `w` as the last widget of the dock |
| DockLayout.AppendRight | packages/perspective-workspace/src/js/phosphor/workspace.js:190 | definition: a new tab area holding `w` at the right edge of the dock |
| DockLayout.AddTabLeaves | packages/perspective-workspace/src/js/phosphor/workspace.js:190 | in single-document mode the added widget is inserted right after the current tab, which stays current, every other widget keeping its order |
| DockLayout.AddTab | packages/perspective-workspace/src/js/phosphor/workspace.js:190 | definition: in single-document mode, `w` inserted right after the current tab of the one tab area |
| Containers.DetailWhileMaximisedIsDropped | packages/perspective-workspace/src/js/phosphor/workspace.js:131-141 | demoting a widget while one document is shown and then leaving that mode leaves the widget in neither container |
| Workspace.Workspace.ToggleMasterDetail | packages/perspective-workspace/src/js/phosphor/workspace.js:120-129 | the containers change as `Containers.ToggleMasterDetail` says; `w` ends flagged master and subscribed to clicks iff it was in the dock; `Valid` is kept |
| Containers.ToggleMasterDetail | packages/perspective-workspace/src/js/phosphor/workspace.js:120-129 | definition: a dock widget is promoted after leaving single-document mode, any other demoted; `ToggleMasterDetailSpec` states its properties |
| Containers.ToggleMasterDetailSpec | packages/perspective-workspace/src/js/phosphor/workspace.js:120-129 | a dock widget ends as the last master widget, out of the dock, in multiple-document mode; any other leaves the master list and is inserted into the dock, as its last widget in multiple-document mode; both invariants are kept |
| Workspace.Workspace.CopyOf | packages/perspective-workspace/src/js/phosphor/workspace.js:111 | the copy is fresh, titled "duplicate", on `w`'s loaded table, with `w`'s master flag and viewer settings (its `save()`), registered once, in neither container |
| Workspace.Workspace.PlaceCopy | packages/perspective-workspace/src/js/phosphor/workspace.js:112-117 | the containers change as `Containers.PlaceCopy` says |
| Containers.PlaceCopy | packages/perspective-workspace/src/js/phosphor/workspace.js:112-117 | definition: the copy inserted after `w` in the master list when `w` is flagged master, else split-right of `w` in the dock; `DuplicatePlacement` and `PlaceCopyPreserves` state its properties |
| Workspace.Workspace.Duplicate | packages/perspective-workspace/src/js/phosphor/workspace.js:107-118 | the containers change as `Containers.Duplicate` says, with the copy as above; `Valid` is kept unless the first master widget is added with no master panel mounted |
| Containers.Duplicate | packages/perspective-workspace/src/js/phosphor/workspace.js:107-118 | definition: leave single-document mode, then place the copy; `DuplicatePlacement` and `DuplicatePreserves` state its properties |
| Containers.DuplicatePlacement | packages/perspective-workspace/src/js/phosphor/workspace.js:107-118 | the dock ends in multiple-document mode; a master `w` gets the copy right after it in the master list (first when `w` is not there); otherwise the copy lands in the dock right after some prefix holding `w`, and only a `w` outside the dock leaves it unplaced |
| Containers.PlaceCopyPreserves | packages/perspective-workspace/src/js/phosphor/workspace.js:112-117 | placing a copy new to the workspace keeps the containers exclusive, and the mounting invariant unless it adds the first master widget |
| Containers.DuplicatePreserves | packages/perspective-workspace/src/js/phosphor/workspace.js:107-118 | the same for the whole `duplicate`, single-document exit included |
| DockLayout.SplitRightLeaves | packages/perspective-workspace/src/js/phosphor/workspace.js:116 | a split-right fails only for a reference outside the dock; otherwise the dock holds the old widgets and the new one, the new one last without reference, and stays duplicate-free |
| DockLayout.SplitRight | packages/perspective-workspace/src/js/phosphor/workspace.js:116 | definition: split-right of a reference widget, or at the right edge without one; the toolkit's error for a reference outside the dock as `None` |
| Filters.Candidates | packages/perspective-workspace/src/js/phosphor/workspace.js:160-162 | the candidates are exactly the row pivots, column pivots and filtered columns of the clicked panel, a missing field counting as empty |
| Filters.ColumnAvailable | packages/perspective-workspace/src/js/phosphor/workspace.js:151 | definition: a filter's column is non-empty and in the detail panel's schema |
| Filters.KeepAvailable | packages/perspective-workspace/src/js/phosphor/workspace.js:151-152 | an incoming filter is kept iff its column is non-empty and in the detail panel's schema |
| Filters.KeepAvailableIsFilter | packages/perspective-workspace/src/js/phosphor/workspace.js:152 | keeping the available filters is `Array.filter`: it splits over concatenation and keeps a single filter iff its column is available, so the passing filters stay in order and as often as given |
| Filters.KeepUnrelated | packages/perspective-workspace/src/js/phosphor/workspace.js:154 | a current filter is kept iff its column is not a candidate |
| Filters.KeepUnrelatedIsFilter | packages/perspective-workspace/src/js/phosphor/workspace.js:154 | the same `Array.filter` laws for "column not a candidate" |
| Filters.UniqFrom | packages/perspective-workspace/src/js/phosphor/workspace.js:155 | deduplication keeps only filters it was given, at most one per column, and every column represented |
| Filters.UniqByColumn | packages/perspective-workspace/src/js/phosphor/workspace.js:155 | definition: `uniqBy(s, f => f[0])`, which `UniqByColumnIsFirstOccurrences` relates to its reference definition |
| Filters.UniqByColumnIsFirstOccurrences | packages/perspective-workspace/src/js/phosphor/workspace.js:155 | `uniqBy` by column is the subsequence of filters that come first on their column, in their original order |
| Filters.FirstOccurrenceKept | packages/perspective-workspace/src/js/phosphor/workspace.js:155 | the first filter on any column always survives deduplication |
| Filters.PropagatedFilters | packages/perspective-workspace/src/js/phosphor/workspace.js:150-155 | definition: the available incoming filters, then the current ones off the candidates, deduplicated by column |
| Filters.FirstOnFirstOfColumn | packages/perspective-workspace/src/js/phosphor/workspace.js:155 | the filter first on its column is the one looked up for that column |
| Filters.PropagatedFiltersSpec | packages/perspective-workspace/src/js/phosphor/workspace.js:150-155 | every kept filter is an incoming one the schema has or a current one off the candidates; one per column; every such column represented; on a column an available incoming filter mentions, the survivor is the first available incoming filter on it |
| Filters.PropagatedFiltersInOrder | packages/perspective-workspace/src/js/phosphor/workspace.js:152-155 | the result is, in order, the first filter on each column of the available incoming filters followed by the kept current ones |
| Filters.PropagationExample | packages/perspective-workspace/src/js/phosphor/workspace.js:150-155 | master pivoted on region, click on EMEA, detail with region APAC and year 2020: the detail ends with region EMEA then year 2020 |
| Workspace.FilterUpdateHasNoMaster | packages/perspective-workspace/src/js/phosphor/workspace.js:156 | the `{filters}` update carries no `master` key: all of it reaches the viewer and the flag it restores is `undefined` |
| Workspace.RefilteredSpec | packages/perspective-workspace/src/js/phosphor/workspace.js:146-158 | a dock widget with a loaded table ends with exactly the propagated filters, every other setting kept, styled detail and not selectable, and its viewer told only about the filters |
| Workspace.Workspace.Refilter | packages/perspective-workspace/src/js/phosphor/workspace.js:147-156 | one widget ends as `Refiltered` of its earlier state, with its loaded table and the schema's columns |
| Workspace.Workspace.FilterWidget | packages/perspective-workspace/src/js/phosphor/workspace.js:146-158 | every dock widget ends as `Refiltered` of its own earlier state |
| Workspace.Workspace.OnPerspectiveClick | packages/perspective-workspace/src/js/phosphor/workspace.js:160-165 | every dock widget ends as `Refiltered` with the clicked panel's candidates and the click's filters |
| Workspace.FilterUpdate | packages/perspective-workspace/src/js/phosphor/workspace.js:156 | definition: the `{filters}` configuration with the propagated filters; `FilterUpdateHasNoMaster` states what it forwards |
| Workspace.Refiltered | packages/perspective-workspace/src/js/phosphor/workspace.js:146-158 | definition: one dock widget restored with its `FilterUpdate`, or left alone without a loaded table; `RefilteredSpec` states its effect |
| Workspace.SavedConfigs | packages/perspective-workspace/src/js/phosphor/workspace.js:234 | one saved configuration per widget, in order, each with the widget's master flag and viewer settings |
| Workspace.Workspace.Save | packages/perspective-workspace/src/js/phosphor/workspace.js:232-243 | the layout holds the split's sizes in display order, the master panel's sizes as the constructor or `restore` last set them, and one saved configuration per master widget in order, and the dock tree with the same shape whose leaves are the saved configurations of the dock's widgets, in order; every saved configuration carries its `master` flag |
| Workspace.WithMasterDefault | packages/perspective-workspace/src/js/phosphor/workspace.js:258 | a restored master configuration is flagged `true` only when it has no `master` of its own; its viewer part is unchanged |
| Workspace.WithMasterDefaults | packages/perspective-workspace/src/js/phosphor/workspace.js:255-260 | the master default applied to each configuration of a list, which leaves a list whose configurations all have a flag unchanged |
| Workspace.Workspace.SaveAfterRestore | packages/perspective-workspace/src/js/phosphor/workspace.js:232-275 | `save()` after `restore(layout)` gives back the layout: earlier master widgets' configurations then the layout's master configurations with the master default, the master panel's sizes when given (as given, not padded to the panel's widget count), the dock tree with the same shape and each leaf's flag and viewer settings, and, when there are master widgets, the split's sizes as given on the left side and reversed on the right; on the left side the very same layout when its configurations carry their flags, all its sizes are given, it has master widgets and the master panel was empty; `SaveMasterFirst` gives that layout back on either side |
| Workspace.Workspace.SaveAfterRestoreSpec | packages/perspective-workspace/src/js/phosphor/workspace.js:232-275 | the same round trip, stated on the state `restore` leaves |
| Workspace.Workspace.SaveMasterFirst | packages/perspective-workspace/src/js/phosphor/workspace.js:237-241 | the corrected `save()`: the split's sizes master first (reversed from display order on the right), everything else as `save()`, and `save()` itself on the left side |
| Workspace.Workspace.SaveAfterRestoreMaster | packages/perspective-workspace/src/js/phosphor/workspace.js:233-236 | the saved master widgets are the earlier ones' configurations followed by the restored configurations with the master default |
| Workspace.Workspace.SaveAfterRestoreDetail | packages/perspective-workspace/src/js/phosphor/workspace.js:238-240 | the saved dock tree has the restored tree's shape and each leaf's flag and viewer settings, and is that tree when every leaf carries its flag |
| Workspace.SavedMasterFlagWins | packages/perspective-workspace/src/js/phosphor/workspace.js:258 | a saved configuration restored into the master panel keeps the flag it was saved with, whatever it is |
| Containers.Remount | packages/perspective-workspace/src/js/phosphor/workspace.js:246-251 | only the mounting changes; with master widgets both containers are mounted, otherwise the dock alone |
| Containers.AppendMaster | packages/perspective-workspace/src/js/phosphor/workspace.js:253-262 | definition: the new master widgets appended to the master list, the panel's sizes taken when given |
| Containers.RestoreLayout | packages/perspective-workspace/src/js/phosphor/workspace.js:266-274 | definition: the dock takes the restored tree in multiple-document mode |
| Containers.Restore | packages/perspective-workspace/src/js/phosphor/workspace.js:245-275 | definition: remount, append the master widgets, restore the dock; `RestoreSpec` states its properties |
| Workspace.Workspace.Remount | packages/perspective-workspace/src/js/phosphor/workspace.js:246-251 | the split's children and sizes change as `Containers.Remount` says |
| Workspace.Workspace.CreateMasterWidget | packages/perspective-workspace/src/js/phosphor/workspace.js:255-260 | a fresh, registered widget made from the configuration with the master default, subscribed to clicks |
| Workspace.Workspace.AddMasterWidget | packages/perspective-workspace/src/js/phosphor/workspace.js:254-262 | one more such widget, appended to the master list and to the widgets made so far, which stay duplicate-free and registered |
| Workspace.Workspace.AddMasterWidgets | packages/perspective-workspace/src/js/phosphor/workspace.js:253-262 | one new widget per master configuration, in order, appended to the master list, fresh, duplicate-free, registered once |
| Workspace.Workspace.RestoreMaster | packages/perspective-workspace/src/js/phosphor/workspace.js:253-264 | the containers change as `Containers.AppendMaster` says, with the master panel's sizes taken from the layout when given |
| Workspace.Workspace.AddDetailWidget | packages/perspective-workspace/src/js/phosphor/workspace.js:267-272 | a fresh, registered widget made from one leaf configuration, not subscribed to clicks |
| Workspace.Workspace.CreateDetailWidgets | packages/perspective-workspace/src/js/phosphor/workspace.js:266-273 | one new widget per leaf configuration, left to right, fresh, duplicate-free, registered once |
| Workspace.Workspace.RestoreDetail | packages/perspective-workspace/src/js/phosphor/workspace.js:266-274 | the dock takes the detail tree with each leaf replaced by its new widget, in multiple-document mode |
| Workspace.Workspace.Restore | packages/perspective-workspace/src/js/phosphor/workspace.js:245-275 | the containers change as `Containers.Restore` says; the new master and detail widgets are fresh, distinct, registered once, and made from the layout's configurations in order |
| Workspace.Workspace.RestoreValid | packages/perspective-workspace/src/js/phosphor/workspace.js:245-275 | `restore` keeps `Valid` when the master panel was empty or the layout brings master widgets |
| Containers.RestoreSpec | packages/perspective-workspace/src/js/phosphor/workspace.js:245-275 | earlier master widgets stay ahead of the new ones, the dock is the restored tree in multiple-document mode, the master panel is mounted iff the layout brings master widgets (with the layout's sizes, else 1:3, reversed on the right), the mounting invariant holds iff the master panel was empty or the layout has master widgets, and exclusivity is kept |
| Containers.SavedSizesRoundTrip | packages/perspective-workspace/src/js/phosphor/workspace.js:75-85 | sizes saved master first come back from `restore` as given and restore to the same split sizes, on either side |
| Containers.RightSideSizesFlip | packages/perspective-workspace/src/js/phosphor/workspace.js:83 | on the right side, sizes 1:3 restore as 3:1 in display order, and restoring those again shows 1:3: the proportions swap |
| Containers.SavedSizes | packages/perspective-workspace/src/js/phosphor/workspace.js:75-85 | definition: the split's sizes master first, the order `setupMasterPanel` reads them in |
| Containers.RestoreKeepsEarlierMasters | packages/perspective-workspace/src/js/phosphor/workspace.js:246-251 | restoring a layout without master widgets keeps earlier master widgets in an unmounted master panel |
| Viewer.ViewerWidget.constructor | packages/perspective-workspace/src/js/workspace/widget.js:16-24 | a new widget takes the next slot name, its title, and keeps its table pending until attached |
| Viewer.IdCounter.CreateNode | packages/perspective-workspace/src/js/workspace/widget.js:103-105 | each call returns `AUTO_ID_n` for the current counter and increments it |
| Viewer.SlotNamesDistinct | packages/perspective-workspace/src/js/workspace/widget.js:103-105 | different counter values give different slot names |
| Viewer.NatToStringInjective | packages/perspective-workspace/src/js/workspace/widget.js:105 | the decimal rendering of the counter is injective |
| Viewer.ViewerWidget.SetMaster | packages/perspective-workspace/src/js/workspace/widget.js:26-41 | the getter returns the value set; the viewer has exactly one of `p-Master` (truthy, `selectable = true`) and `p-Detail` (otherwise, `selectable = null`), other classes kept |
| Viewer.ViewerWidget.SetTable | packages/perspective-workspace/src/js/workspace/widget.js:43-53 | attached, the table is loaded into the viewer at once (and is what the getter returns); detached, it is only kept pending and the getter is unchanged |
| Viewer.ViewerWidget.GetTable | packages/perspective-workspace/src/js/workspace/widget.js:51-53 | definition: the table the viewer has loaded, never the pending one; `SetTable` and `AttachTwice` state what it returns |
| Viewer.ViewerWidget.Restore | packages/perspective-workspace/src/js/workspace/widget.js:59-63 | the master flag comes from `config.master`; every other key, and never `master`, is forwarded to the viewer |
| Viewer.ViewerPart | packages/perspective-workspace/src/js/workspace/widget.js:60 | the forwarded part is `config` without `master`, every other key kept |
| Viewer.ViewerWidget.Save | packages/perspective-workspace/src/js/workspace/widget.js:65-70 | the viewer's settings plus the master flag, which overrides a viewer-supplied one |
| Viewer.Saved | packages/perspective-workspace/src/js/workspace/widget.js:65-70 | a saved configuration has `master` set to the flag and otherwise the viewer's settings |
| Viewer.Merge | packages/perspective-workspace/src/js/workspace/widget.js:62 | the viewer's restore: given keys replace, others stay |
| Viewer.MergeIntoEmpty | packages/perspective-workspace/src/js/phosphor/workspace.js:71 | a new viewer restored with a configuration holds exactly that configuration |
| Viewer.SaveRestoreRoundTrip | packages/perspective-workspace/src/js/workspace/widget.js:59-70 | `restore(save())` gives back the same master flag and the same viewer settings |
| Viewer.ViewerPartOfSaved | packages/perspective-workspace/src/js/workspace/widget.js:59-70 | what a saved configuration forwards is the viewer's own settings minus any `master` of theirs |
| Viewer.RestoreSaveRoundTrip | packages/perspective-workspace/src/js/workspace/widget.js:59-70 | `save()` after `restore(config)` gives back the flag and the viewer settings, and `config` itself when it has a `master` key |
| Viewer.RestoreIdempotent | packages/perspective-workspace/src/js/workspace/widget.js:59-63 | restoring the same configuration twice is restoring it once |
| Viewer.ViewerWidget.OnAfterAttach | packages/perspective-workspace/src/js/workspace/widget.js:72-78 | a pending table is loaded once and then cleared; without one nothing is loaded |
| Viewer.AttachTwice | packages/perspective-workspace/src/js/workspace/widget.js:72-78 | attaching twice loads the pending table at most once |
| Viewer.ViewerWidget.OnCloseRequest | packages/perspective-workspace/src/js/workspace/widget.js:80-84 | the viewer is deleted before its element is removed from its parent |
| Viewer.ViewerWidget.NotifyResize | packages/perspective-workspace/src/js/workspace/widget.js:96-100 | the viewer is told to resize only while the widget is visible |
| Viewer.ViewerWidget.OnResize | packages/perspective-workspace/src/js/workspace/widget.js:86-94 | showing and resizing forward to `notifyResize` |
| Viewer.ViewerWidget.Show | packages/perspective-workspace/src/js/phosphor/workspace.js:180 | a shown widget is no longer hidden and, if attached, tells its viewer to resize |
| DockLayout.MapWidgets | packages/perspective-workspace/src/js/workspace/dockpanel.js:29-38 | the result has the same shape: kinds of node, orientation, sizes, current index, number of children and of widgets |
| DockLayout.MapWidgetsLeaves | packages/perspective-workspace/src/js/workspace/dockpanel.js:31-35 | the function is applied to every leaf widget exactly once, left to right, and to nothing else |
| DockLayout.MapWidgetsIdentity | packages/perspective-workspace/src/js/workspace/dockpanel.js:29-38 | mapping with the identity leaves the tree equal |
| DockLayout.MapWidgetsCompose | packages/perspective-workspace/src/js/workspace/dockpanel.js:29-38 | mapping `f` then `g` is mapping `g` after `f` |
| DockLayout.MapWidgetsNoLeaves | packages/perspective-workspace/src/js/workspace/dockpanel.js:29-38 | a tree without widgets, such as `{main: null}`, comes back unchanged |
| DockLayout.MapWidgetsIsRefill | packages/perspective-workspace/src/js/workspace/dockpanel.js:29-38 | mapping is refilling the same tree with the function of each leaf in order, which is how `restore` builds the dock from widgets created leaf by leaf |
| DockLayout.Refill | packages/perspective-workspace/src/js/workspace/dockpanel.js:29-38 | a refilled tree has exactly the given leaves |
| DockLayout.RefillShape | packages/perspective-workspace/src/js/workspace/dockpanel.js:33-35 | refilling changes nothing but the leaves |
| DockLayout.RefillSelf | packages/perspective-workspace/src/js/workspace/dockpanel.js:29-38 | a tree refilled with its own leaves is itself |
| DockLayout.RefillRefill | packages/perspective-workspace/src/js/workspace/dockpanel.js:29-38 | refilling twice is refilling once with the last leaves |

## Findings

| source | as written | input that shows it | evidently intended | confidence | as-written member | corrected member |
|---|---|---|---|---|---|---|
| packages/perspective-workspace/src/js/phosphor/workspace.js:83, 239, 248 | `setupMasterPanel` reverses the given sizes on the right side, but `save()` stores the split's sizes in display order, so `restore(save())` on the right side reverses them again | side "right", `restore` with sizes [1, 3]; the split shows [3, 1] (master 1 part, dock 3), `save()` gives [3, 1], and restoring that shows [1, 3] (master 3 parts, dock 1) | sizes saved master first, so that restoring a saved layout keeps the proportions on either side, as `Workspace.Workspace.SaveMasterFirst` does | medium, not executed | Containers.RightSideSizesFlip | Containers.SavedSizesRoundTrip |

## Left out

- Asynchrony: `notifyResize`, `onCloseRequest` and the `forEach(async ...)` of `filterWidget` await promises; the model runs each body to completion in order, so interleavings between widgets are not modelled. The close ordering is kept as the order of calls in the viewer's log.
- `filterWidget` reads each detail viewer's schema with `await widget.table.schema()`; the schema's column names are a parameter `schema: Table -> seq<string>`. A widget without a loaded table makes that callback throw, so it is left unchanged.
- The DOM: `element.appendChild(widget.viewer)`, the slot and div elements of `createNode` (only the slot name is kept), CSS classes other than `p-Master`/`p-Detail`, and the title's `settings_open` class set by the settings listener.
- `widget.selectable = true/false` in `makeMaster`/`makeDetail` sets a property on the toolkit widget that nothing reads; the viewer's own `selectable`, set by the `master` setter, is modelled.
- Context menus and commands: `createContextMenu`, `showContextMenu`, `toggleConfig` (a one-line forward to the viewer), and commands.js, which only dispatches to the modelled operations.
- The docking toolkit: `saveLayout`/`restoreLayout`, `dockpanel.save()` (discrete.js is not part of this model; it is taken as the layout tree with each widget replaced by its `save()`), split geometry, activation and tab switching. The split-right insertion is modelled by its effect on which widgets the tree holds and in what order, and the tab insertion in single-document mode as placing the widget after the current tab of the one tab area; new areas get a fixed weight, and the current tab index is not adjusted nor empty areas collapsed when a widget leaves a tab area.
- Relative sizes are opaque sequences of reals; the only operation on them is reversal. The toolkit's normalisation of sizes, and the size it gives a widget that joins a split, are not modelled.
- Workspace.Workspace.Save: the master panel's sizes are the ones the constructor (none) or `restore` last set; they are not updated when `makeMaster`, `makeDetail` or `duplicate` add widgets to the panel or take them out, nor padded to the panel's widget count as the toolkit's `setRelativeSizes` and `relativeSizes()` do, so the saved master sizes need not have one entry per master widget.
- Attach, detach, show and resize messages other than the handlers of the widget itself; `isAttached`/`isHidden` are fields the toolkit sets.
- The `master` flag of a widget and its membership of the master panel are separate state, as in the source: a restored configuration may put a widget flagged `false` into the master panel, and `filterWidget` resets the flag of dock widgets to `undefined`.
- `mapWidgets` reassigns the fields of the layout object it is given; the model returns a new tree and does not capture that the caller's `layout.detail` is changed in place.
- Click events: `[...event.detail.config.filters]` is taken to be a list of filters; a click event without one is not modelled.
- Workspace.Workspace.FilterWidget: requires the dock's widgets to be distinct, which `Valid` guarantees; the source does not check it.
- Workspace.Workspace.OnPerspectiveClick: the same requirement as `FilterWidget`.
- Workspace.Workspace.Restore: states how the containers change and what the new widgets are; that `Valid` survives is stated separately by `RestoreValid`, and only when the master panel was empty or the layout brings master widgets, since otherwise the earlier master widgets stay in an unmounted panel.
- Workspace.Workspace.Duplicate: `Valid` is kept only when a master copy joins a non-empty master panel; a copy of a widget flagged master but outside the master panel is inserted into it without the panel being mounted, as the source does.
- Workspace.Workspace.MakeMaster: `Valid` is kept only when no single-document snapshot still holds the widget, since leaving that mode would put it back in the dock.
- DockLayout.AddTab: a widget added in single-document mode to a dock that is not one tab area (which that mode does not produce) goes to the dock's right edge; the toolkit also hides the inserted tab, which is not modelled.
- Workspace.Workspace.SaveAfterRestore: the saved master sizes are the layout's `master.sizes` as given; they are not padded or cut to the master panel's widget count, which includes the earlier master widgets. The configurations of master widgets that were already in the master panel are stated as they save after `restore`, which does not change them; the toolkit's `dockpanel.save()` is taken to give back the tree it was given.
