/**
 * `PerspectiveViewerWidget` (workspace/widget.js): the dock/master widget
 * wrapping one `<perspective-viewer>` element. The viewer itself is an
 * outside collaborator; what the widget does to it is kept as its state
 * (classes, `selectable`, loaded table, settings) and as the ordered log of
 * calls the widget makes into it.
 */
module Viewer {
  import opened Wrappers
  import opened Config

  /** A data-source handle: opaque, compared by identity. */
  datatype Table = Table(id: nat)

  /** A call the widget makes into its viewer element, in order. */
  datatype ViewerCall =
    | Load(table: Option<Table>)
    | RestoreViewer(config: Config)
    | NotifyResize
    | Restyle
    | Delete
    | RemoveFromParent

  const MasterClass: string := "p-Master"
  const DetailClass: string := "p-Detail"

  /*********************************************************************
   * Slot names: `AUTO_ID_${ID_COUNTER++}`
   */

  function Digit(d: nat): char
    requires d < 10
  {
    "0123456789"[d]
  }

  /** Decimal rendering of a counter value, as a template literal prints it. */
  function NatToString(n: nat): (s: string)
    ensures |s| >= 1
    ensures n >= 10 ==> |s| >= 2
    decreases n
  {
    if n < 10 then [Digit(n)] else NatToString(n / 10) + [Digit(n % 10)]
  }

  lemma {:induction false} NatToStringInjective(m: nat, n: nat)
    requires NatToString(m) == NatToString(n)
    ensures m == n
    decreases n
  {
    var s, t := NatToString(m), NatToString(n);
    assert s[|s| - 1] == Digit(m % 10) && t[|t| - 1] == Digit(n % 10);
    assert m % 10 == n % 10;
    if m >= 10 && n >= 10 {
      assert NatToString(m / 10) == s[..|s| - 1] == t[..|t| - 1] == NatToString(n / 10);
      NatToStringInjective(m / 10, n / 10);
    }
  }

  function SlotName(n: nat): string
  {
    "AUTO_ID_" + NatToString(n)
  }

  /** Different counter values never give the same slot name. */
  lemma SlotNamesDistinct(m: nat, n: nat)
    requires m != n
    ensures SlotName(m) != SlotName(n)
  {
    if SlotName(m) == SlotName(n) {
      assert NatToString(m) == SlotName(m)[8..] == SlotName(n)[8..] == NatToString(n);
      NatToStringInjective(m, n);
    }
  }

  /** The module-level `ID_COUNTER` shared by every widget of the page. */
  class IdCounter {
    var next: nat

    constructor ()
      ensures next == 0
    {
      next := 0;
    }

    /** `createNode`: the slot name for the next widget; the counter only grows. */
    method CreateNode() returns (name: string)
      modifies this
      ensures name == SlotName(old(next)) && next == old(next) + 1
    {
      name := SlotName(next);
      next := next + 1;
    }
  }

  /*********************************************************************
   * What `restore` and `save` do to a configuration
   */

  /** `const {master, ...viewerConfig} = config`: the master part. */
  function MasterOf(config: Config): Value
  {
    Get(config, "master")
  }

  /** The rest, forwarded to the viewer: every key but `master`. */
  function ViewerPart(config: Config): (r: Config)
    ensures "master" !in r
    ensures forall k :: k in config && k != "master" ==> k in r && r[k] == config[k]
    ensures forall k :: k in r ==> k in config
  {
    config - {"master"}
  }

  /** `{...viewer.save(), master}`: the viewer's settings with `master` overriding any of its own. */
  function Saved(settings: Config, master: Value): (r: Config)
    ensures "master" in r && r["master"] == master
    ensures forall k :: k in settings && k != "master" ==> k in r && r[k] == settings[k]
    ensures forall k :: k in r ==> k in settings || k == "master"
  {
    settings["master" := master]
  }

  /** The viewer's own `restore`: the given settings replace, the others stay. */
  function Merge(settings: Config, update: Config): (r: Config)
    ensures forall k :: k in update ==> k in r && r[k] == update[k]
    ensures forall k :: k in settings && k !in update ==> k in r && r[k] == settings[k]
    ensures forall k :: k in r ==> k in settings || k in update
  {
    settings + update
  }

  /** A viewer with no settings of its own ends with exactly what it is given. */
  lemma MergeIntoEmpty(update: Config)
    ensures Merge(map[], update) == update
  {
    assert forall k :: k in Merge(map[], update) <==> k in update;
  }

  /** `restore(save())` gives back the same master flag and the same viewer settings. */
  lemma SaveRestoreRoundTrip(settings: Config, master: Value)
    ensures MasterOf(Saved(settings, master)) == master
    ensures Merge(settings, ViewerPart(Saved(settings, master))) == settings
  {
    var r := Merge(settings, ViewerPart(Saved(settings, master)));
    assert forall k :: k in r <==> k in settings;
    assert forall k :: k in r ==> r[k] == settings[k];
  }

  /** What a saved configuration forwards to a viewer is the viewer's own settings, minus any `master` of theirs. */
  lemma ViewerPartOfSaved(settings: Config, master: Value)
    ensures ViewerPart(Saved(settings, master)) == ViewerPart(settings)
  {
  }

  /**
   * A widget whose flag and viewer settings came from `config` (as a new
   * widget restored with it) saves back the same flag and settings, and
   * exactly `config` when it carries its own `master`.
   */
  lemma RestoreSaveRoundTrip(config: Config)
    ensures MasterOf(Saved(ViewerPart(config), MasterOf(config))) == MasterOf(config)
    ensures ViewerPart(Saved(ViewerPart(config), MasterOf(config))) == ViewerPart(config)
    ensures "master" in config ==> Saved(ViewerPart(config), MasterOf(config)) == config
  {
  }

  /** Restoring the same configuration twice is the same as restoring it once. */
  lemma RestoreIdempotent(settings: Config, config: Config)
    ensures Merge(Merge(settings, ViewerPart(config)), ViewerPart(config)) == Merge(settings, ViewerPart(config))
  {
    var once := Merge(settings, ViewerPart(config));
    var twice := Merge(once, ViewerPart(config));
    assert forall k :: k in twice <==> k in once;
    assert forall k :: k in twice ==> twice[k] == once[k];
  }

  class ViewerWidget {
    var titleLabel: Value            // title.label
    var closable: bool               // title.closable
    var slot: string                 // the slot name from `createNode`
    var masterValue: Value           // _master
    var classes: set<string>         // viewer.classList
    var selectable: Value            // viewer.selectable
    var pendingTable: Option<Table>  // _table; None once deleted or never truthy
    var loadedTable: Option<Table>   // viewer.table
    var settings: Config             // what viewer.save() returns
    var calls: seq<ViewerCall>       // every call into the viewer, in order
    var attached: bool               // isAttached
    var hidden: bool                 // isHidden
    var clickListener: bool          // the workspace's one "perspective-click" handler

    /** `isVisible` */
    predicate IsVisible()
      reads this
    {
      attached && !hidden
    }

    /** `new PerspectiveViewerWidget({title, table})`: detached, so the table waits. */
    constructor (title: Value, table: Option<Table>, ids: IdCounter)
      modifies ids
      ensures ids.next == old(ids.next) + 1 && slot == SlotName(old(ids.next))
      ensures titleLabel == title && !closable
      ensures pendingTable == table && loadedTable == None && calls == []
      ensures masterValue == Undefined && classes == {} && selectable == Undefined
      ensures settings == map[] && !attached && !hidden
      ensures !clickListener
    {
      var name := ids.CreateNode();
      slot := name;
      titleLabel, closable := title, false;
      pendingTable, loadedTable, calls := table, None, [];
      masterValue, classes, selectable := Undefined, {}, Undefined;
      settings, attached, hidden := map[], false, false;
      clickListener := false;
    }

    /** `get master()` */
    function Master(): Value
      reads this`masterValue
    {
      masterValue
    }

    /**
     * `set master(value)`: exactly one of the two classes, `p-Master` with a
     * selectable viewer for a truthy value, `p-Detail` and `selectable = null`
     * otherwise; any other class is left alone.
     */
    method SetMaster(value: Value)
      modifies this`masterValue, this`classes, this`selectable
      ensures Master() == value
      ensures MasterClass in classes <==> Truthy(value)
      ensures DetailClass in classes <==> !Truthy(value)
      ensures selectable == if Truthy(value) then Bool(true) else Null
      ensures classes == if Truthy(value) then old(classes) + {MasterClass} - {DetailClass}
                         else old(classes) + {DetailClass} - {MasterClass}
    {
      if Truthy(value) {
        classes := classes + {MasterClass} - {DetailClass};
        selectable := Bool(true);
      } else {
        classes := classes + {DetailClass} - {MasterClass};
        selectable := Null;
      }
      masterValue := value;
    }

    /** `set table(value)`: loaded at once when attached, otherwise kept pending. */
    method SetTable(value: Option<Table>)
      modifies this`pendingTable, this`loadedTable, this`calls
      ensures old(attached) ==> calls == old(calls) + [Load(value)] && loadedTable == value
                                && pendingTable == old(pendingTable)
      ensures !old(attached) ==> pendingTable == value && calls == old(calls) && loadedTable == old(loadedTable)
    {
      if attached {
        calls := calls + [Load(value)];
        loadedTable := value;
      } else {
        pendingTable := value;
      }
    }

    /** `get table()`: what the viewer has loaded, never the pending value. */
    function GetTable(): Option<Table>
      reads this`loadedTable
    {
      loadedTable
    }

    /** `restore(config)`: the master flag from `config.master`, every other key to the viewer. */
    method Restore(config: Config)
      modifies this`masterValue, this`classes, this`selectable, this`settings, this`calls
      ensures Master() == MasterOf(config)
      ensures MasterClass in classes <==> Truthy(MasterOf(config))
      ensures DetailClass in classes <==> !Truthy(MasterOf(config))
      ensures selectable == if Truthy(MasterOf(config)) then Bool(true) else Null
      ensures classes == if Truthy(MasterOf(config)) then old(classes) + {MasterClass} - {DetailClass}
                         else old(classes) + {DetailClass} - {MasterClass}
      ensures calls == old(calls) + [RestoreViewer(ViewerPart(config))]
      ensures settings == Merge(old(settings), ViewerPart(config))
    {
      SetMaster(MasterOf(config));
      calls := calls + [RestoreViewer(ViewerPart(config))];
      settings := Merge(settings, ViewerPart(config));
    }

    /** `save()`: the viewer's settings plus the master flag, which wins over a viewer-supplied one. */
    method Save() returns (config: Config)
      ensures config == Saved(settings, Master())
      ensures MasterOf(config) == Master()
    {
      config := settings["master" := masterValue];
    }

    /** `onAfterAttach`: a truthy pending table is loaded once and then forgotten. */
    method OnAfterAttach()
      modifies this`attached, this`pendingTable, this`loadedTable, this`calls
      ensures attached && pendingTable == None
      ensures old(pendingTable).Some? ==> calls == old(calls) + [Load(old(pendingTable))] && loadedTable == old(pendingTable)
      ensures old(pendingTable).None? ==> calls == old(calls) && loadedTable == old(loadedTable)
    {
      attached := true;
      if pendingTable.Some? {
        calls := calls + [Load(pendingTable)];
        loadedTable := pendingTable;
        pendingTable := None;
      }
    }

    /** `onCloseRequest`: detach, then tear the viewer down, and only then take its element out. */
    method OnCloseRequest()
      modifies this`attached, this`calls
      ensures !attached
      ensures calls == old(calls) + [Delete, RemoveFromParent]
    {
      attached := false;
      calls := calls + [Delete];
      calls := calls + [RemoveFromParent];
    }

    /** `notifyResize`: reaches the viewer only while the widget is visible. */
    method NotifyResize()
      modifies this`calls
      ensures calls == if IsVisible() then old(calls) + [ViewerCall.NotifyResize] else old(calls)
    {
      if IsVisible() {
        calls := calls + [ViewerCall.NotifyResize];
      }
    }

    /** `onAfterShow` / `onResize`: both forward to `notifyResize`. */
    method OnResize()
      modifies this`calls
      ensures calls == if IsVisible() then old(calls) + [ViewerCall.NotifyResize] else old(calls)
    {
      NotifyResize();
    }

    /** The toolkit's `show()`, as `makeMaster` uses it: unhide, and a visible widget is told to resize. */
    method Show()
      modifies this`hidden, this`calls
      ensures !hidden
      ensures calls == if attached then old(calls) + [ViewerCall.NotifyResize] else old(calls)
    {
      hidden := false;
      NotifyResize();
    }
  }

  /** A second attach loads nothing: the pending table is flushed exactly once. */
  method AttachTwice(w: ViewerWidget)
    modifies w
    ensures w.calls == old(w.calls) + (if old(w.pendingTable).Some? then [Load(old(w.pendingTable))] else [])
  {
    w.OnAfterAttach();
    w.OnAfterAttach();
  }
}
