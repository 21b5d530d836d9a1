/**
 * The file explorer's context menu: which entries it offers, in what
 * order, and which of them are disabled, given the state of the explorer.
 * Icons and click handlers are not modelled; what `canShare` answers for an
 * item is a field of that item.
 */
module ContextMenu {

  /** A file or folder as the menu sees it. */
  datatype DriveItem = DriveItem(
    isFile: bool,         // stat.isFile()
    driveWritable: bool,  // drive.writable
    shareable: bool)      // what canShare answers for it

  /** The part of the explorer's state the menu depends on. */
  datatype AppState = AppState(
    selection: seq<DriveItem>,
    pathIsFile: bool,           // pathInfo.isFile()
    locationAsItem: DriveItem,  // the item at the current location
    isViewingQuery: bool,
    currentDriveWritable: bool) // currentDriveInfo.writable

  /** A menu entry: a separator, or a labelled item (an absent `disabled` is false). */
  datatype MenuItem = Sep | Item(title: string, disabled: bool)

  /** The `reduce` over the selection: `acc && v.drive.writable` from left to right. */
  function FoldWritable(acc: bool, items: seq<DriveItem>): (r: bool)
    ensures r <==> acc && forall i :: 0 <= i < |items| ==> items[i].driveWritable
  {
    if items == [] then acc
    else FoldWritable(acc && items[0].driveWritable, items[1..])
  }

  /** Whether every selected item's drive is writable; true for an empty selection. */
  function Writable(selection: seq<DriveItem>): (r: bool)
    ensures r <==> forall i :: 0 <= i < |selection| ==> selection[i].driveWritable
    ensures selection == [] ==> r
  {
    FoldWritable(true, selection)
  }

  /** The single-item menu is shown for exactly one selected item, or whenever the location is a file. */
  predicate SingleItemView(app: AppState) {
    |app.selection| == 1 || app.pathIsFile
  }

  /** The item the single-item menu is about: the first selected one, else the location. */
  function Subject(app: AppState): DriveItem {
    if |app.selection| > 0 then app.selection[0] else app.locationAsItem
  }

  predicate HasLabel(items: seq<MenuItem>, title: string) {
    exists i :: 0 <= i < |items| && items[i].Item? && items[i].title == title
  }

  predicate NoAdjacentSeps(items: seq<MenuItem>) {
    forall i :: 0 <= i < |items| - 1 ==> !(items[i].Sep? && items[i + 1].Sep?)
  }

  /** The entries that open the single-item menu, in order. */
  function SingleItemHead(sel: DriveItem): seq<MenuItem> {
    [ Item("Open in new tab", false),
      Item("Open as website", false),
      Item("Copy drive link", !sel.shareable),
      Item(if sel.isFile then "Copy file path" else "Copy folder path", false) ]
  }

  /** constructItems: the entries of the context menu for the explorer's current state. */
  method ConstructItems(app: AppState) returns (items: seq<MenuItem>)
    // the single-item menu
    ensures SingleItemView(app) ==> |items| >= 4 && items[..4] == SingleItemHead(Subject(app))
    ensures SingleItemView(app) && app.isViewingQuery ==> |items| == 4
    ensures SingleItemView(app) && !app.isViewingQuery ==>
      |items| == 10 && items[4..] == Actions(Subject(app), Writable(app.selection)) &&
      ActionsOf(items[4..], Subject(app), Writable(app.selection))
    // the menu for several selected items
    ensures |app.selection| > 1 && !app.pathIsFile ==>
      items == [Item("Delete", !Writable(app.selection)), Item("Export", false)]
    // the menu for the location itself
    ensures |app.selection| == 0 && !app.pathIsFile ==>
      var readOnly := !app.currentDriveWritable;
      var unshareable := !app.locationAsItem.shareable;
      items == [ Item("New file", readOnly), Item("New folder", readOnly), Item("New link", readOnly),
                 Sep,
                 Item("Open as website", unshareable), Item("Copy drive link", unshareable), Item("Copy path", false),
                 Sep,
                 Item("Diff / merge", false), Item("Import", readOnly), Item("Export", false) ]
    // every menu
    ensures !(SingleItemView(app) && app.isViewingQuery) ==> items != [] && items[|items| - 1] == Item("Export", false)
    ensures items != [] && items[0] != Sep && items[|items| - 1] != Sep
    ensures NoAdjacentSeps(items)
  {
    if |app.selection| == 1 || app.pathIsFile {
      items := SingleItemMenu(app);
    } else if |app.selection| > 1 {
      var writable := FoldWritable(true, app.selection);
      items := [];
      items := items + [Item("Delete", !writable)];
      items := items + [Item("Export", false)];
    } else {
      items := LocationMenu(app);
    }
  }

  /**
   * The entries that follow the four opening ones outside a query view, in
   * the order the single-item branch pushes them.
   */
  function Actions(sel: DriveItem, writable: bool): seq<MenuItem> {
    [Sep] + (if sel.isFile then [Item("Edit", !writable)] else []) +
    [Item("Rename", !writable), Item("Delete", !writable), Sep] +
    (if sel.isFile then [] else [Item("Diff / merge", false)]) +
    [Item("Export", false)]
  }

  /**
   * What the single-item tail promises: "Edit" only for a file, "Diff /
   * merge" only for a folder, "Rename", "Delete" and "Edit" disabled exactly
   * when not writable, the rest never disabled, "Export" last, two
   * separators never side by side.
   */
  ghost predicate ActionsOf(actions: seq<MenuItem>, sel: DriveItem, writable: bool) {
    |actions| == 6 && actions[0] == Sep && actions[if sel.isFile then 4 else 3] == Sep &&
    (HasLabel(actions, "Edit") <==> sel.isFile) &&
    (HasLabel(actions, "Diff / merge") <==> !sel.isFile) &&
    HasLabel(actions, "Rename") && HasLabel(actions, "Delete") &&
    actions[5] == Item("Export", false) &&
    NoAdjacentSeps(actions) &&
    (forall i :: 0 <= i < |actions| && actions[i].Item? ==>
      actions[i].disabled == (actions[i].title in {"Edit", "Rename", "Delete"} && !writable))
  }

  /** The branch of constructItems for one selected item, or a location that is a file. */
  method SingleItemMenu(app: AppState) returns (items: seq<MenuItem>)
    requires SingleItemView(app)
    ensures |items| >= 4 && items[..4] == SingleItemHead(Subject(app))
    ensures app.isViewingQuery ==> |items| == 4
    ensures !app.isViewingQuery ==>
      |items| == 10 && items[4..] == Actions(Subject(app), Writable(app.selection)) &&
      ActionsOf(items[4..], Subject(app), Writable(app.selection))
  {
    var sel := if |app.selection| > 0 then app.selection[0] else app.locationAsItem;
    var writable := FoldWritable(true, app.selection);
    items := [];
    items := items + [Item("Open in new tab", false)];
    items := items + [Item("Open as website", false)];
    items := items + [Item("Copy drive link", !sel.shareable)];
    var kind := if sel.isFile then "file" else "folder";
    assert "Copy " + "file" + " path" == "Copy file path";
    assert "Copy " + "folder" + " path" == "Copy folder path";
    items := items + [Item("Copy " + kind + " path", false)];
    assert items == SingleItemHead(sel);
    if !app.isViewingQuery {
      var actions := SingleItemActions(sel, writable);
      items := items + actions;
      assert items[4..] == actions;
    }
  }

  /** The entries the single-item branch pushes after the opening four when not viewing a query. */
  method SingleItemActions(sel: DriveItem, writable: bool) returns (actions: seq<MenuItem>)
    ensures actions == Actions(sel, writable)
    ensures ActionsOf(actions, sel, writable)
  {
    actions := [];
    actions := actions + [Sep];
    if sel.isFile {
      actions := actions + [Item("Edit", !writable || !sel.isFile)];
    }
    actions := actions + [Item("Rename", !writable)];
    actions := actions + [Item("Delete", !writable)];
    actions := actions + [Sep];
    if !sel.isFile {
      actions := actions + [Item("Diff / merge", false)];
    }
    actions := actions + [Item("Export", false)];
    ActionsShape(sel, writable);
  }

  /** The pushed order has every property the tail promises. */
  lemma ActionsShape(sel: DriveItem, writable: bool)
    ensures ActionsOf(Actions(sel, writable), sel, writable)
  {
    var a := Actions(sel, writable);
    if sel.isFile {
      assert a == [Sep, Item("Edit", !writable), Item("Rename", !writable), Item("Delete", !writable), Sep, Item("Export", false)];
      assert a[1].title == "Edit" && a[2].title == "Rename" && a[3].title == "Delete";
    } else {
      assert a == [Sep, Item("Rename", !writable), Item("Delete", !writable), Sep, Item("Diff / merge", false), Item("Export", false)];
      assert a[4].title == "Diff / merge" && a[1].title == "Rename" && a[2].title == "Delete";
    }
  }

  /** The branch of constructItems for an empty selection at a location that is not a file. */
  method LocationMenu(app: AppState) returns (items: seq<MenuItem>)
    ensures var readOnly := !app.currentDriveWritable;
      var unshareable := !app.locationAsItem.shareable;
      items == [ Item("New file", readOnly), Item("New folder", readOnly), Item("New link", readOnly),
                 Sep,
                 Item("Open as website", unshareable), Item("Copy drive link", unshareable), Item("Copy path", false),
                 Sep,
                 Item("Diff / merge", false), Item("Import", readOnly), Item("Export", false) ]
  {
    var writable := app.currentDriveWritable;
    items := [];
    items := items + [Item("New file", !writable)];
    items := items + [Item("New folder", !writable)];
    items := items + [Item("New link", !writable)];
    items := items + [Sep];
    items := items + [Item("Open as website", !app.locationAsItem.shareable)];
    items := items + [Item("Copy drive link", !app.locationAsItem.shareable)];
    items := items + [Item("Copy path", false)];
    items := items + [Sep];
    items := items + [Item("Diff / merge", false)];
    items := items + [Item("Import", !writable)];
    items := items + [Item("Export", false)];
  }
}
