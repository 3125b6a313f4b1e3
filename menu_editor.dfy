/**
 * The visual menu editor (src/components/MenuEditor.tsx). It opens on a menu
 * with every item laid out on a two-column grid. It then keeps a single
 * selection, moves one item per drop, patches the selected item's image after
 * an upload, and on save hands back the menu with the layout fields stripped
 * and the timestamps refreshed.
 *
 * Coordinates are integers (the drop point and the canvas origin are inputs),
 * and "now" is a parameter.
 */
module MenuEditor {
  import opened Types
  import ListOps

  datatype Position = Position(x: int, y: int)
  datatype Size = Size(width: int, height: int)

  /** An item on the canvas: the menu item plus its layout fields. */
  datatype EditorItem = EditorItem(item: Item, position: Position, size: Size, zIndex: int)

  function EditorKey(e: EditorItem): string { e.item.id }

  const CellSize := Size(250, 150)

  /** The grid cell of the item at `index`: two columns 300 apart, rows 200 apart. */
  function Cell(index: nat): (r: Position)
    ensures r.x == 50 || r.x == 350
    ensures r.y >= 100
  {
    Position(50 + (index % 2) * 300, 100 + (index / 2) * 200)
  }

  /** The initial `menuItems`: every item of the menu, in order, in its grid cell,
      stacked by its index. */
  function Layout(items: seq<Item>): (r: seq<EditorItem>)
    ensures |r| == |items|
    ensures forall i :: 0 <= i < |items| ==> r[i].item == items[i]
    ensures forall i :: 0 <= i < |items| ==> r[i].size == CellSize && r[i].zIndex == i
    ensures forall i :: 0 <= i < |items| ==> r[i].position == Cell(i)
  {
    seq(|items|, i requires 0 <= i < |items| => EditorItem(items[i], Cell(i), CellSize, i))
  }

  /** Whether the canvas rectangles of two items intersect. */
  predicate Overlap(a: EditorItem, b: EditorItem) {
    a.position.x < b.position.x + b.size.width && b.position.x < a.position.x + a.size.width &&
    a.position.y < b.position.y + b.size.height && b.position.y < a.position.y + a.size.height
  }

  /** Different grid cells are different places. */
  lemma CellInjective(i: nat, j: nat)
    requires i != j
    ensures Cell(i) != Cell(j)
  {
    if i % 2 == j % 2 {
      assert i / 2 != j / 2 by {
        assert i == 2 * (i / 2) + i % 2 && j == 2 * (j / 2) + j % 2;
      }
    }
  }

  /** In the initial layout no two items overlap: cells in different columns are
      300 apart, wider than an item, and rows are 200 apart, taller than one. */
  lemma LayoutDisjoint(items: seq<Item>, i: nat, j: nat)
    requires i < |items| && j < |items| && i != j
    ensures !Overlap(Layout(items)[i], Layout(items)[j])
  {
    var a, b := Layout(items)[i], Layout(items)[j];
    if i % 2 == j % 2 {
      assert i / 2 != j / 2 by {
        assert i == 2 * (i / 2) + i % 2 && j == 2 * (j / 2) + j % 2;
      }
      if i / 2 < j / 2 {
        assert a.position.y + 200 <= b.position.y;
      } else {
        assert b.position.y + 200 <= a.position.y;
      }
    } else {
      assert a.position.x + 300 == b.position.x || b.position.x + 300 == a.position.x;
    }
  }

  /** The menu items behind the canvas, layout fields dropped. */
  function Items(es: seq<EditorItem>): (r: seq<Item>)
    ensures |r| == |es|
    ensures forall i :: 0 <= i < |es| ==> r[i] == es[i].item
  {
    seq(|es|, i requires 0 <= i < |es| => es[i].item)
  }

  /** Laying items out loses none of them and reorders nothing. */
  lemma ItemsOfLayout(items: seq<Item>)
    ensures Items(Layout(items)) == items
  {
  }

  // ---------------------------------------------------------------------
  // Selection

  /** `handleItemClick`: clicking the selected item clears the selection,
      clicking any other item selects it. */
  function Clicked(selected: Option<string>, id: string): (r: Option<string>)
    ensures r == None <==> selected == Some(id)
    ensures r != None ==> r == Some(id)
  {
    if selected == Some(id) then None else Some(id)
  }

  /** Clicking an unselected item twice leaves nothing selected; clicking the
      selected item twice leaves it selected. */
  lemma ClickTwice(selected: Option<string>, id: string)
    ensures Clicked(Clicked(selected, id), id) == if selected == Some(id) then Some(id) else None
  {
  }

  // ---------------------------------------------------------------------
  // List updates

  /** `handleDrop`: the item with that id moves to the drop point; nothing else moves. */
  function Dropped(es: seq<EditorItem>, id: string, at: Position): (r: seq<EditorItem>)
  {
    ListOps.MapWhere(es, EditorKey, id, (e: EditorItem) => e.(position := at))
  }

  /** A drop changes the position of the items with the dropped id, to the drop
      point, and no other field of any item. */
  lemma DroppedSpec(es: seq<EditorItem>, id: string, at: Position)
    ensures |Dropped(es, id, at)| == |es|
    ensures forall i :: 0 <= i < |es| ==>
      var e, d := es[i], Dropped(es, id, at)[i];
      d.item == e.item && d.size == e.size && d.zIndex == e.zIndex &&
      d.position == (if e.item.id == id then at else e.position)
  {
  }

  /** A drop of an id that is not on the canvas changes nothing. */
  lemma DroppedAbsent(es: seq<EditorItem>, id: string, at: Position)
    requires forall i :: 0 <= i < |es| ==> es[i].item.id != id
    ensures Dropped(es, id, at) == es
  {
    ListOps.MapWhereAbsent(es, EditorKey, id, (e: EditorItem) => e.(position := at));
  }

  /** The image patch of a successful upload: only `imageUrl` of the matching item. */
  function WithImage(es: seq<EditorItem>, id: string, url: Option<string>): (r: seq<EditorItem>)
  {
    ListOps.MapWhere(es, EditorKey, id, (e: EditorItem) => e.(item := e.item.(imageUrl := url)))
  }

  lemma WithImageSpec(es: seq<EditorItem>, id: string, url: Option<string>)
    ensures |WithImage(es, id, url)| == |es|
    ensures forall i :: 0 <= i < |es| ==>
      var e, d := es[i], WithImage(es, id, url)[i];
      d == (if e.item.id == id then e.(item := e.item.(imageUrl := url)) else e)
  {
  }

  // ---------------------------------------------------------------------
  // Save

  /** One item as saved: the layout fields dropped, `createdAt || now`, and
      `updatedAt` set to now. */
  function SavedItem(e: EditorItem, now: string): Item {
    e.item.(createdAt := if e.item.createdAt == "" then now else e.item.createdAt, updatedAt := now)
  }

  /** `handleSave`'s `updatedMenu`. */
  function Saved(menu: Menu, es: seq<EditorItem>, now: string): (r: Menu)
    ensures |r.items| == |es|
    ensures forall i :: 0 <= i < |es| ==> r.items[i] == SavedItem(es[i], now)
  {
    menu.(items := seq(|es|, i requires 0 <= i < |es| => SavedItem(es[i], now)))
  }

  /** Saving keeps every field of the menu but its items. The items keep the
      editor's order, and each keeps all of its own fields except the two
      timestamps: an existing `createdAt` survives, an empty one becomes now,
      and `updatedAt` is always now. */
  lemma SavedSpec(menu: Menu, es: seq<EditorItem>, now: string)
    ensures var r := Saved(menu, es, now);
      r.id == menu.id && r.name == menu.name && r.description == menu.description &&
      r.createdAt == menu.createdAt && r.updatedAt == menu.updatedAt &&
      ItemIds(r.items) == ItemIds(Items(es)) &&
      forall i :: 0 <= i < |es| ==>
        var s, e := r.items[i], es[i].item;
        s == e.(createdAt := s.createdAt, updatedAt := s.updatedAt) &&
        s.createdAt == (if e.createdAt != "" then e.createdAt else now) &&
        s.updatedAt == now
  {
  }

  /** What is saved does not depend on where items were dropped. */
  lemma SaveIgnoresDrop(menu: Menu, es: seq<EditorItem>, id: string, at: Position, now: string)
    ensures Saved(menu, Dropped(es, id, at), now) == Saved(menu, es, now)
  {
    assert Saved(menu, Dropped(es, id, at), now).items == Saved(menu, es, now).items;
  }

  /** Opening the editor and saving straight away sends the menu's own items,
      in the same order. */
  lemma SaveOfLayout(menu: Menu, now: string)
    ensures ItemIds(Saved(menu, Layout(menu.items), now).items) == ItemIds(menu.items)
  {
    SavedSpec(menu, Layout(menu.items), now);
    ItemsOfLayout(menu.items);
  }

  /** Saving twice at the same instant gives the same items: every `createdAt` is
      non-empty after the first save. */
  lemma SavedItemStable(e: EditorItem, now: string)
    requires now != ""
    ensures SavedItem(e.(item := SavedItem(e, now)), now) == SavedItem(e, now)
  {
  }

  // ---------------------------------------------------------------------
  // The editor component

  /** `selectedItem` used as a condition: an empty id is as falsy as none. */
  predicate HasSelection(selected: Option<string>) {
    selected.Some? && selected.value != ""
  }

  class Editor {
    /** The `menu` prop the editor was opened on. */
    const menu: Menu
    var items: seq<EditorItem>
    var selected: Option<string>
    var showImageUpload: bool
    var uploading: bool

    constructor (menu: Menu)
      ensures this.menu == menu
      ensures items == Layout(menu.items) && selected == None
      ensures !showImageUpload && !uploading
    {
      this.menu := menu;
      items := Layout(menu.items);
      selected := None;
      showImageUpload := false;
      uploading := false;
    }

    method DragStart(id: string)
      modifies this`selected
      ensures selected == Some(id)
    {
      selected := Some(id);
    }

    method DragEnd()
      modifies this`selected
      ensures selected == None
    {
      selected := None;
    }

    /** A drop of item `id` at client point (clientX, clientY) on a canvas whose
        top-left corner is at (left, top). */
    method Drop(id: string, clientX: int, clientY: int, left: int, top: int)
      modifies this`items
      ensures items == Dropped(old(items), id, Position(clientX - left, clientY - top))
    {
      var x := clientX - left;
      var y := clientY - top;
      items := Dropped(items, id, Position(x, y));
    }

    method ItemClick(id: string)
      modifies this`selected
      ensures selected == Clicked(old(selected), id)
    {
      selected := if selected == Some(id) then None else Some(id);
    }

    /** The "Upload Image" button, disabled while nothing (or an empty id) is
        selected. */
    method OpenImageUpload()
      modifies this`showImageUpload
      ensures showImageUpload == (old(showImageUpload) || HasSelection(selected))
    {
      if HasSelection(selected) {
        showImageUpload := true;
      }
    }

    method CancelImageUpload()
      modifies this`showImageUpload
      ensures !showImageUpload
    {
      showImageUpload := false;
    }

    /** `handleImageUpload` with the chosen file and the outcome of the upload
        request: the `imageUrl` of a successful reply (absent when the reply
        carries none), or any failure. Returns the path the file was posted to. */
    method ImageUpload(file: Option<FileRef>, reply: Outcome<Option<string>>) returns (posted: Option<string>)
      modifies this`items, this`uploading, this`showImageUpload
      ensures file.None? || !HasSelection(selected) ==>
        posted == None && items == old(items) && uploading == old(uploading) &&
        showImageUpload == old(showImageUpload)
      ensures file.Some? && HasSelection(selected) ==>
        posted == Some("/api/items/" + selected.value + "/upload-image") &&
        items == (if reply.Ok? then WithImage(old(items), selected.value, reply.value) else old(items)) &&
        !uploading && !showImageUpload
    {
      posted := None;
      if file.None? || !HasSelection(selected) {
        return;
      }
      uploading := true;
      posted := Some("/api/items/" + selected.value + "/upload-image");
      if reply.Ok? {
        items := WithImage(items, selected.value, reply.value);
      }
      uploading := false;
      showImageUpload := false;
    }

    /** "Save Menu": the menu handed to `onSave`. */
    method Save(now: string) returns (m: Menu)
      ensures m == Saved(menu, items, now)
    {
      m := Saved(menu, items, now);
    }
  }
}
