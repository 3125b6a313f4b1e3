/**
 * The menus page (src/pages/MenusPage.tsx): a cached list of the restaurant's
 * menus, a name/description form shared by the add and edit modals, and the
 * host of the visual editor, whose save is sent back as a menu update.
 *
 * As on the items page, every handler takes the outcomes of its calls as
 * parameters and returns the API requests it sent.
 */
module MenusPage {
  import opened Types
  import ListOps
  import Api
  import Session
  import MenuEditor

  /** The body of both form submits: name and description as typed, no items. */
  function FormBody(name: string, description: string): (r: Api.MenuData)
    ensures r.name == Some(name) && r.description == Some(description) && r.items.None?
  {
    Api.MenuData(Some(name), Some(description), None)
  }

  /** The call `handleVisualEditorSave` makes for the menu the editor hands
      back: none when the menu has no id, otherwise an update of its name, its
      description and its item ids in the editor's order. */
  function SaveCall(updated: Menu): (r: Option<Api.Endpoint>)
    ensures r.None? <==> updated.id == ""
    ensures r.Some? ==> r.value.UpdateMenu? && r.value.menuId == updated.id
    ensures r.Some? ==> r.value.menu.items == Some(ItemIds(updated.items))
  {
    if updated.id == "" then None
    else Some(Api.UpdateMenu(updated.id, Api.MenuData(Some(updated.name), updated.description, Some(ItemIds(updated.items)))))
  }

  /** Saving in the visual editor sends the opened menu's own id, name and
      description, and the ids of the canvas items in canvas order: where the
      items were dropped and the refreshed timestamps do not reach the server. */
  lemma EditorSaveSends(menu: Menu, es: seq<MenuEditor.EditorItem>, now: string)
    requires menu.id != ""
    ensures SaveCall(MenuEditor.Saved(menu, es, now)) ==
      Some(Api.UpdateMenu(menu.id, Api.MenuData(Some(menu.name), menu.description, Some(ItemIds(MenuEditor.Items(es))))))
  {
    MenuEditor.SavedSpec(menu, es, now);
  }

  /** Opening the editor on a menu and saving straight away sends the menu's
      item ids unchanged. */
  lemma EditorRoundTrip(menu: Menu, now: string)
    requires menu.id != ""
    ensures SaveCall(MenuEditor.Saved(menu, MenuEditor.Layout(menu.items), now)) ==
      Some(Api.UpdateMenu(menu.id, Api.MenuData(Some(menu.name), menu.description, Some(ItemIds(menu.items)))))
  {
    EditorSaveSends(menu, MenuEditor.Layout(menu.items), now);
    MenuEditor.ItemsOfLayout(menu.items);
  }

  class Page {
    const restaurant: Session.RestaurantRef
    var menus: seq<Menu>
    var loading: bool
    var showAddModal: bool
    var showEditModal: bool
    var editingMenu: Option<Menu>
    var name: string
    var description: string
    var adding: bool
    var updating: bool
    var showVisualEditor: bool
    var visualMenu: Option<Menu>

    constructor (restaurant: Session.RestaurantRef)
      ensures this.restaurant == restaurant
      ensures menus == [] && loading && !showAddModal && !showEditModal && editingMenu == None
      ensures name == "" && description == "" && !adding && !updating
      ensures !showVisualEditor && visualMenu == None
    {
      this.restaurant := restaurant;
      menus := [];
      loading := true;
      showAddModal := false;
      showEditModal := false;
      editingMenu := None;
      name := "";
      description := "";
      adding := false;
      updating := false;
      showVisualEditor := false;
      visualMenu := None;
    }

    /** `fetchMenus`: stops silently when no restaurant id can be found.
        A failed lookup returns before the `try`, so `loading` keeps its
        value: on the first fetch the spinner stays up. */
    method FetchMenus(lookup: Outcome<string>, reply: Outcome<seq<Menu>>) returns (calls: seq<Api.Endpoint>)
      modifies this`menus, this`loading
      ensures Session.Resolve(restaurant, lookup).None? ==>
        calls == [] && menus == old(menus) && loading == old(loading)
      ensures Session.Resolve(restaurant, lookup).Some? ==>
        calls == [Api.GetMenus(Session.Resolve(restaurant, lookup).value)] && !loading &&
        menus == (if reply.Ok? then reply.value else old(menus))
    {
      calls := [];
      var rid := Session.Resolve(restaurant, lookup);
      if rid.None? {
        return;
      }
      loading := true;
      calls := [Api.GetMenus(rid.value)];
      if reply.Ok? {
        menus := reply.value;
      }
      loading := false;
    }

    /** `handleAddMenu`: on success the new menu is appended, the form cleared
        and the add modal closed. */
    method AddMenu(lookup: Outcome<string>, reply: Outcome<Menu>) returns (calls: seq<Api.Endpoint>)
      modifies this`menus, this`name, this`description, this`showAddModal, this`adding
      ensures IsBlank(old(name)) || Session.Resolve(restaurant, lookup).None? ==>
        calls == [] && menus == old(menus) && name == old(name) && description == old(description) &&
        showAddModal == old(showAddModal) && adding == old(adding)
      ensures !IsBlank(old(name)) && Session.Resolve(restaurant, lookup).Some? ==>
        calls == [Api.CreateMenu(Session.Resolve(restaurant, lookup).value, FormBody(old(name), old(description)))] &&
        !adding
      ensures !IsBlank(old(name)) && Session.Resolve(restaurant, lookup).Some? && reply.Ok? ==>
        menus == old(menus) + [reply.value] && name == "" && description == "" && !showAddModal
      ensures !IsBlank(old(name)) && Session.Resolve(restaurant, lookup).Some? && reply.Failed? ==>
        menus == old(menus) && name == old(name) && description == old(description) &&
        showAddModal == old(showAddModal)
    {
      calls := [];
      if IsBlank(name) || restaurant.None? {
        return;
      }
      var rid := Session.Resolve(restaurant, lookup);
      if rid.None? {
        return;
      }
      adding := true;
      calls := [Api.CreateMenu(rid.value, FormBody(name, description))];
      if reply.Ok? {
        menus := menus + [reply.value];
        name := "";
        description := "";
        showAddModal := false;
      }
      adding := false;
    }

    /** `handleEditMenu`: on success the edited menu is replaced by the
        server's copy and the edit modal closes with a cleared form. */
    method EditMenu(reply: Outcome<Menu>) returns (calls: seq<Api.Endpoint>)
      modifies this`menus, this`name, this`description, this`editingMenu, this`showEditModal, this`updating
      ensures old(editingMenu).None? || IsBlank(old(name)) ==>
        calls == [] && menus == old(menus) && name == old(name) && description == old(description) &&
        editingMenu == old(editingMenu) && showEditModal == old(showEditModal) && updating == old(updating)
      ensures old(editingMenu).Some? && !IsBlank(old(name)) ==>
        calls == [Api.UpdateMenu(old(editingMenu).value.id, FormBody(old(name), old(description)))] && !updating
      ensures old(editingMenu).Some? && !IsBlank(old(name)) && reply.Ok? ==>
        menus == ListOps.ReplaceWhere(old(menus), MenuKey, old(editingMenu).value.id, reply.value) &&
        name == "" && description == "" && editingMenu == None && !showEditModal
      ensures old(editingMenu).Some? && !IsBlank(old(name)) && reply.Failed? ==>
        menus == old(menus) && name == old(name) && description == old(description) &&
        editingMenu == old(editingMenu) && showEditModal == old(showEditModal)
    {
      calls := [];
      if editingMenu.None? || IsBlank(name) {
        return;
      }
      var id := editingMenu.value.id;
      updating := true;
      calls := [Api.UpdateMenu(id, FormBody(name, description))];
      if reply.Ok? {
        menus := ListOps.ReplaceWhere(menus, MenuKey, id, reply.value);
        name := "";
        description := "";
        editingMenu := None;
        showEditModal := false;
      }
      updating := false;
    }

    /** `handleDeleteMenu`, after the `confirm` dialog answered `confirmed`. */
    method DeleteMenu(id: string, confirmed: bool, reply: Outcome<Unit>) returns (calls: seq<Api.Endpoint>)
      modifies this`menus
      ensures !confirmed ==> calls == [] && menus == old(menus)
      ensures confirmed ==> calls == [Api.DeleteMenu(id)]
      ensures menus == if confirmed && reply.Ok? then ListOps.RemoveWhere(old(menus), MenuKey, id) else old(menus)
    {
      calls := [];
      if !confirmed {
        return;
      }
      calls := [Api.DeleteMenu(id)];
      if reply.Ok? {
        menus := ListOps.RemoveWhere(menus, MenuKey, id);
      }
    }

    method OpenEditModal(menu: Menu)
      modifies this`editingMenu, this`name, this`description, this`showEditModal
      ensures editingMenu == Some(menu) && name == menu.name && description == OrEmpty(menu.description)
      ensures showEditModal
    {
      editingMenu := Some(menu);
      name := menu.name;
      description := if menu.description.Some? then menu.description.value else "";
      showEditModal := true;
    }

    method OpenVisualEditor(menu: Menu)
      modifies this`visualMenu, this`showVisualEditor
      ensures visualMenu == Some(menu) && showVisualEditor
    {
      visualMenu := Some(menu);
      showVisualEditor := true;
    }

    /** `handleVisualEditorSave` with the menu the editor handed back. On
        success the cached menu with that id is replaced by the server's copy
        and the editor closes; a missing id or a failed update leaves the editor
        open and the cache as it was. */
    method VisualEditorSave(updated: Menu, reply: Outcome<Menu>) returns (calls: seq<Api.Endpoint>)
      modifies this`menus, this`showVisualEditor, this`visualMenu
      ensures calls == if SaveCall(updated).Some? then [SaveCall(updated).value] else []
      ensures updated.id != "" && reply.Ok? ==>
        menus == ListOps.ReplaceWhere(old(menus), MenuKey, updated.id, reply.value) &&
        !showVisualEditor && visualMenu == None
      ensures updated.id == "" || reply.Failed? ==>
        menus == old(menus) && showVisualEditor == old(showVisualEditor) && visualMenu == old(visualMenu)
    {
      calls := [];
      if updated.id == "" {
        return;
      }
      calls := [Api.UpdateMenu(updated.id, Api.MenuData(Some(updated.name), updated.description, Some(ItemIds(updated.items))))];
      if reply.Ok? {
        menus := ListOps.ReplaceWhere(menus, MenuKey, updated.id, reply.value);
        showVisualEditor := false;
        visualMenu := None;
      }
    }

    method VisualEditorCancel()
      modifies this`showVisualEditor, this`visualMenu
      ensures !showVisualEditor && visualMenu == None
    {
      showVisualEditor := false;
      visualMenu := None;
    }
  }
}
