/**
 * The items page (src/pages/ItemsPage.tsx): a cached list of the
 * restaurant's items, a five-field form shared by the add and edit modals, and
 * handlers that call the item API and patch the cache only when the call
 * succeeds.
 *
 * Each handler takes the outcomes of its calls as parameters and returns the
 * requests it sent through the API client. The restaurant lookup some handlers
 * make with a raw `fetch` is an outcome too, but not an API call.
 */
module ItemsPage {
  import opened Types
  import ListOps
  import Api
  import Session

  /** The form fields, as the inputs hold them. */
  datatype ItemForm = ItemForm(name: string, description: string, price: string, category: string, imageUrl: string)

  const EmptyForm := ItemForm("", "", "", "", "")

  /** The guard of both submit handlers (and of their buttons): a name that is
      not blank, and a price and a category that are not empty. */
  predicate Ready(f: ItemForm) {
    !IsBlank(f.name) && f.price != "" && f.category != ""
  }

  /** The body `handleAddItem` sends. */
  function CreateBody(f: ItemForm): (r: Api.ItemData)
    ensures r.isAvailable == Some(true)
    ensures r.imageUrl == OrUndefined(f.imageUrl)
    ensures r.name == f.name && r.description == f.description && r.priceText == f.price && r.category == f.category
  {
    Api.ItemData(f.name, f.description, f.price, f.category, OrUndefined(f.imageUrl), Some(true))
  }

  /** The body `handleEditItem` sends: the same fields, without `isAvailable`. */
  function UpdateBody(f: ItemForm): (r: Api.ItemData)
    ensures r == CreateBody(f).(isAvailable := None)
  {
    Api.ItemData(f.name, f.description, f.price, f.category, OrUndefined(f.imageUrl), None)
  }

  /** The form `openEditModal` fills in from an item. */
  function FormOf(item: Item): (r: ItemForm)
    ensures r.name == item.name && r.category == item.category
    ensures r.description == OrEmpty(item.description) && r.imageUrl == OrEmpty(item.imageUrl)
    ensures r.price == NumberText(item.price)
  {
    ItemForm(item.name, OrEmpty(item.description), NumberText(item.price), item.category, OrEmpty(item.imageUrl))
  }

  /** Opening an item for edit and submitting the untouched form sends the
      item's own fields back, with an empty image URL sent as absent. The
      price text is never empty, so the guard only asks for a name that is not
      blank and a category. */
  lemma EditUntouched(item: Item)
    ensures var b := UpdateBody(FormOf(item));
      b.name == item.name && b.category == item.category && b.description == OrEmpty(item.description) &&
      b.imageUrl == (if item.imageUrl == Some("") then None else item.imageUrl) &&
      b.priceText == NumberText(item.price) && b.isAvailable.None?
    ensures Ready(FormOf(item)) <==> !IsBlank(item.name) && item.category != ""
  {
    OrUndefinedOrEmpty(item.imageUrl);
  }

  class Page {
    /** The signed-in user's restaurant. */
    const restaurant: Session.RestaurantRef
    var items: seq<Item>
    var loading: bool
    var showAddModal: bool
    var showEditModal: bool
    var editingItem: Option<Item>
    var form: ItemForm
    var adding: bool
    var updating: bool

    constructor (restaurant: Session.RestaurantRef)
      ensures this.restaurant == restaurant
      ensures items == [] && loading && !showAddModal && !showEditModal && editingItem == None
      ensures form == EmptyForm && !adding && !updating
    {
      this.restaurant := restaurant;
      items := [];
      loading := true;
      showAddModal := false;
      showEditModal := false;
      editingItem := None;
      form := EmptyForm;
      adding := false;
      updating := false;
    }

    /** `fetchItems`, with the outcome of the restaurant lookup and of `getItems`.
        It stops silently when no restaurant id can be found.
        A failed lookup returns before the `try`, so `loading` keeps its
        value: on the first fetch the spinner stays up. */
    method FetchItems(lookup: Outcome<string>, reply: Outcome<seq<Item>>) returns (calls: seq<Api.Endpoint>)
      modifies this`items, this`loading
      ensures Session.Resolve(restaurant, lookup).None? ==>
        calls == [] && items == old(items) && loading == old(loading)
      ensures Session.Resolve(restaurant, lookup).Some? ==>
        calls == [Api.GetItems(Session.Resolve(restaurant, lookup).value)] && !loading &&
        items == (if reply.Ok? then reply.value else old(items))
    {
      calls := [];
      var rid := Session.Resolve(restaurant, lookup);
      if rid.None? {
        return;
      }
      loading := true;
      calls := [Api.GetItems(rid.value)];
      if reply.Ok? {
        items := reply.value;
      }
      loading := false;
    }

    /** `handleAddItem`: on success the new item is appended and the add modal
        closes with a cleared form; on failure nothing but the busy flag moves. */
    method AddItem(lookup: Outcome<string>, reply: Outcome<Item>) returns (calls: seq<Api.Endpoint>)
      modifies this`items, this`form, this`showAddModal, this`adding
      ensures !Ready(old(form)) || Session.Resolve(restaurant, lookup).None? ==>
        calls == [] && items == old(items) && form == old(form) && showAddModal == old(showAddModal) &&
        adding == old(adding)
      ensures Ready(old(form)) && Session.Resolve(restaurant, lookup).Some? ==>
        calls == [Api.CreateItem(Session.Resolve(restaurant, lookup).value, CreateBody(old(form)))] && !adding
      ensures Ready(old(form)) && Session.Resolve(restaurant, lookup).Some? && reply.Ok? ==>
        items == old(items) + [reply.value] && form == EmptyForm && !showAddModal
      ensures Ready(old(form)) && Session.Resolve(restaurant, lookup).Some? && reply.Failed? ==>
        items == old(items) && form == old(form) && showAddModal == old(showAddModal)
    {
      calls := [];
      if !Ready(form) || restaurant.None? {
        return;
      }
      var rid := Session.Resolve(restaurant, lookup);
      if rid.None? {
        return;
      }
      adding := true;
      calls := [Api.CreateItem(rid.value, CreateBody(form))];
      if reply.Ok? {
        items := items + [reply.value];
        ResetForm();
        showAddModal := false;
      }
      adding := false;
    }

    /** `handleEditItem`: on success the item with the edited id is replaced by
        the server's copy, and the edit modal closes with a cleared form. */
    method EditItem(reply: Outcome<Item>) returns (calls: seq<Api.Endpoint>)
      modifies this`items, this`form, this`editingItem, this`showEditModal, this`updating
      ensures old(editingItem).None? || !Ready(old(form)) ==>
        calls == [] && items == old(items) && form == old(form) && editingItem == old(editingItem) &&
        showEditModal == old(showEditModal) && updating == old(updating)
      ensures old(editingItem).Some? && Ready(old(form)) ==>
        calls == [Api.UpdateItem(old(editingItem).value.id, UpdateBody(old(form)))] && !updating
      ensures old(editingItem).Some? && Ready(old(form)) && reply.Ok? ==>
        items == ListOps.ReplaceWhere(old(items), ItemKey, old(editingItem).value.id, reply.value) &&
        form == EmptyForm && editingItem == None && !showEditModal
      ensures old(editingItem).Some? && Ready(old(form)) && reply.Failed? ==>
        items == old(items) && form == old(form) && editingItem == old(editingItem) &&
        showEditModal == old(showEditModal)
    {
      calls := [];
      if editingItem.None? || !Ready(form) {
        return;
      }
      var id := editingItem.value.id;
      updating := true;
      calls := [Api.UpdateItem(id, UpdateBody(form))];
      if reply.Ok? {
        items := ListOps.ReplaceWhere(items, ItemKey, id, reply.value);
        ResetForm();
        editingItem := None;
        showEditModal := false;
      }
      updating := false;
    }

    /** `handleDeleteItem`, after the `confirm` dialog answered `confirmed`. */
    method DeleteItem(id: string, confirmed: bool, reply: Outcome<Unit>) returns (calls: seq<Api.Endpoint>)
      modifies this`items
      ensures !confirmed ==> calls == [] && items == old(items)
      ensures confirmed ==> calls == [Api.DeleteItem(id)]
      ensures items == if confirmed && reply.Ok? then ListOps.RemoveWhere(old(items), ItemKey, id) else old(items)
    {
      calls := [];
      if !confirmed {
        return;
      }
      calls := [Api.DeleteItem(id)];
      if reply.Ok? {
        items := ListOps.RemoveWhere(items, ItemKey, id);
      }
    }

    /** `handleToggleAvailability`: the server decides the new item. */
    method ToggleAvailability(id: string, reply: Outcome<Item>) returns (calls: seq<Api.Endpoint>)
      modifies this`items
      ensures calls == [Api.ToggleItemAvailability(id)]
      ensures items == if reply.Ok? then ListOps.ReplaceWhere(old(items), ItemKey, id, reply.value) else old(items)
    {
      calls := [Api.ToggleItemAvailability(id)];
      if reply.Ok? {
        items := ListOps.ReplaceWhere(items, ItemKey, id, reply.value);
      }
    }

    method OpenEditModal(item: Item)
      modifies this`editingItem, this`form, this`showEditModal
      ensures editingItem == Some(item) && form == FormOf(item) && showEditModal
    {
      editingItem := Some(item);
      form := ItemForm(item.name, OrEmpty(item.description), NumberText(item.price), item.category, OrEmpty(item.imageUrl));
      showEditModal := true;
    }

    method ResetForm()
      modifies this`form
      ensures form == EmptyForm
    {
      form := ItemForm("", "", "", "", "");
    }
  }

  /** An item added and then deleted leaves the cache as it was before the add,
      provided the server gave the new item a fresh id. */
  lemma AddThenDelete(items: seq<Item>, created: Item)
    requires forall i :: 0 <= i < |items| ==> items[i].id != created.id
    ensures ListOps.RemoveWhere(items + [created], ItemKey, created.id) == items
  {
    ListOps.AppendThenRemove(items, ItemKey, created);
  }
}
