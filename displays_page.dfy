/**
 * The displays page (src/pages/DisplaysPage.tsx): a cached list of the
 * restaurant's displays with an error banner, the add modal, the assign-menu
 * modal and the media modal, and handlers that patch the cache from the
 * server's replies.
 *
 * Unlike the other two pages this one looks the restaurant up through the API
 * client (`restaurantAPI.getMyRestaurant`), so the lookup appears among the
 * calls a handler returns; its outcome is the restaurant's id (empty when the
 * reply carries none).
 */
module DisplaysPage {
  import opened Types
  import ListOps
  import Api
  import Session

  const NotAvailable := "Restaurant data not available. Please log out and log back in."
  const Unable := "Unable to load restaurant data. Please try logging out and back in."
  const MenusFailed := "Failed to load menus"

  // ---------------------------------------------------------------------
  // What the page shows

  /** One display card: the name, whether it shows as Active, and the menu line. */
  datatype Card = Card(name: string, active: bool, menuCaption: string, pairingCode: string)

  function CardOf(d: Display): (r: Card)
    ensures r.active <==> d.currentMenu.Some?
    ensures r.menuCaption == if d.currentMenu.Some? then d.currentMenu.value.name else "No menu assigned"
    ensures r.name == d.name && r.pairingCode == d.pairingCode
  {
    match d.currentMenu
    case Some(m) => Card(d.name, true, m.name, d.pairingCode)
    case None => Card(d.name, false, "No menu assigned", d.pairingCode)
  }

  datatype View = ErrorCard(message: string) | Spinner | NoDisplays | Grid(cards: seq<Card>)

  /** The error banner wins over the spinner, which wins over the list. */
  function ViewOf(error: Option<string>, loading: bool, displays: seq<Display>): (r: View)
    ensures r.ErrorCard? <==> error.Some?
    ensures r.Spinner? <==> error.None? && loading
    ensures r.NoDisplays? <==> error.None? && !loading && displays == []
    ensures r.Grid? ==> |r.cards| == |displays| && forall i :: 0 <= i < |displays| ==> r.cards[i] == CardOf(displays[i])
  {
    if error.Some? then ErrorCard(error.value)
    else if loading then Spinner
    else if displays == [] then NoDisplays
    else Grid(seq(|displays|, i requires 0 <= i < |displays| => CardOf(displays[i])))
  }

  // ---------------------------------------------------------------------
  // Loading the list

  /** The part of the page state `fetchDisplays` touches. */
  datatype Listing = Listing(displays: seq<Display>, loading: bool, error: Option<string>)

  /** What a fetch did: the new listing and the calls it made. */
  datatype Fetch = Fetch(after: Listing, calls: seq<Api.Endpoint>)

  /** The usual path: the user's restaurant has an id. The spinner is on
      during the call and off after it whatever the outcome. */
  function FetchById(s: Listing, id: string, reply: Outcome<seq<Display>>): (r: Fetch)
    ensures r.calls == [Api.GetDisplays(id)]
    ensures !r.after.loading && r.after.error == s.error
    ensures r.after.displays == if reply.Ok? then reply.value else s.displays
  {
    Fetch(Listing(if reply.Ok? then reply.value else s.displays, false, s.error), [Api.GetDisplays(id)])
  }

  /** The fallback when the restaurant has no id, as written: the banner goes
      up, the restaurant is looked up, and an id of the lookup takes the banner
      down again and loads the list. Nothing on this path touches `loading`. */
  function FallbackAsWritten(s: Listing, lookup: Outcome<string>, reply: Outcome<seq<Display>>): (r: Fetch)
    ensures r.after.loading == s.loading
    ensures r.calls != [] && r.calls[0] == Api.GetMyRestaurant
    ensures r.after.error.None? <==> lookup.Ok? && lookup.value != "" && reply.Ok?
    ensures r.after.error.Some? ==> r.after.error == Some(Unable) && r.after.displays == s.displays
    ensures r.after.error.None? ==> r.after.displays == reply.value
  {
    match lookup
    case Failed =>
      Fetch(s.(error := Some(Unable)), [Api.GetMyRestaurant])
    case Ok(rid) =>
      if rid == "" then Fetch(s.(error := Some(Unable)), [Api.GetMyRestaurant])
      else match reply
        case Ok(ds) => Fetch(s.(displays := ds, error := None), [Api.GetMyRestaurant, Api.GetDisplays(rid)])
        case Failed => Fetch(s.(error := Some(Unable)), [Api.GetMyRestaurant, Api.GetDisplays(rid)])
  }

  /** The fallback as evidently intended: the same, with the spinner taken down
      when it is over. */
  function Fallback(s: Listing, lookup: Outcome<string>, reply: Outcome<seq<Display>>): (r: Fetch)
    ensures !r.after.loading
    ensures var w := FallbackAsWritten(s, lookup, reply);
      r.calls == w.calls && r.after.displays == w.after.displays && r.after.error == w.after.error
  {
    var w := FallbackAsWritten(s, lookup, reply);
    Fetch(w.after.(loading := false), w.calls)
  }

  /** `fetchDisplays` as written: no restaurant at all does nothing. */
  function FetchedAsWritten(s: Listing, restaurant: Session.RestaurantRef, lookup: Outcome<string>, reply: Outcome<seq<Display>>): (r: Fetch)
    ensures restaurant.None? ==> r.after == s && r.calls == []
    ensures restaurant.Some? && restaurant.value != "" ==>
      r.calls == [Api.GetDisplays(restaurant.value)] && !r.after.loading && r.after.error == s.error
    ensures restaurant == Some("") ==>
      r.after.loading == s.loading && r.calls != [] && r.calls[0] == Api.GetMyRestaurant
  {
    match restaurant
    case None => Fetch(s, [])
    case Some(id) => if id != "" then FetchById(s, id, reply) else FallbackAsWritten(s, lookup, reply)
  }

  /** `fetchDisplays` with the fallback corrected. */
  function Fetched(s: Listing, restaurant: Session.RestaurantRef, lookup: Outcome<string>, reply: Outcome<seq<Display>>): (r: Fetch)
    ensures restaurant.None? ==> r.after == s && r.calls == []
    ensures restaurant.Some? ==> !r.after.loading
    ensures restaurant.Some? && restaurant.value != "" ==> r.calls == [Api.GetDisplays(restaurant.value)]
    ensures restaurant == Some("") ==> r.calls != [] && r.calls[0] == Api.GetMyRestaurant
  {
    match restaurant
    case None => Fetch(s, [])
    case Some(id) => if id != "" then FetchById(s, id, reply) else Fallback(s, lookup, reply)
  }

  /** The page mounts with the spinner on. For a user whose restaurant has no
      id, a fallback that finds the restaurant and loads its displays takes the
      banner down but leaves the spinner on: the loaded displays are never shown. */
  lemma FallbackStuckOnSpinner(ds: seq<Display>, rid: string)
    requires rid != ""
    ensures var f := FetchedAsWritten(Listing([], true, None), Some(""), Ok(rid), Ok(ds));
      f.calls == [Api.GetMyRestaurant, Api.GetDisplays(rid)] && f.after.displays == ds &&
      ViewOf(f.after.error, f.after.loading, f.after.displays) == Spinner
  {
  }

  /** With the correction, a fetch for a user with a restaurant never ends on
      the spinner: it shows the banner, the empty state or the displays, and on
      success the displays it loaded. */
  lemma FetchedNeverSpins(s: Listing, restaurant: Session.RestaurantRef, lookup: Outcome<string>, reply: Outcome<seq<Display>>)
    requires restaurant.Some?
    ensures var f := Fetched(s, restaurant, lookup, reply);
      ViewOf(f.after.error, f.after.loading, f.after.displays) != Spinner
    ensures var f := Fetched(s, restaurant, lookup, reply);
      reply.Ok? && (restaurant.value != "" || (lookup.Ok? && lookup.value != "")) ==> f.after.displays == reply.value
  {
  }

  /** The correction changes only the spinner: the calls, the list and the
      banner are those of the code as written. */
  lemma FetchedAgreesAsWritten(s: Listing, restaurant: Session.RestaurantRef, lookup: Outcome<string>, reply: Outcome<seq<Display>>)
    ensures var f, w := Fetched(s, restaurant, lookup, reply), FetchedAsWritten(s, restaurant, lookup, reply);
      f.calls == w.calls && f.after.displays == w.after.displays && f.after.error == w.after.error
  {
  }

  // ---------------------------------------------------------------------
  // List patches

  /** `handleRegeneratePairingCode`'s patch: only the pairing code of the
      matching display changes. */
  function WithPairingCode(ds: seq<Display>, id: string, code: string): (r: seq<Display>)
    ensures |r| == |ds|
    ensures forall i :: 0 <= i < |ds| ==> r[i] == if ds[i].id == id then ds[i].(pairingCode := code) else ds[i]
  {
    ListOps.MapWhere(ds, DisplayKey, id, (d: Display) => d.(pairingCode := code))
  }

  /** Regenerating twice keeps the last code only, and the list of ids never changes. */
  lemma WithPairingCodeTwice(ds: seq<Display>, id: string, c1: string, c2: string)
    ensures WithPairingCode(WithPairingCode(ds, id, c1), id, c2) == WithPairingCode(ds, id, c2)
    ensures forall i :: 0 <= i < |ds| ==> WithPairingCode(ds, id, c1)[i].id == ds[i].id
  {
    var once := WithPairingCode(ds, id, c1);
    assert forall i :: 0 <= i < |ds| ==> once[i].id == ds[i].id;
  }

  class Page {
    const restaurant: Session.RestaurantRef
    var displays: seq<Display>
    var loading: bool
    var showAddModal: bool
    var name: string
    var adding: bool
    var restaurantError: Option<string>
    var showAssignMenuModal: bool
    var selected: Option<Display>
    var menus: seq<Menu>
    var assigning: bool
    var showMediaUpload: bool
    var uploading: bool

    constructor (restaurant: Session.RestaurantRef)
      ensures this.restaurant == restaurant
      ensures displays == [] && loading && restaurantError == None
      ensures !showAddModal && name == "" && !adding
      ensures !showAssignMenuModal && selected == None && menus == [] && !assigning
      ensures !showMediaUpload && !uploading
    {
      this.restaurant := restaurant;
      displays := [];
      loading := true;
      showAddModal := false;
      name := "";
      adding := false;
      restaurantError := None;
      showAssignMenuModal := false;
      selected := None;
      menus := [];
      assigning := false;
      showMediaUpload := false;
      uploading := false;
    }

    function Current(): Listing
      reads this
    {
      Listing(displays, loading, restaurantError)
    }

    function Shown(): View
      reads this
    {
      ViewOf(restaurantError, loading, displays)
    }

    /** `fetchDisplays` as written, with the outcomes of the restaurant lookup
        and of the list call. */
    method FetchDisplaysAsWritten(lookup: Outcome<string>, reply: Outcome<seq<Display>>) returns (calls: seq<Api.Endpoint>)
      modifies this`displays, this`loading, this`restaurantError
      ensures Fetch(Current(), calls) == FetchedAsWritten(old(Current()), restaurant, lookup, reply)
    {
      calls := [];
      if restaurant.None? {
        return;
      }
      if restaurant.value == "" {
        restaurantError := Some(NotAvailable);
        calls := [Api.GetMyRestaurant];
        if lookup.Failed? || lookup.value == "" {
          restaurantError := Some(Unable);
          return;
        }
        restaurantError := None;
        calls := calls + [Api.GetDisplays(lookup.value)];
        if reply.Ok? {
          displays := reply.value;
        } else {
          restaurantError := Some(Unable);
        }
        return;
      }
      loading := true;
      calls := [Api.GetDisplays(restaurant.value)];
      if reply.Ok? {
        displays := reply.value;
      }
      loading := false;
    }

    /** `fetchDisplays` with the spinner taken down after the fallback too. */
    method FetchDisplays(lookup: Outcome<string>, reply: Outcome<seq<Display>>) returns (calls: seq<Api.Endpoint>)
      modifies this`displays, this`loading, this`restaurantError
      ensures Fetch(Current(), calls) == Fetched(old(Current()), restaurant, lookup, reply)
      ensures restaurant.Some? ==> !Shown().Spinner?
    {
      calls := [];
      if restaurant.None? {
        return;
      }
      FetchedNeverSpins(Current(), restaurant, lookup, reply);
      if restaurant.value == "" {
        restaurantError := Some(NotAvailable);
        calls := [Api.GetMyRestaurant];
        if lookup.Failed? || lookup.value == "" {
          restaurantError := Some(Unable);
        } else {
          restaurantError := None;
          calls := calls + [Api.GetDisplays(lookup.value)];
          if reply.Ok? {
            displays := reply.value;
          } else {
            restaurantError := Some(Unable);
          }
        }
        loading := false;
        return;
      }
      loading := true;
      calls := [Api.GetDisplays(restaurant.value)];
      if reply.Ok? {
        displays := reply.value;
      }
      loading := false;
    }

    /** `handleAddDisplay`. A failed lookup puts up the banner and stops; a
        lookup that returns no id still goes on to the create call. */
    method AddDisplay(lookup: Outcome<string>, reply: Outcome<Display>) returns (calls: seq<Api.Endpoint>)
      modifies this`displays, this`name, this`showAddModal, this`adding, this`restaurantError
      ensures IsBlank(old(name)) || restaurant.None? ==>
        calls == [] && displays == old(displays) && name == old(name) && showAddModal == old(showAddModal) &&
        adding == old(adding) && restaurantError == old(restaurantError)
      ensures !IsBlank(old(name)) && Session.NeedsLookup(restaurant) && lookup.Failed? ==>
        calls == [Api.GetMyRestaurant] && restaurantError == Some(Unable) &&
        displays == old(displays) && name == old(name) && showAddModal == old(showAddModal) && adding == old(adding)
      ensures !IsBlank(old(name)) && Session.Resolve(restaurant, lookup).Some? ==>
        var create := Api.CreateDisplay(Session.Resolve(restaurant, lookup).value, Api.DisplayData(Some(old(name)), None));
        calls == (if Session.NeedsLookup(restaurant) then [Api.GetMyRestaurant, create] else [create]) &&
        !adding && restaurantError == old(restaurantError)
      ensures !IsBlank(old(name)) && Session.Resolve(restaurant, lookup).Some? && reply.Ok? ==>
        displays == old(displays) + [reply.value] && name == "" && !showAddModal
      ensures !IsBlank(old(name)) && Session.Resolve(restaurant, lookup).Some? && reply.Failed? ==>
        displays == old(displays) && name == old(name) && showAddModal == old(showAddModal)
    {
      calls := [];
      if IsBlank(name) || restaurant.None? {
        return;
      }
      var rid := restaurant.value;
      if rid == "" {
        calls := [Api.GetMyRestaurant];
        if lookup.Failed? {
          restaurantError := Some(Unable);
          return;
        }
        rid := lookup.value;
      }
      adding := true;
      calls := calls + [Api.CreateDisplay(rid, Api.DisplayData(Some(name), None))];
      if reply.Ok? {
        displays := displays + [reply.value];
        name := "";
        showAddModal := false;
      }
      adding := false;
    }

    /** `handleDeleteDisplay`, after the `confirm` dialog answered `confirmed`. */
    method DeleteDisplay(id: string, confirmed: bool, reply: Outcome<Unit>) returns (calls: seq<Api.Endpoint>)
      modifies this`displays
      ensures !confirmed ==> calls == [] && displays == old(displays)
      ensures confirmed ==> calls == [Api.DeleteDisplay(id)]
      ensures displays == if confirmed && reply.Ok? then ListOps.RemoveWhere(old(displays), DisplayKey, id) else old(displays)
    {
      calls := [];
      if !confirmed {
        return;
      }
      calls := [Api.DeleteDisplay(id)];
      if reply.Ok? {
        displays := ListOps.RemoveWhere(displays, DisplayKey, id);
      }
    }

    /** `handleRegeneratePairingCode` with the new code the server replied with. */
    method RegeneratePairingCode(id: string, reply: Outcome<string>) returns (calls: seq<Api.Endpoint>)
      modifies this`displays
      ensures calls == [Api.RegeneratePairingCode(id)]
      ensures displays == if reply.Ok? then WithPairingCode(old(displays), id, reply.value) else old(displays)
    {
      calls := [Api.RegeneratePairingCode(id)];
      if reply.Ok? {
        displays := WithPairingCode(displays, id, reply.value);
      }
    }

    /** `openAssignMenuModal`: the modal opens at once; the menus are then
        loaded, looking the restaurant up whenever the user's has no id (or
        there is none). Any failure puts up "Failed to load menus". */
    method OpenAssignMenuModal(display: Display, lookup: Outcome<string>, reply: Outcome<seq<Menu>>) returns (calls: seq<Api.Endpoint>)
      modifies this`selected, this`showAssignMenuModal, this`menus, this`restaurantError
      ensures selected == Some(display) && showAssignMenuModal
      ensures restaurant.Some? && restaurant.value != "" ==> calls == [Api.GetMenus(restaurant.value)]
      ensures !(restaurant.Some? && restaurant.value != "") ==>
        calls == [Api.GetMyRestaurant] + (if lookup.Ok? then [Api.GetMenus(lookup.value)] else [])
      ensures var reached := (restaurant.Some? && restaurant.value != "") || lookup.Ok?;
        (reached && reply.Ok? ==> menus == reply.value && restaurantError == old(restaurantError)) &&
        (!(reached && reply.Ok?) ==> menus == old(menus) && restaurantError == Some(MenusFailed))
    {
      selected := Some(display);
      showAssignMenuModal := true;
      calls := [];
      var rid: string;
      if restaurant.Some? && restaurant.value != "" {
        rid := restaurant.value;
      } else {
        calls := [Api.GetMyRestaurant];
        if lookup.Failed? {
          restaurantError := Some(MenusFailed);
          return;
        }
        rid := lookup.value;
      }
      calls := calls + [Api.GetMenus(rid)];
      if reply.Ok? {
        menus := reply.value;
      } else {
        restaurantError := Some(MenusFailed);
      }
    }

    /** `handleAssignMenu`: assign, then fetch the display again; only when
        both succeed is the cached display replaced and the modal closed. */
    method AssignMenu(menuId: string, assign: Outcome<Unit>, refetch: Outcome<Display>) returns (calls: seq<Api.Endpoint>)
      modifies this`displays, this`showAssignMenuModal, this`selected, this`assigning
      ensures old(selected).None? ==>
        calls == [] && displays == old(displays) && showAssignMenuModal == old(showAssignMenuModal) &&
        selected == old(selected) && assigning == old(assigning)
      ensures old(selected).Some? ==>
        var id := old(selected).value.id;
        calls == [Api.AssignMenu(id, menuId)] + (if assign.Ok? then [Api.GetDisplay(id)] else []) && !assigning
      ensures old(selected).Some? && assign.Ok? && refetch.Ok? ==>
        displays == ListOps.ReplaceWhere(old(displays), DisplayKey, old(selected).value.id, refetch.value) &&
        !showAssignMenuModal && selected == None
      ensures old(selected).Some? && !(assign.Ok? && refetch.Ok?) ==>
        displays == old(displays) && showAssignMenuModal == old(showAssignMenuModal) && selected == old(selected)
    {
      calls := [];
      if selected.None? {
        return;
      }
      var id := selected.value.id;
      assigning := true;
      calls := [Api.AssignMenu(id, menuId)];
      if assign.Ok? {
        calls := calls + [Api.GetDisplay(id)];
        if refetch.Ok? {
          displays := ListOps.ReplaceWhere(displays, DisplayKey, id, refetch.value);
          showAssignMenuModal := false;
          selected := None;
        }
      }
      assigning := false;
    }

    method OpenMediaUploadModal(display: Display)
      modifies this`selected, this`showMediaUpload
      ensures selected == Some(display) && showMediaUpload
    {
      selected := Some(display);
      showMediaUpload := true;
    }

    /** `handleMediaUpload` with the chosen file, if any. */
    method MediaUpload(file: Option<FileRef>, reply: Outcome<Display>) returns (calls: seq<Api.Endpoint>)
      modifies this`displays, this`showMediaUpload, this`selected, this`uploading
      ensures file.None? || old(selected).None? ==>
        calls == [] && displays == old(displays) && showMediaUpload == old(showMediaUpload) &&
        selected == old(selected) && uploading == old(uploading)
      ensures file.Some? && old(selected).Some? ==>
        calls == [Api.UploadMedia(old(selected).value.id, file.value)] && !uploading
      ensures file.Some? && old(selected).Some? && reply.Ok? ==>
        displays == ListOps.ReplaceWhere(old(displays), DisplayKey, old(selected).value.id, reply.value) &&
        !showMediaUpload && selected == None
      ensures file.Some? && old(selected).Some? && reply.Failed? ==>
        displays == old(displays) && showMediaUpload == old(showMediaUpload) && selected == old(selected)
    {
      calls := [];
      if file.None? || selected.None? {
        return;
      }
      var id := selected.value.id;
      uploading := true;
      calls := [Api.UploadMedia(id, file.value)];
      if reply.Ok? {
        displays := ListOps.ReplaceWhere(displays, DisplayKey, id, reply.value);
        showMediaUpload := false;
        selected := None;
      }
      uploading := false;
    }

    /** `handleRemoveMedia`: the server's copy of the display replaces the cached one. */
    method RemoveMedia(id: string, reply: Outcome<Display>) returns (calls: seq<Api.Endpoint>)
      modifies this`displays
      ensures calls == [Api.RemoveMedia(id)]
      ensures displays == if reply.Ok? then ListOps.ReplaceWhere(old(displays), DisplayKey, id, reply.value) else old(displays)
    {
      calls := [Api.RemoveMedia(id)];
      if reply.Ok? {
        displays := ListOps.ReplaceWhere(displays, DisplayKey, id, reply.value);
      }
    }
  }
}
