/**
 * The REST client (src/services/api.ts): one request per endpoint, built from a
 * fixed path template with ids spliced in, plus the request interceptor that
 * attaches the stored bearer token and the response interceptor that turns a
 * 401 into a hard logout.
 *
 * The partner of the path builders is `Parse`, a router that reads a request
 * back into the endpoint it was built from; `ParseBuild` proves that every
 * endpoint survives the trip whenever its ids contain no '/'.
 */
module Api {
  import opened Types
  import Browser

  datatype Method = GET | POST | PUT | PATCH | DELETE

  /** The body of `createItem` / `updateItem`; the price is the raw form text
      that the page hands to `parseFloat`. */
  datatype ItemData = ItemData(
    name: string,
    description: string,
    priceText: string,
    category: string,
    imageUrl: Option<string>,
    isAvailable: Option<bool>)

  /** The body of `createMenu` / `updateMenu`. */
  datatype MenuData = MenuData(name: Option<string>, description: Option<string>, items: Option<seq<string>>)

  /** The body of `createDisplay` / `updateDisplay`. */
  datatype DisplayData = DisplayData(name: Option<string>, currentMenu: Option<string>)

  datatype Body =
    | NoBody
    | RegisterBody(email: string, password: string, restaurantName: string)
    | LoginBody(email: string, password: string)
    | RestaurantNameBody(name: string)
    | MenuBody(menu: MenuData)
    | ItemBody(item: ItemData)
    | DisplayBody(display: DisplayData)
    | MenuIdBody(menuId: string)
    | PairingCodeBody(pairingCode: string)
    | MediaForm(media: FileRef)

  datatype Request = Request(verb: Method, path: string, body: Body)

  /** One constructor per function of `authAPI`, `restaurantAPI`, `menuAPI`,
      `itemAPI` and `displayAPI`, carrying that function's arguments. */
  datatype Endpoint =
    | Register(email: string, password: string, restaurantName: string)
    | Login(email: string, password: string)
    | GetMyRestaurant
    | GetRestaurant(restaurantId: string)
    | UpdateRestaurant(restaurantId: string, name: string)
    | GetStats(restaurantId: string)
    | CreateMenu(restaurantId: string, menu: MenuData)
    | GetMenus(restaurantId: string)
    | GetMenu(menuId: string)
    | UpdateMenu(menuId: string, menu: MenuData)
    | DeleteMenu(menuId: string)
    | CreateItem(restaurantId: string, item: ItemData)
    | GetItems(restaurantId: string)
    | UpdateItem(itemId: string, item: ItemData)
    | ToggleItemAvailability(itemId: string)
    | DeleteItem(itemId: string)
    | CreateDisplay(restaurantId: string, display: DisplayData)
    | GetDisplays(restaurantId: string)
    | GetDisplay(displayId: string)
    | UpdateDisplay(displayId: string, display: DisplayData)
    | AssignMenu(displayId: string, menuId: string)
    | RegeneratePairingCode(displayId: string)
    | PairDisplay(pairingCode: string)
    | GetDisplayByPairingCode(pairingCode: string)
    | UploadMedia(displayId: string, file: FileRef)
    | RemoveMedia(displayId: string)
    | DeleteDisplay(displayId: string)

  /** The request each endpoint function sends: its method, its path template
      with the ids spliced in (`Join(["menus", id])` is `/menus/${id}`, see `Join2`)
      and its body. */
  function Build(e: Endpoint): (r: Request)
    ensures r.path != "" && r.path[0] == '/'
    ensures r.verb == GET || r.verb == DELETE ==> r.body == NoBody
    ensures r.verb == POST || r.verb == PUT ==> r.body != NoBody
  {
    Request(Verb(e), Join(Segments(e)), BodyOf(e))
  }

  function Verb(e: Endpoint): Method {
    match e
    case Register(_, _, _) => POST
    case Login(_, _) => POST
    case GetMyRestaurant => GET
    case GetRestaurant(_) => GET
    case UpdateRestaurant(_, _) => PUT
    case GetStats(_) => GET
    case CreateMenu(_, _) => POST
    case GetMenus(_) => GET
    case GetMenu(_) => GET
    case UpdateMenu(_, _) => PUT
    case DeleteMenu(_) => DELETE
    case CreateItem(_, _) => POST
    case GetItems(_) => GET
    case UpdateItem(_, _) => PUT
    case ToggleItemAvailability(_) => PATCH
    case DeleteItem(_) => DELETE
    case CreateDisplay(_, _) => POST
    case GetDisplays(_) => GET
    case GetDisplay(_) => GET
    case UpdateDisplay(_, _) => PUT
    case AssignMenu(_, _) => PATCH
    case RegeneratePairingCode(_) => PATCH
    case PairDisplay(_) => POST
    case GetDisplayByPairingCode(_) => GET
    case UploadMedia(_, _) => POST
    case RemoveMedia(_) => DELETE
    case DeleteDisplay(_) => DELETE
  }

  /** The path template of each endpoint, segment by segment. */
  function Segments(e: Endpoint): seq<string> {
    match e
    case Register(_, _, _) => ["auth", "register"]
    case Login(_, _) => ["auth", "login"]
    case GetMyRestaurant => ["restaurants", "my", "restaurant"]
    case GetRestaurant(id) => ["restaurants", id]
    case UpdateRestaurant(id, _) => ["restaurants", id]
    case GetStats(id) => ["restaurants", id, "stats"]
    case CreateMenu(rid, _) => ["menus", "restaurants", rid]
    case GetMenus(rid) => ["menus", "restaurants", rid]
    case GetMenu(id) => ["menus", id]
    case UpdateMenu(id, _) => ["menus", id]
    case DeleteMenu(id) => ["menus", id]
    case CreateItem(rid, _) => ["items", "restaurants", rid]
    case GetItems(rid) => ["items", "restaurants", rid]
    case UpdateItem(id, _) => ["items", id]
    case ToggleItemAvailability(id) => ["items", id, "toggle"]
    case DeleteItem(id) => ["items", id]
    case CreateDisplay(rid, _) => ["displays", "restaurants", rid]
    case GetDisplays(rid) => ["displays", "restaurants", rid]
    case GetDisplay(id) => ["displays", id]
    case UpdateDisplay(id, _) => ["displays", id]
    case AssignMenu(id, _) => ["displays", id, "assign-menu"]
    case RegeneratePairingCode(id) => ["displays", id, "regenerate-pairing-code"]
    case PairDisplay(_) => ["displays", "pair"]
    case GetDisplayByPairingCode(code) => ["displays", "pair", code]
    case UploadMedia(id, _) => ["displays", id, "upload-media"]
    case RemoveMedia(id) => ["displays", id, "media"]
    case DeleteDisplay(id) => ["displays", id]
  }

  function BodyOf(e: Endpoint): Body {
    match e
    case Register(email, password, name) => RegisterBody(email, password, name)
    case Login(email, password) => LoginBody(email, password)
    case GetMyRestaurant => NoBody
    case GetRestaurant(_) => NoBody
    case UpdateRestaurant(_, name) => RestaurantNameBody(name)
    case GetStats(_) => NoBody
    case CreateMenu(_, data) => MenuBody(data)
    case GetMenus(_) => NoBody
    case GetMenu(_) => NoBody
    case UpdateMenu(_, data) => MenuBody(data)
    case DeleteMenu(_) => NoBody
    case CreateItem(_, data) => ItemBody(data)
    case GetItems(_) => NoBody
    case UpdateItem(_, data) => ItemBody(data)
    case ToggleItemAvailability(_) => NoBody
    case DeleteItem(_) => NoBody
    case CreateDisplay(_, data) => DisplayBody(data)
    case GetDisplays(_) => NoBody
    case GetDisplay(_) => NoBody
    case UpdateDisplay(_, data) => DisplayBody(data)
    case AssignMenu(_, menuId) => MenuIdBody(menuId)
    case RegeneratePairingCode(_) => NoBody
    case PairDisplay(code) => PairingCodeBody(code)
    case GetDisplayByPairingCode(_) => NoBody
    case UploadMedia(_, file) => MediaForm(file)
    case RemoveMedia(_) => NoBody
    case DeleteDisplay(_) => NoBody
  }

  // ---------------------------------------------------------------------
  // Paths as '/'-separated segments

  predicate NoSlash(s: string) {
    '/' !in s
  }

  /** The ids an endpoint splices into its path. */
  function PathParams(e: Endpoint): seq<string> {
    match e
    case GetRestaurant(id) => [id]
    case UpdateRestaurant(id, _) => [id]
    case GetStats(id) => [id]
    case CreateMenu(rid, _) => [rid]
    case GetMenus(rid) => [rid]
    case GetMenu(id) => [id]
    case UpdateMenu(id, _) => [id]
    case DeleteMenu(id) => [id]
    case CreateItem(rid, _) => [rid]
    case GetItems(rid) => [rid]
    case UpdateItem(id, _) => [id]
    case ToggleItemAvailability(id) => [id]
    case DeleteItem(id) => [id]
    case CreateDisplay(rid, _) => [rid]
    case GetDisplays(rid) => [rid]
    case GetDisplay(id) => [id]
    case UpdateDisplay(id, _) => [id]
    case AssignMenu(id, _) => [id]
    case RegeneratePairingCode(id) => [id]
    case GetDisplayByPairingCode(code) => [code]
    case UploadMedia(id, _) => [id]
    case RemoveMedia(id) => [id]
    case DeleteDisplay(id) => [id]
    case _ => []
  }

  predicate WellFormed(e: Endpoint) {
    forall i :: 0 <= i < |PathParams(e)| ==> NoSlash(PathParams(e)[i])
  }

  function Join(segs: seq<string>): string {
    if segs == [] then "" else "/" + segs[0] + Join(segs[1..])
  }

  /** The characters of `s` up to its first '/'. */
  function Segment(s: string): (r: string)
    ensures |r| <= |s| && r == s[..|r|] && NoSlash(r)
    ensures |r| == |s| || s[|r|] == '/'
  {
    if s == [] || s[0] == '/' then [] else [s[0]] + Segment(s[1..])
  }

  /** A path "/a/b/c" as its segments ["a", "b", "c"]; anything not starting
      with '/' is not a path. */
  function Split(p: string): Option<seq<string>>
    decreases |p|
  {
    if p == [] then Some([])
    else if p[0] != '/' then None
    else
      var seg := Segment(p[1..]);
      match Split(p[1 + |seg|..])
      case None => None
      case Some(rest) => Some([seg] + rest)
  }

  /** The router: which endpoint a request addresses, read from its method,
      its path segments and the kind of its body. */
  function Parse(r: Request): Option<Endpoint> {
    match Split(r.path)
    case None => None
    case Some(p) => Route(r.verb, p, r.body)
  }

  function Route(m: Method, p: seq<string>, b: Body): Option<Endpoint> {
    if |p| < 2 then None
    else if p[0] == "auth" then RouteAuth(m, p, b)
    else if p[0] == "restaurants" then RouteRestaurants(m, p, b)
    else if p[0] == "menus" then RouteMenus(m, p, b)
    else if p[0] == "items" then RouteItems(m, p, b)
    else if p[0] == "displays" then RouteDisplays(m, p, b)
    else None
  }

  function RouteAuth(m: Method, p: seq<string>, b: Body): Option<Endpoint>
    requires |p| >= 2
  {
    if |p| == 2 && p[1] == "register" && m == POST && b.RegisterBody? then
      Some(Register(b.email, b.password, b.restaurantName))
    else if |p| == 2 && p[1] == "login" && m == POST && b.LoginBody? then Some(Login(b.email, b.password))
    else None
  }

  function RouteRestaurants(m: Method, p: seq<string>, b: Body): Option<Endpoint>
    requires |p| >= 2
  {
    if |p| == 3 && p[1] == "my" && p[2] == "restaurant" && m == GET && b.NoBody? then Some(GetMyRestaurant)
    else if |p| == 2 && m == GET && b.NoBody? then Some(GetRestaurant(p[1]))
    else if |p| == 2 && m == PUT && b.RestaurantNameBody? then Some(UpdateRestaurant(p[1], b.name))
    else if |p| == 3 && p[2] == "stats" && m == GET && b.NoBody? then Some(GetStats(p[1]))
    else None
  }

  function RouteMenus(m: Method, p: seq<string>, b: Body): Option<Endpoint>
    requires |p| >= 2
  {
    if |p| == 3 && p[1] == "restaurants" && m == POST && b.MenuBody? then Some(CreateMenu(p[2], b.menu))
    else if |p| == 3 && p[1] == "restaurants" && m == GET && b.NoBody? then Some(GetMenus(p[2]))
    else if |p| == 2 && m == GET && b.NoBody? then Some(GetMenu(p[1]))
    else if |p| == 2 && m == PUT && b.MenuBody? then Some(UpdateMenu(p[1], b.menu))
    else if |p| == 2 && m == DELETE && b.NoBody? then Some(DeleteMenu(p[1]))
    else None
  }

  function RouteItems(m: Method, p: seq<string>, b: Body): Option<Endpoint>
    requires |p| >= 2
  {
    if |p| == 3 && p[1] == "restaurants" && m == POST && b.ItemBody? then Some(CreateItem(p[2], b.item))
    else if |p| == 3 && p[1] == "restaurants" && m == GET && b.NoBody? then Some(GetItems(p[2]))
    else if |p| == 2 && m == PUT && b.ItemBody? then Some(UpdateItem(p[1], b.item))
    else if |p| == 3 && p[2] == "toggle" && m == PATCH && b.NoBody? then Some(ToggleItemAvailability(p[1]))
    else if |p| == 2 && m == DELETE && b.NoBody? then Some(DeleteItem(p[1]))
    else None
  }

  function RouteDisplays(m: Method, p: seq<string>, b: Body): Option<Endpoint>
    requires |p| >= 2
  {
    if |p| == 2 then
      if p[1] == "pair" && m == POST && b.PairingCodeBody? then Some(PairDisplay(b.pairingCode))
      else if m == GET && b.NoBody? then Some(GetDisplay(p[1]))
      else if m == PUT && b.DisplayBody? then Some(UpdateDisplay(p[1], b.display))
      else if m == DELETE && b.NoBody? then Some(DeleteDisplay(p[1]))
      else None
    else if |p| == 3 then
      if p[1] == "restaurants" && m == POST && b.DisplayBody? then Some(CreateDisplay(p[2], b.display))
      else if p[1] == "restaurants" && m == GET && b.NoBody? then Some(GetDisplays(p[2]))
      else if p[1] == "pair" && m == GET && b.NoBody? then Some(GetDisplayByPairingCode(p[2]))
      else RouteDisplayAction(m, p[1], p[2], b)
    else None
  }

  /** `/displays/:id/<action>` */
  function RouteDisplayAction(m: Method, id: string, action: string, b: Body): Option<Endpoint> {
    if action == "assign-menu" && m == PATCH && b.MenuIdBody? then Some(AssignMenu(id, b.menuId))
    else if action == "regenerate-pairing-code" && m == PATCH && b.NoBody? then Some(RegeneratePairingCode(id))
    else if action == "upload-media" && m == POST && b.MediaForm? then Some(UploadMedia(id, b.media))
    else if action == "media" && m == DELETE && b.NoBody? then Some(RemoveMedia(id))
    else None
  }

  lemma {:induction false} SegmentOfJoin(a: string, rest: string)
    requires NoSlash(a) && (rest == [] || rest[0] == '/')
    ensures Segment(a + rest) == a
  {
    if a != [] {
      assert (a + rest)[1..] == a[1..] + rest;
      SegmentOfJoin(a[1..], rest);
    } else {
      assert a + rest == rest;
    }
  }

  /** Splitting a joined list of slash-free segments gives the segments back. */
  lemma {:induction false} SplitJoin(segs: seq<string>)
    requires forall i :: 0 <= i < |segs| ==> NoSlash(segs[i])
    ensures Split(Join(segs)) == Some(segs)
  {
    if segs != [] {
      var p := Join(segs);
      var tail := Join(segs[1..]);
      assert p == "/" + (segs[0] + tail);
      assert p[1..] == segs[0] + tail;
      SegmentOfJoin(segs[0], tail);
      assert p[1 + |segs[0]|..] == tail;
      SplitJoin(segs[1..]);
      assert [segs[0]] + segs[1..] == segs;
    }
  }

  lemma Join2(a: string, b: string)
    ensures Join([a, b]) == "/" + a + "/" + b
  {
    assert Join([a, b]) == "/" + a + Join([b]);
    assert Join([b]) == "/" + b + Join([]);
  }

  lemma Join3(a: string, b: string, c: string)
    ensures Join([a, b, c]) == "/" + a + "/" + b + "/" + c
  {
    assert Join([a, b, c]) == "/" + a + Join([b, c]);
    Join2(b, c);
  }

  /** `updateMenu(id, data)` is a PUT of the data to `/menus/` + id. */
  lemma UpdateMenuRequest(id: string, data: MenuData)
    ensures Build(UpdateMenu(id, data)) == Request(PUT, "/menus/" + id, MenuBody(data))
  {
    Join2("menus", id);
    assert "/" + "menus" + "/" + id == "/menus/" + id;
  }

  /** `pairDisplay(code)` posts `{ pairingCode }` to the fixed `/displays/pair`,
      and `getDisplayByPairingCode(code)` is a GET of `/displays/pair/` + code. */
  lemma PairingRequests(code: string)
    ensures Build(PairDisplay(code)) == Request(POST, "/displays/pair", PairingCodeBody(code))
    ensures Build(GetDisplayByPairingCode(code)) == Request(GET, "/displays/pair/" + code, NoBody)
  {
    Join2("displays", "pair");
    Join3("displays", "pair", code);
    assert "/" + "displays" + "/" + "pair" == "/displays/pair";
    assert "/" + "displays" + "/" + "pair" + "/" + code == "/displays/pair/" + code;
  }

  lemma SplitPath2(a: string, b: string)
    requires NoSlash(a) && NoSlash(b)
    ensures Split("/" + a + "/" + b) == Some([a, b])
  {
    Join2(a, b);
    SplitJoin([a, b]);
  }

  lemma SplitPath3(a: string, b: string, c: string)
    requires NoSlash(a) && NoSlash(b) && NoSlash(c)
    ensures Split("/" + a + "/" + b + "/" + c) == Some([a, b, c])
  {
    Join3(a, b, c);
    SplitJoin([a, b, c]);
  }

  /** An endpoint's own template routes back to it. */
  predicate Routes(e: Endpoint) {
    Route(Verb(e), Segments(e), BodyOf(e)) == Some(e)
  }

  /** The segments of a well-formed endpoint's template contain no '/', so they split
      back out of the path. */
  lemma SplitSegments(e: Endpoint)
    requires WellFormed(e)
    ensures Split(Build(e).path) == Some(Segments(e))
  {
    var segs := Segments(e);
    var ps := PathParams(e);
    forall i | 0 <= i < |segs|
      ensures NoSlash(segs[i])
    {
      if ps != [] && segs[i] == ps[0] {
        assert NoSlash(ps[0]);
      }
    }
    SplitJoin(segs);
  }

  /** The router recovers every well-formed endpoint from the request it builds:
      the path templates never collide and splice each id in recoverably. */
  lemma ParseBuild(e: Endpoint)
    requires WellFormed(e)
    ensures Parse(Build(e)) == Some(e)
  {
    SplitSegments(e);
    match e
    case Register(email, password, name) => AuthRoutes(email, password, name);
    case Login(email, password) => AuthRoutes(email, password, "");
    case GetMyRestaurant => AuthRoutes("", "", "");
    case GetRestaurant(id) => RestaurantRoutes(id, "");
    case UpdateRestaurant(id, name) => RestaurantRoutes(id, name);
    case GetStats(id) => RestaurantRoutes(id, "");
    case CreateMenu(rid, data) => MenuRoutes(rid, data);
    case GetMenus(rid) => MenuRoutes(rid, MenuData(None, None, None));
    case GetMenu(id) => MenuRoutes(id, MenuData(None, None, None));
    case UpdateMenu(id, data) => MenuRoutes(id, data);
    case DeleteMenu(id) => MenuRoutes(id, MenuData(None, None, None));
    case CreateItem(rid, data) => ItemCollectionRoutes(rid, data);
    case GetItems(rid) => ItemCollectionRoutes(rid, NoItemData);
    case UpdateItem(id, data) => ItemRoutes(id, data);
    case ToggleItemAvailability(id) => ItemRoutes(id, NoItemData);
    case DeleteItem(id) => ItemRoutes(id, NoItemData);
    case CreateDisplay(rid, data) => DisplayCollectionRoutes(rid, data);
    case GetDisplays(rid) => DisplayCollectionRoutes(rid, DisplayData(None, None));
    case GetDisplay(id) => DisplayRoutes(id);
    case UpdateDisplay(id, data) => DisplayUpdateRoutes(id, data);
    case DeleteDisplay(id) => DisplayRoutes(id);
    case AssignMenu(id, menuId) => DisplayMenuRoutes(id, menuId);
    case RegeneratePairingCode(id) => DisplayMenuRoutes(id, "");
    case UploadMedia(id, file) => DisplayMediaRoutes(id, file);
    case RemoveMedia(id) => DisplayMediaRoutes(id, 0);
    case PairDisplay(code) => PairingRoutes(code);
    case GetDisplayByPairingCode(code) => PairingRoutes(code);
  }

  const NoItemData := ItemData("", "", "", "", None, None)

  lemma AuthRoutes(email: string, password: string, name: string)
    ensures Routes(Register(email, password, name))
    ensures Routes(Login(email, password))
    ensures Routes(GetMyRestaurant)
  {
  }

  lemma RestaurantRoutes(id: string, name: string)
    ensures Routes(GetRestaurant(id))
    ensures Routes(UpdateRestaurant(id, name))
    ensures Routes(GetStats(id))
  {
  }

  lemma MenuRoutes(id: string, data: MenuData)
    ensures Routes(CreateMenu(id, data))
    ensures Routes(GetMenus(id))
    ensures Routes(GetMenu(id))
    ensures Routes(UpdateMenu(id, data))
    ensures Routes(DeleteMenu(id))
  {
  }

  lemma ItemCollectionRoutes(rid: string, data: ItemData)
    ensures Routes(CreateItem(rid, data))
    ensures Routes(GetItems(rid))
  {
  }

  lemma ItemRoutes(id: string, data: ItemData)
    ensures Routes(UpdateItem(id, data))
    ensures Routes(ToggleItemAvailability(id))
    ensures Routes(DeleteItem(id))
  {
  }

  lemma DisplayCollectionRoutes(rid: string, data: DisplayData)
    ensures Routes(CreateDisplay(rid, data))
    ensures Routes(GetDisplays(rid))
  {
  }

  lemma DisplayRoutes(id: string)
    ensures Routes(GetDisplay(id))
    ensures Routes(DeleteDisplay(id))
  {
  }

  lemma DisplayUpdateRoutes(id: string, data: DisplayData)
    ensures Routes(UpdateDisplay(id, data))
  {
  }

  lemma DisplayMenuRoutes(id: string, menuId: string)
    ensures Routes(AssignMenu(id, menuId))
    ensures Routes(RegeneratePairingCode(id))
  {
  }

  lemma DisplayMediaRoutes(id: string, file: FileRef)
    ensures Routes(UploadMedia(id, file))
    ensures Routes(RemoveMedia(id))
  {
  }

  lemma PairingRoutes(code: string)
    ensures Routes(PairDisplay(code))
    ensures Routes(GetDisplayByPairingCode(code))
  {
  }

  /** Two different well-formed endpoint calls never send the same request. */
  lemma BuildInjective(e1: Endpoint, e2: Endpoint)
    requires WellFormed(e1) && WellFormed(e2) && Build(e1) == Build(e2)
    ensures e1 == e2
  {
    ParseBuild(e1);
    ParseBuild(e2);
  }

  // ---------------------------------------------------------------------
  // Interceptors

  /** A request's configuration; the request interceptor mutates its headers in place. */
  class RequestConfig {
    var headers: map<string, string>

    constructor (headers: map<string, string>)
      ensures this.headers == headers
    {
      this.headers := headers;
    }
  }

  /** The headers after the request interceptor, given what is in storage. */
  function Authorized(headers: map<string, string>, storage: map<string, string>): map<string, string> {
    match Browser.Stored(storage, "token")
    case Some(token) => headers["Authorization" := "Bearer " + token]
    case None => headers
  }

  /** The token a server reads back out of an `Authorization` header. */
  function BearerToken(header: string): Option<string> {
    if |header| >= 7 && header[..7] == "Bearer " then Some(header[7..]) else None
  }

  /** With a stored token, the request carries `Authorization: Bearer <token>`
      from which the token reads back; without one, the headers are untouched.
      No other header is ever changed. */
  lemma AuthorizedSpec(headers: map<string, string>, storage: map<string, string>)
    ensures var r := Authorized(headers, storage);
      && (Browser.Stored(storage, "token").Some? ==>
            "Authorization" in r && BearerToken(r["Authorization"]) == Browser.Stored(storage, "token"))
      && (Browser.Stored(storage, "token").None? ==> r == headers)
      && (forall k :: k != "Authorization" ==> (k in r <==> k in headers))
      && (forall k :: k != "Authorization" && k in r ==> r[k] == headers[k])
  {
    var r := Authorized(headers, storage);
    match Browser.Stored(storage, "token")
    case Some(token) =>
      var h := "Bearer " + token;
      assert h[..7] == "Bearer ";
      assert h[7..] == token;
    case None =>
  }

  /** `config => { if (token) config.headers.Authorization = ...; return config; }` */
  method AttachToken(config: RequestConfig, window: Browser.Window) returns (r: RequestConfig)
    modifies config
    ensures r == config
    ensures config.headers == Authorized(old(config.headers), window.storage)
  {
    var token := Browser.Stored(window.storage, "token");
    if token.Some? {
      config.headers := config.headers["Authorization" := "Bearer " + token.value];
    }
    r := config;
  }

  /** What the response interceptor sees of a failed request. */
  datatype HttpError = HttpError(status: Option<int>)

  /** The session keys a 401 removes. */
  function ClearSession(storage: map<string, string>): (r: map<string, string>)
    ensures "token" !in r && "user" !in r
    ensures forall k :: k != "token" && k != "user" ==> (k in r <==> k in storage)
    ensures forall k :: k in r ==> r[k] == storage[k]
  {
    storage - {"token", "user"}
  }

  /** A successful response passes through the interceptor unchanged. */
  function OnResponse<T>(response: T): (r: T)
    ensures r == response
  {
    response
  }

  /** The error branch of the response interceptor: a 401 logs the session out
      and redirects to the login page; any error is rejected to the caller as is. */
  method OnResponseError(window: Browser.Window, error: HttpError) returns (rejected: HttpError)
    modifies window
    ensures rejected == error
    ensures error.status == Some(401) ==>
      window.storage == ClearSession(old(window.storage)) && window.href == "/login"
    ensures error.status != Some(401) ==>
      window.storage == old(window.storage) && window.href == old(window.href)
  {
    if error.status == Some(401) {
      window.storage := window.storage - {"token"};
      window.storage := window.storage - {"user"};
      window.href := "/login";
    }
    rejected := error;
  }

  /** After a 401 the next request goes out without any stored credentials. */
  lemma NoAuthorizationAfterLogout(headers: map<string, string>, storage: map<string, string>)
    ensures Authorized(headers, ClearSession(storage)) == headers
  {
    assert Browser.Stored(ClearSession(storage), "token").None?;
  }
}
