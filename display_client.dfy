/**
 * The kiosk screen (src/pages/DisplayClient.tsx). On mount it re-fetches the
 * display whose pairing code is stored in the browser; otherwise it asks for a
 * code and pairs with it. Once paired it shows the display's media and its
 * menu, one item at a time (`MenuViewer`).
 *
 * Every handler returns the API calls it issued, and the outcome of each call
 * is a parameter. The screen is a pure function of the component's state.
 */
module DisplayClient {
  import opened Types
  import Browser
  import Api

  // ---------------------------------------------------------------------
  // MenuViewer: one item at a time

  /** One tick of the 5-second interval: advance modulo the item count, but
      only when there is more than one item. */
  function Tick(index: nat, count: nat): (r: nat)
    ensures count > 1 && index < count ==> r < count
    ensures count <= 1 ==> r == index
  {
    if count > 1 then (index + 1) % count else index
  }

  /** The index after `k` ticks from the initial 0. */
  function Ticks(k: nat, count: nat): (r: nat)
    ensures count > 0 ==> r < count
  {
    if k == 0 then 0 else Tick(Ticks(k - 1, count), count)
  }

  /** From 0, the index after `k` ticks is `k mod n`: it stays in range and
      cycles 0, 1, ..., n-1, 0, ... With at most one item it stays at 0. */
  lemma {:induction false} TicksCycle(k: nat, count: nat)
    ensures count > 1 ==> Ticks(k, count) == k % count
    ensures count <= 1 ==> Ticks(k, count) == 0
  {
    if k > 0 {
      TicksCycle(k - 1, count);
      if count > 1 {
        ModNext(k - 1, count);
      }
    }
  }

  /** `(a mod n + 1) mod n == (a + 1) mod n` */
  lemma ModNext(a: nat, n: nat)
    requires n > 1
    ensures ((a % n) + 1) % n == (a + 1) % n
  {
    var q, r := a / n, a % n;
    assert a == q * n + r;
    if r + 1 < n {
      ModUnique(a + 1, q, r + 1, n);
      ModUnique(r + 1, 0, r + 1, n);
    } else {
      assert a + 1 == (q + 1) * n;
      ModUnique(a + 1, q + 1, 0, n);
      ModUnique(r + 1, 1, 0, n);
    }
  }

  /** Euclidean division is unique. */
  lemma ModUnique(x: nat, q: nat, r: nat, n: nat)
    requires n > 0 && r < n && x == q * n + r
    ensures x % n == r
  {
    var q', r' := x / n, x % n;
    assert x == q' * n + r';
    if q' < q {
      MulAtLeast(q - q', n);
      assert false;
    } else if q' > q {
      MulAtLeast(q' - q, n);
      assert false;
    }
  }

  lemma {:induction false} MulAtLeast(d: nat, n: nat)
    requires d >= 1
    ensures d * n >= n
  {
    if d > 1 {
      MulAtLeast(d - 1, n);
      assert d * n == (d - 1) * n + n;
    }
  }

  /** The dot row: one dot per item, lit for the current one. */
  function Dots(index: nat, count: nat): (r: seq<bool>)
    ensures |r| == count
    ensures forall k :: 0 <= k < count ==> (r[k] <==> k == index)
  {
    seq(count, k requires 0 <= k < count => k == index)
  }

  function CountLit(s: seq<bool>): nat {
    if s == [] then 0 else (if s[0] then 1 else 0) + CountLit(s[1..])
  }

  /** Exactly one dot is lit when the index is in range. */
  lemma DotsOneLit(index: nat, count: nat)
    requires index < count
    ensures CountLit(Dots(index, count)) == 1
  {
    var d := Dots(index, count);
    CountLitSplit(d, index);
    CountLitNone(d[..index]);
    CountLitNone(d[index + 1..]);
  }

  lemma {:induction false} CountLitNone(s: seq<bool>)
    requires forall k :: 0 <= k < |s| ==> !s[k]
    ensures CountLit(s) == 0
  {
    if s != [] {
      CountLitNone(s[1..]);
    }
  }

  lemma {:induction false} CountLitSplit(s: seq<bool>, i: nat)
    requires i < |s|
    ensures CountLit(s) == CountLit(s[..i]) + (if s[i] then 1 else 0) + CountLit(s[i + 1..])
  {
    if i > 0 {
      CountLitSplit(s[1..], i - 1);
      assert s[1..][..i - 1] == s[1..i];
      assert s[1..][i - 1 + 1..] == s[i + 1..];
      assert s[..i][1..] == s[1..i];
    }
  }

  /** The "i of n" caption under the dots. */
  datatype Counter = Counter(position: nat, count: nat)

  /** The item card shown for the current index: an index past the end of the
      list would make `menu.items[currentItemIndex]` undefined. */
  datatype Viewer =
    | EmptyMenu(name: string, description: Option<string>)
    | Showing(item: Option<Item>, dots: Option<seq<bool>>, caption: Option<Counter>)

  /** `MenuViewer` rendering at `index`: the "No items" card for an empty menu;
      otherwise the current item, and for more than one item the dot row and
      the "i+1 of n" label. */
  function ViewerAt(menu: Menu, index: nat): (r: Viewer)
    ensures menu.items == [] <==> r.EmptyMenu?
    ensures r.Showing? ==> (r.dots.Some? <==> |menu.items| > 1) && (r.caption.Some? <==> |menu.items| > 1)
    ensures r.Showing? && index < |menu.items| ==> r.item == Some(menu.items[index])
  {
    var n := |menu.items|;
    if n == 0 then EmptyMenu(menu.name, menu.description)
    else
      Showing(if index < n then Some(menu.items[index]) else None,
              if n > 1 then Some(Dots(index, n)) else None,
              if n > 1 then Some(Counter(index + 1, n)) else None)
  }

  /** Whatever the number of ticks, the viewer shows a real item, and with
      several items exactly one lit dot and a label "i+1 of n" with i+1 <= n. */
  lemma ViewerAfterTicks(menu: Menu, k: nat)
    requires menu.items != []
    ensures var n := |menu.items|;
      var v := ViewerAt(menu, Ticks(k, n));
      v.Showing? && v.item == Some(menu.items[Ticks(k, n)]) &&
      (n > 1 ==> CountLit(v.dots.value) == 1 && 1 <= v.caption.value.position <= n && v.caption.value.count == n)
  {
    var n := |menu.items|;
    TicksCycle(k, n);
    if n > 1 {
      DotsOneLit(Ticks(k, n), n);
    }
  }

  // ---------------------------------------------------------------------
  // The screen

  datatype Media = NoMedia | ImageMedia(src: string) | VideoMedia(src: string) | EmptyMediaFrame

  datatype Content = MenuContent(menu: Menu) | DisplayReady

  datatype Screen =
    | Spinner
    | PairingForm(code: string, error: Option<string>, canConnect: bool)
    | NotFound
    | FullDisplay(name: string, media: Media, content: Content)

  /** The media block: shown only for a non-empty `mediaUrl`, as an image or a
      video by `mediaType`, and as an empty frame for any other type. */
  function MediaOf(d: Display, apiBase: string): (r: Media)
    ensures r.NoMedia? <==> d.mediaUrl.None? || d.mediaUrl == Some("")
    ensures r.ImageMedia? ==> d.mediaType == Some(Image) && r.src == apiBase + d.mediaUrl.value
    ensures r.VideoMedia? ==> d.mediaType == Some(Video) && r.src == apiBase + d.mediaUrl.value
    ensures r.EmptyMediaFrame? ==> d.mediaType.None?
    ensures d.mediaUrl.Some? && d.mediaUrl.value != "" && d.mediaType == Some(Image) ==>
      r == ImageMedia(apiBase + d.mediaUrl.value)
    ensures d.mediaUrl.Some? && d.mediaUrl.value != "" && d.mediaType == Some(Video) ==>
      r == VideoMedia(apiBase + d.mediaUrl.value)
    ensures d.mediaUrl.Some? && d.mediaUrl.value != "" && d.mediaType.None? ==> r == EmptyMediaFrame
  {
    match d.mediaUrl
    case None => NoMedia
    case Some(url) =>
      if url == "" then NoMedia
      else match d.mediaType
        case Some(Image) => ImageMedia(apiBase + url)
        case Some(Video) => VideoMedia(apiBase + url)
        case None => EmptyMediaFrame
  }

  /** The state in which the "Display Not Found" screen is rendered. */
  predicate ShowsNotFound(loading: bool, isPaired: bool, display: Option<Display>) {
    !loading && isPaired && display.None?
  }

  /** The render cascade: loading first, then the pairing form for an unpaired
      kiosk with no display, then "Display Not Found" for a missing display,
      and the full display otherwise. */
  function ScreenOf(loading: bool, isPaired: bool, display: Option<Display>, pairingCode: string,
                    error: Option<string>, apiBase: string): (r: Screen)
    ensures r.Spinner? <==> loading
    ensures r.PairingForm? <==> !loading && !isPaired && display.None?
    ensures r.NotFound? <==> ShowsNotFound(loading, isPaired, display)
    ensures r.FullDisplay? <==> !loading && display.Some?
    ensures r.PairingForm? ==> r.code == pairingCode && r.error == error && (r.canConnect <==> !IsBlank(pairingCode))
    ensures r.FullDisplay? ==>
      r.name == display.value.name && r.media == MediaOf(display.value, apiBase) &&
      (r.content.MenuContent? <==> display.value.currentMenu.Some?) &&
      (r.content.MenuContent? ==> r.content.menu == display.value.currentMenu.value)
  {
    if loading then Spinner
    else if !isPaired && display.None? then PairingForm(pairingCode, error, !IsBlank(pairingCode))
    else if display.None? then NotFound
    else
      var d := display.value;
      FullDisplay(d.name, MediaOf(d, apiBase),
                  if d.currentMenu.Some? then MenuContent(d.currentMenu.value) else DisplayReady)
  }

  /** A successful reply with no display in its body pairs the kiosk without a
      display: "Display Not Found" is shown, and its "Try Again" button brings
      back the pairing form with the code and error as they were. */
  lemma NotFoundRecovers(pairingCode: string, error: Option<string>, apiBase: string)
    ensures ScreenOf(false, true, None, pairingCode, error, apiBase) == NotFound
    ensures ScreenOf(false, false, None, pairingCode, error, apiBase) ==
      PairingForm(pairingCode, error, !IsBlank(pairingCode))
  {
  }

  /** The pairing-code input: the browser keeps at most six characters, and
      the handler upper-cases them. */
  function CodeInput(value: string): (r: string)
    ensures |r| <= 6
    ensures forall i :: 0 <= i < |r| ==> !('a' <= r[i] <= 'z')
  {
    UpperAscii(if |value| > 6 then value[..6] else value)
  }

  // ---------------------------------------------------------------------
  // The component

  /** The display-fetch reply is `response.data` as it came: a successful
      reply whose body holds no display sets `display` to nothing and still
      marks the kiosk paired. */
  class Kiosk {
    const window: Browser.Window
    var display: Option<Display>
    var loading: bool
    var error: Option<string>
    var pairingCode: string
    var isPaired: bool

    constructor (window: Browser.Window)
      ensures this.window == window
      ensures display == None && loading && error == None && pairingCode == "" && !isPaired
    {
      this.window := window;
      display := None;
      loading := true;
      error := None;
      pairingCode := "";
      isPaired := false;
    }

    /** The mount effect: a stored pairing code is fetched, with `fetch` as the
        outcome; without one, loading ends and nothing else changes. */
    method Mount(fetch: Outcome<Option<Display>>) returns (calls: seq<Api.Endpoint>)
      modifies this`loading, this`display, this`isPaired, this`error, window
      ensures !loading
      ensures pairingCode == old(pairingCode) && window.href == old(window.href)
      ensures Browser.Stored(old(window.storage), "pairingCode").None? ==>
        calls == [] && display == old(display) && error == old(error) && isPaired == old(isPaired) &&
        window.storage == old(window.storage)
      ensures Browser.Stored(old(window.storage), "pairingCode").Some? ==>
        calls == [Api.GetDisplayByPairingCode(old(window.storage)["pairingCode"])]
      ensures Browser.Stored(old(window.storage), "pairingCode").Some? && fetch.Ok? ==>
        display == fetch.value && isPaired && error == old(error) && window.storage == old(window.storage)
      ensures Browser.Stored(old(window.storage), "pairingCode").Some? && fetch.Failed? ==>
        display == old(display) && !isPaired && error == Some("Failed to load display") &&
        window.storage == old(window.storage) - {"displayId", "pairingCode"}
    {
      var stored := Browser.Stored(window.storage, "pairingCode");
      if stored.Some? {
        calls := FetchDisplayByPairingCode(stored.value, fetch);
      } else {
        calls := [];
        loading := false;
      }
    }

    /** `fetchDisplayByPairingCode(code)` with the outcome of the request. The
        "Display Not Found" screen follows exactly a successful reply without a
        display. */
    method FetchDisplayByPairingCode(code: string, reply: Outcome<Option<Display>>) returns (calls: seq<Api.Endpoint>)
      modifies this`loading, this`display, this`isPaired, this`error, window
      ensures calls == [Api.GetDisplayByPairingCode(code)]
      ensures !loading
      ensures reply.Ok? ==>
        display == reply.value && isPaired && error == old(error) && window.storage == old(window.storage)
      ensures reply.Failed? ==>
        display == old(display) && !isPaired && error == Some("Failed to load display") &&
        window.storage == old(window.storage) - {"displayId", "pairingCode"}
      ensures window.href == old(window.href)
      ensures ShowsNotFound(loading, isPaired, display) <==> reply == Ok(None)
    {
      loading := true;
      calls := [Api.GetDisplayByPairingCode(code)];
      if reply.Ok? {
        display := reply.value;
        isPaired := true;
      } else {
        error := Some("Failed to load display");
        window.storage := window.storage - {"displayId"};
        window.storage := window.storage - {"pairingCode"};
        isPaired := false;
      }
      loading := false;
    }

    /** Typing in the pairing-code input. */
    method EnterCode(value: string)
      modifies this`pairingCode
      ensures pairingCode == CodeInput(value)
    {
      var kept := if |value| > 6 then value[..6] else value;
      pairingCode := UpperAscii(kept);
    }

    /** `handlePairing` with the outcomes of `pairDisplay` and of the follow-up
        `getDisplayByPairingCode` (only issued once pairing succeeded). */
    method HandlePairing(pair: Outcome<Unit>, fetch: Outcome<Option<Display>>) returns (calls: seq<Api.Endpoint>)
      modifies this`loading, this`display, this`isPaired, this`error, window
      ensures window.href == old(window.href)
      ensures IsBlank(pairingCode) ==> calls == [] && window.storage == old(window.storage)
      ensures IsBlank(pairingCode) ==>
        loading == old(loading) && display == old(display) && isPaired == old(isPaired) && error == old(error)
      ensures !IsBlank(pairingCode) ==> !loading
      ensures !IsBlank(pairingCode) && pair.Failed? ==>
        calls == [Api.PairDisplay(pairingCode)] && window.storage == old(window.storage)
      ensures !IsBlank(pairingCode) && pair.Ok? ==>
        calls == [Api.PairDisplay(pairingCode), Api.GetDisplayByPairingCode(pairingCode)] &&
        window.storage == old(window.storage)["pairingCode" := pairingCode]
      ensures !IsBlank(pairingCode) && pair.Ok? && fetch.Ok? ==>
        display == fetch.value && isPaired && error == old(error)
      ensures !IsBlank(pairingCode) && pair.Ok? && fetch == Ok(None) ==> ShowsNotFound(loading, isPaired, display)
      ensures !IsBlank(pairingCode) && (pair.Failed? || fetch.Failed?) ==>
        display == old(display) && isPaired == old(isPaired) && error == Some("Invalid pairing code")
    {
      calls := [];
      if IsBlank(pairingCode) {
        return;
      }
      loading := true;
      calls := calls + [Api.PairDisplay(pairingCode)];
      if pair.Ok? {
        window.storage := window.storage["pairingCode" := pairingCode];
        calls := calls + [Api.GetDisplayByPairingCode(pairingCode)];
        if fetch.Ok? {
          display := fetch.value;
          isPaired := true;
        } else {
          error := Some("Invalid pairing code");
        }
      } else {
        error := Some("Invalid pairing code");
      }
      loading := false;
    }

    /** The "Try Again" button of the "Display Not Found" screen. */
    method TryAgain()
      modifies this`isPaired, this`display, window
      ensures window.storage == old(window.storage) - {"pairingCode"} && window.href == old(window.href)
      ensures !isPaired && display == None
    {
      window.storage := window.storage - {"pairingCode"};
      isPaired := false;
      display := None;
    }
  }

  /** After a successful pairing the stored code is the one that was entered,
      so the next mount fetches the same display. */
  lemma RemountFetchesSameCode(storage: map<string, string>, code: string)
    requires !IsBlank(code)
    ensures Browser.Stored(storage["pairingCode" := code], "pairingCode") == Some(code)
  {
  }
}
