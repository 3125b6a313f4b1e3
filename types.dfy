/**
 * The shared entity types of the admin front-end (src/types/index.ts) and the
 * small pieces of JavaScript string semantics the handlers rely on.
 */
module Types {

  datatype Option<T> = None | Some(value: T)

  /** The outcome of one awaited call: the resolved value, or any rejection. */
  datatype Outcome<T> = Ok(value: T) | Failed

  datatype Unit = Unit

  /** An opaque handle standing for a browser `File` chosen in a file input. */
  type FileRef = nat

  datatype MediaType = Image | Video

  /** Prices are opaque integers here: floating point is not modelled. */
  datatype Item = Item(
    id: string,
    name: string,
    description: Option<string>,
    price: int,
    imageUrl: Option<string>,
    category: string,
    isAvailable: bool,
    createdAt: string,
    updatedAt: string)

  datatype Menu = Menu(
    id: string,
    name: string,
    description: Option<string>,
    items: seq<Item>,
    createdAt: string,
    updatedAt: string)

  datatype Display = Display(
    id: string,
    name: string,
    pairingCode: string,
    currentMenu: Option<Menu>,
    mediaUrl: Option<string>,
    mediaType: Option<MediaType>,
    createdAt: string,
    updatedAt: string)

  function ItemKey(i: Item): string { i.id }
  function MenuKey(m: Menu): string { m.id }
  function DisplayKey(d: Display): string { d.id }

  /** `items.map(item => item.id)` */
  function ItemIds(items: seq<Item>): (r: seq<string>)
    ensures |r| == |items|
    ensures forall i :: 0 <= i < |items| ==> r[i] == items[i].id
  {
    if items == [] then [] else [items[0].id] + ItemIds(items[1..])
  }

  // ---------------------------------------------------------------------
  // JavaScript string semantics

  /** The characters `String.prototype.trim` removes: WhiteSpace and LineTerminator. */
  predicate IsJsSpace(c: char) {
    c == '\t' || c == '\n' || c == '\U{000B}' || c == '\U{000C}' || c == '\r' || c == ' ' ||
    c == '\U{00A0}' || c == '\U{1680}' || ('\U{2000}' <= c <= '\U{200A}') ||
    c == '\U{2028}' || c == '\U{2029}' || c == '\U{202F}' || c == '\U{205F}' ||
    c == '\U{3000}' || c == '\U{FEFF}'
  }

  predicate AllSpace(s: string) {
    forall i :: 0 <= i < |s| ==> IsJsSpace(s[i])
  }

  /** The leading run of whitespace removed: what is left is a suffix of `s`
      that starts with a non-space, or nothing. */
  function TrimStart(s: string): (r: string)
    ensures |r| <= |s| && r == s[|s| - |r|..]
    ensures AllSpace(s[..|s| - |r|])
    ensures r == [] || !IsJsSpace(r[0])
  {
    if s == [] || !IsJsSpace(s[0]) then s
    else
      var r := TrimStart(s[1..]);
      assert s[1..][..|s[1..]| - |r|] == s[1..|s| - |r|];
      r
  }

  /** The trailing run of whitespace removed. */
  function TrimEnd(s: string): (r: string)
    ensures |r| <= |s| && r == s[..|r|]
    ensures AllSpace(s[|r|..])
    ensures r == [] || !IsJsSpace(r[|r| - 1])
  {
    if s == [] || !IsJsSpace(s[|s| - 1]) then s
    else
      var r := TrimEnd(s[..|s| - 1]);
      assert s[..|s| - 1][|r|..] + [s[|s| - 1]] == s[|r|..];
      r
  }

  /** `s.trim()` */
  function Trim(s: string): string {
    TrimEnd(TrimStart(s))
  }

  /** `!s.trim()`, the guard every form handler applies to a name: by
      `BlankIffTrimEmpty`, the trimmed string is empty exactly when every
      character is whitespace. */
  predicate IsBlank(s: string) {
    AllSpace(s)
  }

  /** A string trims to nothing exactly when every one of its characters is whitespace. */
  lemma BlankIffTrimEmpty(s: string)
    ensures Trim(s) == "" <==> IsBlank(s)
  {
    var t := TrimStart(s);
    if Trim(s) == "" {
      assert AllSpace(t[0..]);
      assert t == [];
      assert s[..|s|] == s;
    }
  }

  /** `o || ''`: an absent or empty optional string becomes the empty string. */
  function OrEmpty(o: Option<string>): (r: string)
    ensures o.Some? ==> r == o.value
    ensures o.None? ==> r == ""
  {
    match o
    case Some(s) => s
    case None => ""
  }

  /** `s || undefined`: the empty string becomes absent. */
  function OrUndefined(s: string): (r: Option<string>)
    ensures r.Some? <==> s != ""
    ensures r.Some? ==> r.value == s
  {
    if s == "" then None else Some(s)
  }

  /** Copying an optional string into a form field and sending the field back
      gives the original value, except that an empty string comes back absent. */
  lemma OrUndefinedOrEmpty(o: Option<string>)
    ensures OrUndefined(OrEmpty(o)) == (if o == Some("") then None else o)
  {
  }

  /** JavaScript's `toUpperCase`, for the ASCII letters. */
  function UpperAscii(s: string): (r: string)
    ensures |r| == |s|
    ensures forall i :: 0 <= i < |s| ==> r[i] == UpperChar(s[i])
  {
    if s == [] then [] else [UpperChar(s[0])] + UpperAscii(s[1..])
  }

  function UpperChar(c: char): (r: char)
    ensures !('a' <= r <= 'z')
    ensures 'a' <= c <= 'z' ==> r as int == c as int - 32
    ensures !('a' <= c <= 'z') ==> r == c
  {
    if 'a' <= c <= 'z' then (c as int - 32) as char else c
  }

  /** Upper-casing twice is upper-casing once, and leaves no lower-case ASCII letter. */
  lemma UpperAsciiIdempotent(s: string)
    ensures UpperAscii(UpperAscii(s)) == UpperAscii(s)
    ensures forall i :: 0 <= i < |s| ==> !('a' <= UpperAscii(s)[i] <= 'z')
  {
  }

  /** `n.toString()` for an integer: its decimal digits, after a '-' when negative. */
  function NumberText(n: int): (r: string)
    ensures r != ""
    ensures (r[0] == '-') <==> n < 0
  {
    if n < 0 then "-" + DigitsOf(-n) else DigitsOf(n)
  }

  function DigitsOf(n: nat): (r: string)
    ensures r != "" && forall i :: 0 <= i < |r| ==> '0' <= r[i] <= '9'
  {
    var d := ['0' + (n % 10) as char];
    if n < 10 then d else DigitsOf(n / 10) + d
  }

  /** The value of a string of decimal digits. */
  function DigitsValue(s: string): nat
    requires forall i :: 0 <= i < |s| ==> '0' <= s[i] <= '9'
  {
    if s == [] then 0 else 10 * DigitsValue(s[..|s| - 1]) + (s[|s| - 1] - '0') as nat
  }

  /** The printed digits read back as the number. */
  lemma {:induction false} DigitsRoundTrip(n: nat)
    ensures DigitsValue(DigitsOf(n)) == n
  {
    var d := ['0' + (n % 10) as char];
    if n >= 10 {
      DigitsRoundTrip(n / 10);
      var r := DigitsOf(n / 10) + d;
      assert r[..|r| - 1] == DigitsOf(n / 10);
    }
  }
}
