/**
 * The light/dark theme switch the customer dashboard (dashboard.js) and
 * the settings page (settings.js) share: the saved theme picks the
 * stylesheet on load, and the button flips the stylesheet and saves the
 * new theme under the `theme` key of `localStorage`.
 */
module Theme {
  import opened Text
  import Storage

  datatype Mode = Light | Dark

  const LightCss := "assets/css/dashboard.css"
  /** What the toggle looks for in the stylesheet's address. */
  const DarkFile := "dashboard-dark.css"
  /** "assets/css/dashboard-dark.css" */
  const DarkCss := "assets/css/" + DarkFile

  /** The value saved for a theme. */
  function Name(m: Mode): (r: string)
    ensures r == "dark" <==> m == Dark
  {
    match m
    case Light => "light"
    case Dark => "dark"
  }

  function Href(m: Mode): string {
    match m
    case Light => LightCss
    case Dark => DarkCss
  }

  /** `(localStorage.getItem("theme") || "light") === "dark"`: anything but "dark" is light. */
  function SavedMode(store: Storage.Store): (r: Mode)
    ensures r == Dark <==> "theme" in store && store["theme"] == "dark"
    ensures "theme" !in store ==> r == Light
  {
    var saved := if "theme" in store && store["theme"] != "" then store["theme"] else "light";
    if saved == "dark" then Dark else Light
  }

  /** The toggle's test: the stylesheet's address contains the dark file's name. */
  predicate ShowsDark(href: string) {
    Contains(href, DarkFile)
  }

  /** The theme the toggle switches to. */
  function Toggled(href: string): (r: Mode)
    ensures r == Dark <==> !ShowsDark(href)
  {
    if ShowsDark(href) then Light else Dark
  }

  function Flip(m: Mode): Mode {
    match m
    case Light => Dark
    case Dark => Light
  }

  /** An address that lacks a character of the needle does not contain it. */
  lemma MissingCharNotContained(hay: string, needle: string, k: nat)
    requires k < |needle| && needle[k] !in hay
    ensures !Contains(hay, needle)
  {
    ContainsIff(hay, needle);
    forall i | 0 <= i <= |hay|
      ensures !(needle <= hay[i..])
    {
      if i + k < |hay| {
        assert hay[i..][k] == hay[i + k] && hay[i + k] in hay;
      }
    }
  }

  /** The stylesheet chosen for a theme is recognised as that theme. */
  lemma HrefShows(m: Mode)
    ensures ShowsDark(Href(m)) <==> m == Dark
  {
    if m == Dark {
      ContainsIff(DarkCss, DarkFile);
      assert DarkCss[11..] == DarkFile;
    } else {
      assert DarkFile[9] == '-';
      MissingCharNotContained(LightCss, DarkFile, 9);
    }
  }

  /** Once the page shows a theme, each click switches to the other one. */
  lemma ToggleFlips(m: Mode)
    ensures Toggled(Href(m)) == Flip(m)
  {
    HrefShows(m);
  }

  /** The theme a click saves is the one the next visit starts with. */
  lemma ToggleRemembered(store: Storage.Store, href: string)
    ensures SavedMode(Storage.SetItem(store, "theme", Name(Toggled(href)))) == Toggled(href)
  {
  }

  /** The theme button and the stylesheet it controls. */
  class Switch {
    var store: Storage.Store
    var href: string

    constructor(store: Storage.Store, href: string)
      ensures this.store == store && this.href == href
    {
      this.store := store;
      this.href := href;
    }

    /** The `load` handler: the saved theme, light by default, picks the stylesheet. */
    method Load()
      modifies this
      ensures href == Href(SavedMode(old(store)))
      ensures store == old(store)
    {
      href := Href(SavedMode(store));
    }

    /** The button's click handler. */
    method Toggle()
      modifies this
      ensures href == Href(Toggled(old(href)))
      ensures store == Storage.SetItem(old(store), "theme", Name(Toggled(old(href))))
    {
      if ShowsDark(href) {
        href := LightCss;
        store := Storage.SetItem(store, "theme", "light");
      } else {
        href := DarkCss;
        store := Storage.SetItem(store, "theme", "dark");
      }
    }
  }
}
