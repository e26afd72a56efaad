/**
 * White-label theming in the browser: each theme entry becomes a CSS
 * custom property on the document root, and the theme is kept in local
 * storage so that it can be loaded again. The document, the storage and
 * JSON are passed in: `hasDocument`/`hasWindow` say whether they exist,
 * and the serialiser and parser are parameters.
 */
module WhiteLabel {
  import opened Base

  // ---------------------------------------------------------------------
  // Property names
  // ---------------------------------------------------------------------

  function UpperChar(c: char): (r: char)
    ensures IsLower(c) ==> IsUpper(r) && LowerChar(r) == c
    ensures !IsLower(c) ==> r == c
  {
    if IsLower(c) then (c as int - 32) as char else c
  }

  /** One character of a key in kebab case: an uppercase letter becomes '-' and its lowercase. */
  function KebabChar(c: char): string {
    if IsUpper(c) then ['-', LowerChar(c)] else [LowerChar(c)]
  }

  /** A camelCase key with a '-' before every uppercase letter, then lowercased. */
  function Kebab(key: string): (r: string)
    ensures |r| >= |key|
    ensures forall i :: 0 <= i < |r| ==> !IsUpper(r[i])
    ensures (forall i :: 0 <= i < |key| ==> !IsUpper(key[i])) ==> r == key
  {
    if key == [] then [] else KebabChar(key[0]) + Kebab(key[1..])
  }

  /** The custom property a colour key sets. */
  function CssVarName(key: string): (r: string)
    ensures |r| >= 2 && r[..2] == "--" && r[2..] == Kebab(key)
  {
    "--" + Kebab(key)
  }

  /** Back from kebab case: a '-' and the character after it become that character in uppercase. */
  function Camel(s: string): string {
    if s == [] then []
    else if s[0] == '-' && |s| >= 2 then [UpperChar(s[1])] + Camel(s[2..])
    else [s[0]] + Camel(s[1..])
  }

  /** Keys without dashes come back unchanged from their property name. */
  lemma {:induction false} CamelOfKebab(key: string)
    requires forall i :: 0 <= i < |key| ==> key[i] != '-'
    ensures Camel(Kebab(key)) == key
  {
    if key != [] {
      var rest := Kebab(key[1..]);
      CamelOfKebab(key[1..]);
      if IsUpper(key[0]) {
        assert Kebab(key) == ['-', LowerChar(key[0])] + rest;
        assert (['-', LowerChar(key[0])] + rest)[2..] == rest;
      } else {
        assert Kebab(key) == [key[0]] + rest;
        assert ([key[0]] + rest)[1..] == rest;
      }
    }
  }

  /** Distinct dash-free keys set distinct properties. */
  lemma CssVarNameInjective(a: string, b: string)
    requires forall i :: 0 <= i < |a| ==> a[i] != '-'
    requires forall i :: 0 <= i < |b| ==> b[i] != '-'
    requires CssVarName(a) == CssVarName(b)
    ensures a == b
  {
    CamelOfKebab(a);
    CamelOfKebab(b);
  }

  // ---------------------------------------------------------------------
  // Applying and loading a theme
  // ---------------------------------------------------------------------

  datatype Fonts = Fonts(sans: Option<string>, mono: Option<string>)

  /** A theme: colour and radius entries in declaration order, and optional fonts. */
  datatype Theme = Theme(
    name: string,
    logo: Option<string>,
    colors: seq<(string, string)>,
    radius: seq<(string, string)>,
    fonts: Option<Fonts>)

  /** The local-storage key the theme is kept under. */
  const ThemeStorageKey := "whitelabel-theme"

  type Storage = map<string, string>

  function ColorProperty(entry: (string, string)): (string, string) {
    (CssVarName(entry.0), entry.1)
  }

  function RadiusProperty(entry: (string, string)): (string, string) {
    ("--radius-" + entry.0, entry.1)
  }

  /** The font properties a theme sets: one per font that is given and non-empty. */
  function FontProperties(fonts: Option<Fonts>): (r: seq<(string, string)>)
    ensures (exists i :: 0 <= i < |r| && r[i].0 == "--font-sans") <==> fonts.Some? && Given(fonts.value.sans)
    ensures (exists i :: 0 <= i < |r| && r[i].0 == "--font-mono") <==> fonts.Some? && Given(fonts.value.mono)
    ensures forall i :: 0 <= i < |r| ==>
      || (r[i].0 == "--font-sans" && r[i].1 == fonts.value.sans.value)
      || (r[i].0 == "--font-mono" && r[i].1 == fonts.value.mono.value)
  {
    if fonts.None? then []
    else
      var sans := if Given(fonts.value.sans) then [("--font-sans", fonts.value.sans.value)] else [];
      var mono := if Given(fonts.value.mono) then [("--font-mono", fonts.value.mono.value)] else [];
      var r := sans + mono;
      assert "--font-sans" != "--font-mono" by {
        assert "--font-sans"[7] != "--font-mono"[7];
      }
      assert Given(fonts.value.sans) ==> r[0].0 == "--font-sans";
      assert Given(fonts.value.mono) ==> r[|r| - 1].0 == "--font-mono";
      assert forall i :: 0 <= i < |r| ==> r[i] in sans || r[i] in mono;
      r
  }

  /** The properties set, in order, and the storage afterwards. */
  datatype Applied = Applied(properties: seq<(string, string)>, storage: Storage)

  /**
   * `applyWhiteLabelTheme`: without a document nothing happens; otherwise
   * every colour entry, then every radius entry, then the given fonts are
   * set, and the serialised theme is stored.
   */
  function ApplyTheme(hasDocument: bool, theme: Theme, storage: Storage, serialize: Theme -> string): (r: Applied)
    ensures !hasDocument ==> r == Applied([], storage)
    ensures hasDocument ==>
      && |r.properties| == |theme.colors| + |theme.radius| + |FontProperties(theme.fonts)|
      && (forall i :: 0 <= i < |theme.colors| ==>
            r.properties[i] == (CssVarName(theme.colors[i].0), theme.colors[i].1))
      && (forall i :: 0 <= i < |theme.radius| ==>
            r.properties[|theme.colors| + i] == ("--radius-" + theme.radius[i].0, theme.radius[i].1))
      && r.properties[|theme.colors| + |theme.radius|..] == FontProperties(theme.fonts)
      && r.storage == storage[ThemeStorageKey := serialize(theme)]
  {
    if !hasDocument then Applied([], storage)
    else
      var colors := Map(ColorProperty, theme.colors);
      var radius := Map(RadiusProperty, theme.radius);
      var props := colors + radius + FontProperties(theme.fonts);
      assert props[|colors| + |radius|..] == FontProperties(theme.fonts);
      Applied(props, storage[ThemeStorageKey := serialize(theme)])
  }

  /**
   * `loadSavedTheme`: nothing without a window, nothing when no non-empty
   * value is stored, nothing when it does not parse, and otherwise what
   * it parses to.
   */
  function LoadSavedTheme(hasWindow: bool, storage: Storage, parse: string -> Option<Theme>): (r: Option<Theme>)
    ensures !hasWindow ==> r.None?
    ensures hasWindow && (ThemeStorageKey !in storage || storage[ThemeStorageKey] == "") ==> r.None?
    ensures hasWindow && ThemeStorageKey in storage && storage[ThemeStorageKey] != "" ==>
      r == parse(storage[ThemeStorageKey])
  {
    if !hasWindow then None
    else
      var saved := if ThemeStorageKey in storage then Some(storage[ThemeStorageKey]) else None;
      if Given(saved) then parse(saved.value) else None
  }

  /** A theme applied in the browser is the one loaded afterwards, when its serialisation reads back. */
  lemma ApplyThenLoad(theme: Theme, storage: Storage, serialize: Theme -> string, parse: string -> Option<Theme>)
    requires serialize(theme) != "" && parse(serialize(theme)) == Some(theme)
    ensures LoadSavedTheme(true, ApplyTheme(true, theme, storage, serialize).storage, parse) == Some(theme)
  {
  }
}
