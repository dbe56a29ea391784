/** The theme switcher: a fixed ordered list of theme names, the index of the
    current one, the `data-theme` attribute on the document root and the
    `portfolio-theme` entry in local storage (script.js lines 11-57). */
module Theme {
  import opened Options

  /** The themes in cycling order; the first is the default look. */
  const Themes: seq<string> := ["default", "blue", "white", "pink"]

  const DefaultTheme: string := "default"

  type ThemeIndex = i: nat | i < 4

  /** What the page holds of the theme: the current index, the root's
      `data-theme` attribute (absent or a name) and the stored preference. */
  datatype ThemeState = ThemeState(index: ThemeIndex, attr: Option<string>, stored: Option<string>)

  /** `Array.prototype.indexOf`: the first position of `x` in `xs`, or -1. */
  function IndexOf(xs: seq<string>, x: string): (r: int)
    ensures -1 <= r < |xs|
    ensures r == -1 <==> x !in xs
    ensures r >= 0 ==> xs[r] == x && forall j :: 0 <= j < r ==> xs[j] != x
  {
    if |xs| == 0 then -1
    else if xs[0] == x then 0
    else
      var k := IndexOf(xs[1..], x);
      if k == -1 then -1 else k + 1
  }

  /** The root attribute a theme is shown with: absent for the default theme,
      the theme's own name otherwise. */
  function AttrFor(name: string): (a: Option<string>)
    ensures a.None? <==> name == DefaultTheme
    ensures a.Some? ==> a.value == name
  {
    if name == DefaultTheme then None else Some(name)
  }

  /** The page as it starts, before the saved preference is read: the first
      theme, no attribute, and whatever storage holds. */
  function Fresh(saved: Option<string>): ThemeState {
    ThemeState(0, None, saved)
  }

  /** Startup: a saved name that is present, non-empty and one of the themes
      selects that theme and shows it; anything else leaves the default.
      Storage is only read. */
  function Load(saved: Option<string>): (s: ThemeState)
    ensures s.stored == saved
    ensures saved.Some? && saved.value in Themes ==>
      Themes[s.index] == saved.value && s.attr == AttrFor(saved.value)
    ensures !(saved.Some? && saved.value in Themes) ==> s.index == 0 && s.attr.None?
  {
    var s := Fresh(saved);
    if saved.Some? && saved.value != "" then
      var i := IndexOf(Themes, saved.value);
      if i != -1 then
        var s := s.(index := i);
        if saved.value != DefaultTheme then s.(attr := Some(saved.value)) else s
      else s
    else s
  }

  /** A click on the theme switcher: advance to the next theme, wrapping after
      the last, show it and save it. */
  function Cycle(s: ThemeState): (t: ThemeState)
    ensures t.index == (s.index + 1) % 4
    ensures t.attr == AttrFor(Themes[t.index])
    ensures t.stored == Some(Themes[t.index])
  {
    var i: ThemeIndex := (s.index + 1) % |Themes|;
    var name := Themes[i];
    var t := if name == DefaultTheme then s.(index := i, attr := None) else s.(index := i, attr := Some(name));
    t.(stored := Some(name))
  }

  /** The theme name a click announces, for the notification. */
  function CycleName(s: ThemeState): (name: string)
    ensures name in Themes
    ensures name == Themes[Cycle(s).index]
  {
    Themes[(s.index + 1) % |Themes|]
  }

  /** The root attribute agrees with the current theme. */
  predicate Shown(s: ThemeState) {
    s.attr == AttrFor(Themes[s.index])
  }

  /** The stored preference names the current theme. */
  predicate Saved(s: ThemeState) {
    s.stored == Some(Themes[s.index])
  }

  function CycleN(s: ThemeState, n: nat): ThemeState {
    if n == 0 then s else Cycle(CycleN(s, n - 1))
  }

  /** Whatever was saved, the page starts showing the theme its index names. */
  lemma LoadShown(saved: Option<string>)
    ensures Shown(Load(saved))
  {
  }

  /** Every click leaves the attribute and storage matching the new theme. */
  lemma CycleShownAndSaved(s: ThemeState)
    ensures Shown(Cycle(s)) && Saved(Cycle(s))
  {
  }

  /** After `n` clicks the index has advanced by `n` modulo 4. */
  lemma {:induction false} CycleNIndex(s: ThemeState, n: nat)
    ensures CycleN(s, n).index == (s.index + n) % 4
  {
    if n > 0 {
      CycleNIndex(s, n - 1);
    }
  }

  /** Four clicks from a consistent page give back the same page. */
  lemma FourCyclesIdentity(s: ThemeState)
    requires Shown(s) && Saved(s)
    ensures CycleN(s, 4) == s
  {
    CycleNIndex(s, 4);
  }

  /** The theme names are pairwise distinct, so a name's index is unique. */
  lemma IndexOfThemes(i: ThemeIndex)
    ensures IndexOf(Themes, Themes[i]) == i
  {
  }

  /** Reloading after any click restores the theme that click chose, with the
      same attribute and storage. */
  lemma ReloadAfterCycle(s: ThemeState)
    ensures Load(Cycle(s).stored) == Cycle(s)
  {
    var t := Cycle(s);
    IndexOfThemes(t.index);
  }

  /** Reloading a saved theme is idempotent: loading what storage holds
      after a load gives the same page. */
  lemma LoadIdempotent(saved: Option<string>)
    ensures Load(Load(saved).stored) == Load(saved)
  {
  }

  /** Capital form of an ASCII lower-case letter; other characters unchanged. */
  function UpperAscii(c: char): (u: char)
    ensures 'a' <= c <= 'z' ==> 'A' <= u <= 'Z' && (u as int) + 32 == c as int
    ensures !('a' <= c <= 'z') ==> u == c
  {
    if 'a' <= c <= 'z' then ((c as int) - 32) as char else c
  }

  /** The notification text for a theme: the name with its first letter
      capitalised, then `" Theme"`. */
  function NotificationText(name: string): (r: string)
    ensures |r| == |name| + 6
    ensures r[|name|..] == " Theme"
    ensures |name| > 0 ==> r[0] == UpperAscii(name[0]) && r[1..|name|] == name[1..]
  {
    (if |name| == 0 then "" else [UpperAscii(name[0])] + name[1..]) + " Theme"
  }

  lemma NotificationExamples()
    ensures NotificationText(Themes[0]) == "Default Theme"
    ensures NotificationText(Themes[1]) == "Blue Theme"
    ensures NotificationText(Themes[2]) == "White Theme"
    ensures NotificationText(Themes[3]) == "Pink Theme"
  {
  }
}
