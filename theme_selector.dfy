/** The theme picker (ThemeSelector.tsx): a fixed table of six named themes, of which
    only 'Default' is open to non-premium profiles. The gate is a client-side
    convenience; the store does not enforce it. */
module ThemeSelector {
  import opened Wrappers
  import opened Records

  datatype Theme = Theme(name: string, cssClass: string)

  const DefaultTheme: string := "Default"

  const Themes: seq<Theme> := [
    Theme("Default", "bg-gradient-to-r from-blue-500 to-purple-600"),
    Theme("Sunset", "bg-gradient-to-r from-orange-400 to-pink-600"),
    Theme("Ocean", "bg-gradient-to-r from-cyan-400 to-blue-600"),
    Theme("Forest", "bg-gradient-to-r from-green-400 to-emerald-600"),
    Theme("Royal", "bg-gradient-to-r from-purple-500 to-indigo-600"),
    Theme("Fire", "bg-gradient-to-r from-red-400 to-yellow-500")
  ]

  function Names(table: seq<Theme>): (r: seq<string>)
    ensures |r| == |table|
    ensures forall i :: 0 <= i < |table| ==> r[i] == table[i].name
  {
    if table == [] then [] else [table[0].name] + Names(table[1..])
  }

  predicate Distinct(names: seq<string>)
  {
    forall i, j :: 0 <= i < j < |names| ==> names[i] != names[j]
  }

  /** The table has six distinct names, 'Default' first. */
  lemma ThemeTableShape()
    ensures |Themes| == 6 && Themes[0].name == DefaultTheme
    ensures Distinct(Names(Themes))
  {
    var n := Names(Themes);
    assert n == ["Default", "Sunset", "Ocean", "Forest", "Royal", "Fire"];
  }

  /** `profile?.is_premium`: a missing profile counts as not premium. */
  predicate IsPremium(profile: Option<Profile>)
  {
    profile.Some? && profile.value.isPremium
  }

  /** The padlock drawn over a tile. */
  predicate IsLocked(name: string, profile: Option<Profile>)
  {
    name != DefaultTheme && !IsPremium(profile)
  }

  /** handleThemeSelect followed by the parent's setter: the selection the parent
      holds after a tile is clicked. A rejected click leaves it as it was. */
  function Select(name: string, profile: Option<Profile>, current: string): (r: string)
    ensures r == name || r == current
    ensures name == DefaultTheme ==> r == name
    ensures IsPremium(profile) ==> r == name
    ensures name != DefaultTheme && !IsPremium(profile) ==> r == current
  {
    if name != DefaultTheme && !IsPremium(profile) then current else name
  }

  /** A click on a tile with a padlock never changes the selection, even when that
      tile is already selected; and among the clicks that would change it, the
      padlock is shown on exactly those that are rejected. */
  lemma LockedIffRejected(name: string, profile: Option<Profile>, current: string)
    ensures IsLocked(name, profile) ==> Select(name, profile, current) == current
    ensures name != current ==> (IsLocked(name, profile) <==> Select(name, profile, current) == current)
  {
  }

  /** How many tiles are drawn as selected (`selectedTheme === theme.name`). */
  function SelectedCount(table: seq<Theme>, selected: string): (r: nat)
    ensures r <= |table|
  {
    if table == [] then 0
    else (if table[0].name == selected then 1 else 0) + SelectedCount(table[1..], selected)
  }

  lemma {:induction false} SelectedCountOfDistinct(table: seq<Theme>, selected: string)
    requires Distinct(Names(table))
    ensures SelectedCount(table, selected) <= 1
    ensures SelectedCount(table, selected) == 1 <==> selected in Names(table)
  {
    if table != [] {
      var n := Names(table);
      assert Names(table[1..]) == n[1..];
      SelectedCountOfDistinct(table[1..], selected);
      if table[0].name == selected {
        assert selected !in n[1..];
      }
    }
  }

  /** At most one tile is drawn selected, and exactly one when the selection names a
      theme of the table. */
  lemma AtMostOneSelected(selected: string)
    ensures SelectedCount(Themes, selected) <= 1
    ensures SelectedCount(Themes, selected) == 1 <==> selected in Names(Themes)
  {
    ThemeTableShape();
    SelectedCountOfDistinct(Themes, selected);
  }
}
