/**
 * Site themes (themes.service.ts, theme.entity.ts): themes are stored as
 * given, and one of them is made the active theme by clearing the flag on
 * every theme and setting it on the chosen one.
 */
module Themes {
  import opened Common

  /** A row of Themes without its id; the id is the row's position plus one. */
  datatype Theme = Theme(
    name: string,
    primaryColor: string,
    secondaryColor: string,
    backgroundColor: string,
    isActive: bool,
    logoUrl: Option<string>,
    homeIcon: Option<string>,
    profileIcon: Option<string>,
    settingsIcon: Option<string>)

  /** The body of a theme creation (create-theme.dto.ts). */
  datatype ThemeInput = ThemeInput(
    name: string,
    primaryColor: string,
    secondaryColor: string,
    backgroundColor: string,
    isActive: Option<bool>,
    logoUrl: Option<string>,
    homeIcon: Option<string>,
    profileIcon: Option<string>,
    settingsIcon: Option<string>)

  /** The row a creation stores: the column default makes a theme inactive unless the body says otherwise. */
  function FromInput(dto: ThemeInput): (t: Theme)
    ensures t.isActive <==> dto.isActive == Some(true)
    ensures t.name == dto.name && t.primaryColor == dto.primaryColor
    ensures t.secondaryColor == dto.secondaryColor && t.backgroundColor == dto.backgroundColor
    ensures t.logoUrl == dto.logoUrl && t.homeIcon == dto.homeIcon
    ensures t.profileIcon == dto.profileIcon && t.settingsIcon == dto.settingsIcon
  {
    Theme(dto.name, dto.primaryColor, dto.secondaryColor, dto.backgroundColor,
          if dto.isActive.Some? then dto.isActive.value else false,
          dto.logoUrl, dto.homeIcon, dto.profileIcon, dto.settingsIcon)
  }

  predicate AtMostOneActive(themes: seq<Theme>)
  {
    forall i, j :: 0 <= i < |themes| && 0 <= j < |themes| && themes[i].isActive && themes[j].isActive ==> i == j
  }

  /** findOne where isActive: the first active theme. */
  function FirstActive(themes: seq<Theme>): (r: Option<nat>)
    ensures r.Some? ==> r.value < |themes| && themes[r.value].isActive
    ensures r.None? <==> forall j :: 0 <= j < |themes| ==> !themes[j].isActive
  {
    if |themes| == 0 then None
    else if themes[0].isActive then Some(0)
    else
      match FirstActive(themes[1..])
      case None => None
      case Some(k) => Some(k + 1)
  }

  /** With at most one active theme, the active theme found is the only one. */
  lemma ActiveThemeIsUnique(themes: seq<Theme>, j: nat)
    requires AtMostOneActive(themes) && j < |themes| && themes[j].isActive
    ensures FirstActive(themes) == Some(j)
  {
  }

  /** `update({}, { isActive: false })`: every theme inactive, nothing else changed. */
  function ClearAll(themes: seq<Theme>): (r: seq<Theme>)
    ensures |r| == |themes|
    ensures forall j :: 0 <= j < |r| ==> r[j] == themes[j].(isActive := false)
  {
    seq(|themes|, j requires 0 <= j < |themes| => themes[j].(isActive := false))
  }

  class ThemesService {
    var themes: seq<Theme>

    constructor()
      ensures themes == []
    {
      themes := [];
    }

    /** createTheme (themes.service.ts:14-17): the theme is stored as given; the others are untouched. */
    method CreateTheme(dto: ThemeInput) returns (r: Theme, id: int)
      modifies this
      ensures r == FromInput(dto)
      ensures themes == old(themes) + [r] && id == |themes|
    {
      r := FromInput(dto);
      themes := themes + [r];
      id := |themes|;
    }

    /** getActiveTheme (themes.service.ts:23-25): some active theme, or none when no theme is active. */
    function GetActiveTheme(): (r: Option<Theme>)
      reads this
      ensures r.Some? ==> r.value.isActive && r.value in themes
      ensures r.None? <==> forall j :: 0 <= j < |themes| ==> !themes[j].isActive
    {
      match FirstActive(themes)
      case None => None
      case Some(k) => Some(themes[k])
    }

    /**
     * setActiveTheme (themes.service.ts:27-30): every theme is made inactive,
     * then the theme with that id, if there is one, is made active.
     */
    method SetActiveTheme(id: int)
      modifies this
      ensures |themes| == |old(themes)|
      ensures forall j :: 0 <= j < |themes| ==> themes[j] == old(themes)[j].(isActive := j == id - 1)
      ensures AtMostOneActive(themes)
      ensures 1 <= id <= |themes| ==> GetActiveTheme() == Some(themes[id - 1])
      ensures !(1 <= id <= |themes|) ==> GetActiveTheme().None?
    {
      themes := ClearAll(themes);
      if 1 <= id <= |themes| {
        themes := themes[id - 1 := themes[id - 1].(isActive := true)];
        ActiveThemeIsUnique(themes, id - 1);
      }
    }
  }

  /** Creating an active theme while another is active leaves two active themes: creation alone does not keep the invariant. */
  lemma CreatingAnActiveThemeBreaksUniqueness(themes: seq<Theme>, j: nat, dto: ThemeInput)
    requires j < |themes| && themes[j].isActive && dto.isActive == Some(true)
    ensures !AtMostOneActive(themes + [FromInput(dto)])
  {
    var s := themes + [FromInput(dto)];
    assert s[j].isActive && s[|themes|].isActive;
  }

  /** Creating an inactive theme keeps at most one theme active. */
  lemma CreatingAnInactiveThemeKeepsUniqueness(themes: seq<Theme>, dto: ThemeInput)
    requires AtMostOneActive(themes) && dto.isActive != Some(true)
    ensures AtMostOneActive(themes + [FromInput(dto)])
  {
    var s := themes + [FromInput(dto)];
    assert forall i :: 0 <= i < |themes| ==> s[i] == themes[i];
  }
}
