/**
 * The choice of a card's icon for the current theme (`getIconForTheme`).
 */
module Icons {
  import opened Wrappers

  /**
   * A card's `icon` field: a plain string, an object with optional `light`
   * and `dark` members, or anything else (missing, `null`, a number).
   * A member that is absent or not a string is `None`.
   */
  datatype IconData = Plain(name: string) | Themed(light: Option<string>, dark: Option<string>) | NoIcon

  /**
   * The generic icon, as the source file spells it: the package emoji's
   * UTF-8 bytes read back as Mac Roman characters.
   */
  const Fallback: string := "\U{F8FF}\U{00FC}\U{00EC}\U{00B6}"

  /** JavaScript truthiness of an optional string member. */
  predicate Truthy(m: Option<string>) {
    m.Some? && m.value != ""
  }

  /** `getIconForTheme(iconData)` with `darkMode` the page's `dark-mode` class. */
  function GetIconForTheme(icon: IconData, darkMode: bool): (r: string)
    // a string is used as is
    ensures icon.Plain? ==> r == icon.name
    // an object or anything else never yields an empty icon
    ensures !icon.Plain? ==> r != ""
    // the result is one of the icon's own names, or the fallback
    ensures icon.Themed? ==> (Truthy(icon.dark) && r == icon.dark.value) || (Truthy(icon.light) && r == icon.light.value) || r == Fallback
    // the theme's own variant wins when it is set
    ensures icon.Themed? && darkMode && Truthy(icon.dark) ==> r == icon.dark.value
    ensures icon.Themed? && !darkMode && Truthy(icon.light) ==> r == icon.light.value
    // light is preferred over dark in dark mode only when dark is unset
    ensures icon.Themed? && darkMode && !Truthy(icon.dark) && Truthy(icon.light) ==> r == icon.light.value
    // dark is the last choice before the fallback, in either theme
    ensures icon.Themed? && !Truthy(icon.light) && Truthy(icon.dark) ==> r == icon.dark.value
    // the fallback stands in when neither variant is set
    ensures icon.Themed? && !Truthy(icon.light) && !Truthy(icon.dark) ==> r == Fallback
    ensures icon.NoIcon? ==> r == Fallback
  {
    match icon
    case Plain(name) => name
    case Themed(light, dark) =>
      if darkMode && Truthy(dark) then dark.value
      else if Truthy(light) then light.value
      else if Truthy(dark) then dark.value
      else Fallback
    case NoIcon => Fallback
  }

  /** A themed icon with both variants set shows exactly the variant of the theme. */
  lemma BothVariantsFollowTheme(light: string, dark: string, darkMode: bool)
    requires light != "" && dark != ""
    ensures GetIconForTheme(Themed(Some(light), Some(dark)), darkMode) == if darkMode then dark else light
  {
  }

  /** With one variant set, that variant is shown in both themes. */
  lemma SingleVariantInBothThemes(v: string, darkMode: bool)
    requires v != ""
    ensures GetIconForTheme(Themed(Some(v), None), darkMode) == v
    ensures GetIconForTheme(Themed(None, Some(v)), darkMode) == v
  {
  }
}
