/** The theme singleton (`ThemeManager`): one field that holds no theme until a theme is set,
    and the current theme after that. The static field becomes a field of one manager
    object. Themes are kept abstract (a type parameter); a theme object is always truthy. */
module Themes {
  import opened Wrappers

  const NoThemeMessage: string := "No theme set. Please initialize a theme first."

  class ThemeManager<Theme> {
    var currentTheme: Option<Theme>

    /** `currentTheme = null` when the module loads. */
    constructor ()
      ensures currentTheme == None
    {
      currentTheme := None;
    }

    /** `getTheme`: the current theme, or the error thrown when none has been set. */
    method GetTheme() returns (r: Result<Theme, string>)
      ensures r.Err? <==> currentTheme.None?
      ensures r.Err? ==> r.error == NoThemeMessage
      ensures r.Ok? ==> currentTheme == Some(r.value)
    {
      if currentTheme.None? {
        r := Err(NoThemeMessage);
      } else {
        r := Ok(currentTheme.value);
      }
    }

    /** `hasTheme`. */
    method HasTheme() returns (b: bool)
      ensures b <==> currentTheme.Some?
    {
      b := currentTheme.Some?;
    }

    /** `setTheme`: the given theme replaces whatever was there. */
    method SetTheme(theme: Theme)
      modifies this
      ensures currentTheme == Some(theme)
    {
      currentTheme := Some(theme);
    }
  }

  /** `theme()`: the same answer as `getTheme`. */
  method CurrentTheme<Theme>(manager: ThemeManager<Theme>) returns (r: Result<Theme, string>)
    ensures r.Err? <==> manager.currentTheme.None?
    ensures r.Err? ==> r.error == NoThemeMessage
    ensures r.Ok? ==> manager.currentTheme == Some(r.value)
  {
    r := manager.GetTheme();
  }

  /** After a fresh start, asking for the theme fails; after two writes, the theme and the
      answer to `hasTheme` are those of the last write, and reading does not disturb them. */
  method LastWriteWins<Theme>(first: Theme, second: Theme)
    returns (before: Result<Theme, string>, has: bool, after: Result<Theme, string>)
    ensures before == Err(NoThemeMessage)
    ensures has && after == Ok(second)
  {
    var manager := new ThemeManager<Theme>();
    before := manager.GetTheme();
    manager.SetTheme(first);
    manager.SetTheme(second);
    has := manager.HasTheme();
    after := CurrentTheme(manager);
  }
}
