/**
 * Colour themes: the three built-in themes, the current theme name and
 * the settings file `theme_settings.json` that remembers it.
 */
module Themes {
  import opened Wrappers

  datatype Rgb = Rgb(r: int, g: int, b: int)

  datatype Colors = Colors(gameBg: Rgb, snakeBody: Rgb, snakeHead: Rgb, foodColor: Rgb, obstacle: Rgb)

  datatype Theme = Theme(name: string, colors: Colors)

  const DEFAULT_THEME := "CLASSIC"

  const THEMES: map<string, Theme> := map[
    "CLASSIC" := Theme("经典蓝调", Colors(Rgb(220, 230, 240), Rgb(120, 160, 200), Rgb(90, 140, 190), Rgb(251, 192, 45), Rgb(180, 60, 60))),
    "DARK" := Theme("深邃夜空", Colors(Rgb(50, 55, 70), Rgb(100, 160, 200), Rgb(80, 140, 180), Rgb(255, 195, 90), Rgb(200, 100, 100))),
    "FOREST" := Theme("自然森林", Colors(Rgb(70, 110, 90), Rgb(120, 160, 140), Rgb(100, 140, 120), Rgb(255, 180, 80), Rgb(180, 100, 80)))
  ]

  /**
   * The settings file as the loader finds it: absent, impossible to read
   * as a JSON object, or an object whose string entries are given.
   */
  datatype SettingsFile = Missing | Unreadable | Settings(entries: map<string, string>)

  /** The theme name `load_theme_settings` takes from a settings file. */
  function Loaded(file: SettingsFile): (name: string)
    ensures file.Settings? && "current_theme" in file.entries ==> name == file.entries["current_theme"]
    ensures !(file.Settings? && "current_theme" in file.entries) ==> name == DEFAULT_THEME
  {
    match file
    case Settings(entries) => if "current_theme" in entries then entries["current_theme"] else DEFAULT_THEME
    case _ => DEFAULT_THEME
  }

  /** The file `save_theme_settings` writes for a theme name. */
  function Saved(name: string): SettingsFile {
    Settings(map["current_theme" := name])
  }

  /** Loading what was saved gives back the saved name. */
  lemma SaveLoadRoundTrip(name: string)
    ensures Loaded(Saved(name)) == name
  {
  }

  /** The module state: the global `CURRENT_THEME` and the settings file on disk. */
  class ThemeSettings {
    var current: string
    var file: SettingsFile

    /** Importing the module runs `load_theme_settings()` once. */
    constructor(onDisk: SettingsFile)
      ensures file == onDisk && current == Loaded(onDisk)
    {
      file := onDisk;
      current := Loaded(onDisk);
    }

    /** `load_theme_settings()`: the name is taken as stored, even when no theme has it. */
    method LoadThemeSettings() returns (name: string)
      modifies this
      ensures name == current == Loaded(file) && file == old(file)
    {
      current := Loaded(file);
      name := current;
    }

    /** `set_theme(name)`: only a known theme is switched to, and it is saved. */
    method SetTheme(name: string) returns (ok: bool)
      modifies this
      ensures ok <==> name in THEMES
      ensures ok ==> current == name && file == Saved(name) && Loaded(file) == current
      ensures !ok ==> unchanged(this)
    {
      if name in THEMES {
        current := name;
        file := Saved(current);
        return true;
      }
      return false;
    }

    /** `get_current_theme()`: `None` stands for the KeyError raised on an unknown name. */
    function GetCurrentTheme(): (c: Option<Colors>)
      reads this
      ensures c.Some? <==> current in THEMES
      ensures c.Some? ==> c.value == THEMES[current].colors
    {
      if current in THEMES then Some(THEMES[current].colors) else None
    }
  }
}
