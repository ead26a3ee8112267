/**
  The `useTheme` composable: `isDark` is loaded from the stored preference
  and the system preference, toggled by the user, persisted under the key
  `'theme'`, and mirrored as the `dark-theme` class of the document element.
*/
module UseTheme {
  import opened Wrappers

  /** A JavaScript value that is either `undefined` or a boolean. */
  datatype Flag = Undefined | Defined(value: bool)

  /** The truthiness of a flag: `undefined` is falsy. */
  predicate Truthy(f: Flag) {
    f == Defined(true)
  }

  /** `localStorage.getItem('theme')`: the stored string, or `null`. */
  function SavedTheme(storage: map<string, string>): (r: Option<string>)
    ensures r.None? <==> "theme" !in storage
    ensures r.Some? ==> r.value == storage["theme"]
  {
    if "theme" in storage then Some(storage["theme"]) else None
  }

  /** The name `toggleTheme` stores for a theme. */
  function ThemeName(dark: bool): (r: string)
    ensures r == "dark" <==> dark
    ensures r == "light" <==> !dark
  {
    if dark then "dark" else "light"
  }

  /**
    `savedTheme === 'dark' || (!savedTheme && systemPrefersDark)`, where
    `media` is `None` when `window.matchMedia` is missing and otherwise the
    `matches` of the dark-scheme query; the empty string is falsy like `null`.
  */
  function LoadedIsDark(saved: Option<string>, media: Option<bool>): (r: Flag)
    ensures r == Defined(true) <==>
      saved == Some("dark") || ((saved == None || saved == Some("")) && media == Some(true))
    ensures r == Undefined <==> (saved == None || saved == Some("")) && media == None
    ensures saved.Some? && saved.value != "" && saved.value != "dark" ==> r == Defined(false)
  {
    var savedIsDark := saved == Some("dark");
    var nothingSaved := saved.None? || saved.value == "";
    var systemPrefersDark := match media case None => Undefined case Some(m) => Defined(m);
    if savedIsDark then Defined(true)
    else if !nothingSaved then Defined(false)
    else systemPrefersDark
  }

  /** `!isDark.value`: `undefined` negates to `true`. */
  function Toggled(f: Flag): (r: Flag)
    ensures r.Defined? && (r.value <==> !Truthy(f))
    ensures f.Defined? ==> r == Defined(!f.value)
    ensures f.Undefined? ==> r == Defined(true)
  {
    Defined(!Truthy(f))
  }

  /** What `setItem('theme', v)` writes, `getItem('theme')` reads back, whatever was stored before. */
  lemma SavedAfterSet(storage: map<string, string>, v: string)
    ensures SavedTheme(storage["theme" := v]) == Some(v)
  {
  }

  /** A stored name is loaded back as the theme it names, whatever the system prefers. */
  lemma ReloadRestores(dark: bool, media: Option<bool>)
    ensures LoadedIsDark(Some(ThemeName(dark)), media) == Defined(dark)
  {
  }

  class ThemeComposable {
    var isDark: Flag
    /** `localStorage`. */
    var storage: map<string, string>
    /** Whether the document element carries the `dark-theme` class. */
    var darkClass: bool

    /**
      `useTheme()`: `loadTheme()` then `applyTheme()`. `fallback` stands for
      the class state the DOM leaves when `classList.toggle` gets an
      `undefined` force, which this model does not specify.
    */
    constructor (initialStorage: map<string, string>, media: Option<bool>, initialClass: bool, fallback: bool)
      ensures storage == initialStorage
      ensures isDark == LoadedIsDark(SavedTheme(initialStorage), media)
      ensures isDark.Defined? ==> darkClass == isDark.value
      ensures isDark.Undefined? ==> darkClass == fallback
    {
      isDark := Defined(false);
      storage := initialStorage;
      darkClass := initialClass;
      new;
      LoadTheme(media);
      ApplyTheme(fallback);
    }

    /** `loadTheme`. */
    method LoadTheme(media: Option<bool>)
      modifies this`isDark
      ensures isDark == LoadedIsDark(SavedTheme(storage), media)
    {
      isDark := LoadedIsDark(SavedTheme(storage), media);
    }

    /** `applyTheme`: the class follows `isDark` when it is a boolean. */
    method ApplyTheme(fallback: bool)
      modifies this`darkClass
      ensures isDark.Defined? ==> darkClass == isDark.value
      ensures isDark.Undefined? ==> darkClass == fallback
    {
      match isDark {
        case Defined(b) => darkClass := b;
        case Undefined => darkClass := fallback;
      }
    }

    /**
      `toggleTheme`: negate `isDark`, store its name under `'theme'` and apply
      it to the document (the watcher on `isDark` applies the same value again).
    */
    method ToggleTheme()
      modifies this
      ensures isDark == Toggled(old(isDark))
      ensures storage == old(storage)["theme" := ThemeName(isDark.value)]
      ensures darkClass == isDark.value
    {
      isDark := Toggled(isDark);
      storage := storage["theme" := if isDark.value then "dark" else "light"];
      ApplyTheme(false);
    }
  }

  /** Two toggles from a boolean theme give it back, and the store then names it. */
  method ToggleTwice(t: ThemeComposable)
    requires t.isDark.Defined?
    modifies t
    ensures t.isDark == old(t.isDark)
    ensures SavedTheme(t.storage) == Some(ThemeName(old(t.isDark).value))
    ensures t.darkClass == old(t.isDark).value
  {
    t.ToggleTheme();
    t.ToggleTheme();
  }
}
