/** The user's display settings (src/lib/hooks/useSettings.ts): a record
    with defaults, updated by merging a partial record over it. */
module Settings {
  import opened Common

  datatype View = ResourcesView | CollectionsView | TagsView
  datatype Layout = Grid | List
  datatype Theme = Light | Dark | System

  datatype Settings = Settings(
    showPreview: bool,
    autoSave: bool,
    defaultView: View,
    defaultLayout: Layout,
    defaultTheme: Theme,
    defaultSidebarWidth: int,
    defaultMainContentWidth: int)

  const DefaultSettings: Settings := Settings(true, true, ResourcesView, Grid, System, 280, 800)

  /** A `Partial<Settings>`: the fields given, each optional. */
  datatype Patch = Patch(
    showPreview: Option<bool>,
    autoSave: Option<bool>,
    defaultView: Option<View>,
    defaultLayout: Option<Layout>,
    defaultTheme: Option<Theme>,
    defaultSidebarWidth: Option<int>,
    defaultMainContentWidth: Option<int>)

  const EmptyPatch: Patch := Patch(None, None, None, None, None, None, None)

  function Or<T>(given: Option<T>, current: T): T
  {
    if given.Some? then given.value else current
  }

  /** `{ ...settings, ...patch }`. */
  function Merge(s: Settings, p: Patch): (r: Settings)
  {
    Settings(
      Or(p.showPreview, s.showPreview),
      Or(p.autoSave, s.autoSave),
      Or(p.defaultView, s.defaultView),
      Or(p.defaultLayout, s.defaultLayout),
      Or(p.defaultTheme, s.defaultTheme),
      Or(p.defaultSidebarWidth, s.defaultSidebarWidth),
      Or(p.defaultMainContentWidth, s.defaultMainContentWidth))
  }

  /** Merging writes exactly the fields the patch gives: a given field takes
      the patch's value, any other keeps the current one; an empty patch
      changes nothing, and merging the same patch twice is merging it once. */
  lemma MergeProperties(s: Settings, p: Patch)
    ensures var r := Merge(s, p);
      && (p.showPreview.Some? ==> r.showPreview == p.showPreview.value)
      && (p.showPreview.None? ==> r.showPreview == s.showPreview)
      && (p.autoSave.Some? ==> r.autoSave == p.autoSave.value)
      && (p.autoSave.None? ==> r.autoSave == s.autoSave)
      && (p.defaultView.Some? ==> r.defaultView == p.defaultView.value)
      && (p.defaultView.None? ==> r.defaultView == s.defaultView)
      && (p.defaultLayout.Some? ==> r.defaultLayout == p.defaultLayout.value)
      && (p.defaultLayout.None? ==> r.defaultLayout == s.defaultLayout)
      && (p.defaultTheme.Some? ==> r.defaultTheme == p.defaultTheme.value)
      && (p.defaultTheme.None? ==> r.defaultTheme == s.defaultTheme)
      && (p.defaultSidebarWidth.Some? ==> r.defaultSidebarWidth == p.defaultSidebarWidth.value)
      && (p.defaultSidebarWidth.None? ==> r.defaultSidebarWidth == s.defaultSidebarWidth)
      && (p.defaultMainContentWidth.Some? ==> r.defaultMainContentWidth == p.defaultMainContentWidth.value)
      && (p.defaultMainContentWidth.None? ==> r.defaultMainContentWidth == s.defaultMainContentWidth)
      && Merge(s, EmptyPatch) == s
      && Merge(r, p) == r
  {
  }

  /** The patch `{ showPreview: !settings.showPreview }`. */
  function FlipPreview(s: Settings): (p: Patch)
  {
    EmptyPatch.(showPreview := Some(!s.showPreview))
  }

  /** The patch `{ autoSave: !settings.autoSave }`. */
  function FlipAutoSave(s: Settings): (p: Patch)
  {
    EmptyPatch.(autoSave := Some(!s.autoSave))
  }

  /** A toggle flips its one flag, keeps every other field, and toggling
      the same flag twice restores the settings. */
  lemma ToggleProperties(s: Settings)
    ensures var t := Merge(s, FlipPreview(s));
      t.showPreview == !s.showPreview && t.(showPreview := s.showPreview) == s && Merge(t, FlipPreview(t)) == s
    ensures var t := Merge(s, FlipAutoSave(s));
      t.autoSave == !s.autoSave && t.(autoSave := s.autoSave) == s && Merge(t, FlipAutoSave(t)) == s
  {
  }

  class SettingsStore {
    var settings: Settings

    /** The store starts from the defaults. */
    constructor()
      ensures settings == DefaultSettings
    {
      settings := DefaultSettings;
    }

    /** `updateSettings`: the patch is merged over the current settings. */
    method UpdateSettings(p: Patch)
      modifies this
      ensures settings == Merge(old(settings), p)
    {
      settings := Merge(settings, p);
    }

    /** `resetSettings`: back to the defaults. */
    method ResetSettings()
      modifies this
      ensures settings == DefaultSettings
    {
      settings := DefaultSettings;
    }

    /** `togglePreview`: an update flipping `showPreview`. */
    method TogglePreview()
      modifies this
      ensures settings == Merge(old(settings), FlipPreview(old(settings)))
      ensures settings == old(settings).(showPreview := !old(settings).showPreview)
    {
      UpdateSettings(FlipPreview(settings));
    }

    /** `toggleAutoSave`: an update flipping `autoSave`. */
    method ToggleAutoSave()
      modifies this
      ensures settings == Merge(old(settings), FlipAutoSave(old(settings)))
      ensures settings == old(settings).(autoSave := !old(settings).autoSave)
    {
      UpdateSettings(FlipAutoSave(settings));
    }
  }
}
