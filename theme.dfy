/** The theme step of the stylesheet builder (`internal/theme/theme.go`,
    and its copy `pkg/view/theme.go`): the two default themes are parsed,
    each parse error is stacked, and each parsed theme is put in the dark
    or the light slot by its variant. Parsing fails only when both themes
    fail. */
module Theme {
  import opened Base
  import opened Text

  /** A base16 theme; the palette is carried as one value. */
  datatype Theme = Theme(system: string, name: string, author: string, variant: string, palette: seq<string>)

  /** What `ParseTheme` returns: a theme and no error, or no theme and an
      error. */
  datatype Parsed = Parsed(theme: Option<Theme>, err: Option<string>)

  /** `ParseTheme(data)`: the YAML decoder is library code. */
  function ParseTheme(data: string, yaml: string -> Option<Theme>): (r: Parsed)
    ensures r.theme.Some? <==> r.err.None?
    ensures r.theme == yaml(data)
  {
    match yaml(data)
    case Some(t) => Parsed(Some(t), None)
    case None => Parsed(None, Some("error parsing theme"))
  }

  /** `buildStack(errs, err)`: the error is pushed when it is non-nil. */
  function PushError(errs: seq<string>, err: Option<string>): (r: seq<string>)
    ensures err.None? ==> r == errs
    ensures err.Some? ==> |r| == |errs| + 1 && r[..|errs|] == errs && r[|errs|] == err.value
  {
    if err.Some? then errs + [err.value] else errs
  }

  /** The variant test: lower-case "dark" goes to the dark slot. */
  predicate IsDark(t: Theme) {
    ToLower(t.variant) == "dark"
  }

  /** The two theme slots of the context. */
  datatype Slots = Slots(light: Option<Theme>, dark: Option<Theme>)

  /** `themeCtx`: the two slots and the date stamp. */
  class ThemeCtx {
    var light: Option<Theme>
    var dark: Option<Theme>
    var date: string

    /** `themeCtx{}`: both slots nil. */
    constructor ()
      ensures light.None? && dark.None? && date == []
    {
      light := None;
      dark := None;
      date := [];
    }

    function Held(): Slots
      reads this
    {
      Slots(light, dark)
    }

    /** `(*themeCtx).buildStack(errs, err, theme)`: stacks the error, and
        puts a non-nil theme in the slot its variant names. */
    method BuildStack(errs: seq<string>, err: Option<string>, theme: Option<Theme>) returns (r: seq<string>)
      modifies this
      ensures r == PushError(errs, err)
      ensures Held() == Place(old(Held()), theme) && date == old(date)
    {
      r := PushError(errs, err);
      if theme.Some? {
        var v := ToLower(theme.value.variant);
        if v == "dark" {
          dark := theme;
        } else {
          light := theme;
        }
      }
    }
  }

  /** The slots after a theme is placed: nil changes nothing; a dark theme
      replaces the dark slot and a light one the light slot. */
  function Place(s: Slots, theme: Option<Theme>): (r: Slots)
    ensures theme.None? ==> r == s
    ensures theme.Some? && IsDark(theme.value) ==> r.dark == theme && r.light == s.light
    ensures theme.Some? && !IsDark(theme.value) ==> r.light == theme && r.dark == s.dark
  {
    match theme
    case None => s
    case Some(t) => if IsDark(t) then s.(dark := theme) else s.(light := theme)
  }

  /** A later theme for the same slot replaces the earlier one. */
  lemma PlaceReplaces(s: Slots, a: Theme, b: Theme)
    requires IsDark(a) == IsDark(b)
    ensures Place(Place(s, Some(a)), Some(b)) == Place(s, Some(b))
  {
  }

  /** Themes for different slots can be placed in either order. */
  lemma PlaceCommutes(s: Slots, a: Theme, b: Theme)
    requires IsDark(a) != IsDark(b)
    ensures Place(Place(s, Some(a)), Some(b)) == Place(Place(s, Some(b)), Some(a))
  {
  }

  /** The parse step of `BuildTheme`: the light default, then the dark
      default, each parsed and placed; the step fails when the stack holds
      two errors. */
  method ParseDefaults(lightData: string, darkData: string, yaml: string -> Option<Theme>)
    returns (ctx: ThemeCtx, errs: seq<string>, failed: bool)
    ensures fresh(ctx)
    ensures ctx.Held() == Place(Place(Slots(None, None), yaml(lightData)), yaml(darkData))
    ensures errs == Stacked(lightData, darkData, yaml)
    ensures failed <==> |errs| == 2
    ensures failed <==> yaml(lightData).None? && yaml(darkData).None?
  {
    ctx := new ThemeCtx();
    var l := ParseTheme(lightData, yaml);
    errs := ctx.BuildStack([], l.err, l.theme);
    var d := ParseTheme(darkData, yaml);
    errs := ctx.BuildStack(errs, d.err, d.theme);
    failed := |errs| == 2;
  }

  /** The errors the parse step stacks, light first. */
  function Stacked(lightData: string, darkData: string, yaml: string -> Option<Theme>): seq<string> {
    PushError(PushError([], ParseTheme(lightData, yaml).err), ParseTheme(darkData, yaml).err)
  }

  /** The parse step fails exactly when both themes fail to parse: a single
      failure is tolerated. */
  lemma FailsOnlyWhenBothFail(lightData: string, darkData: string, yaml: string -> Option<Theme>)
    ensures |Stacked(lightData, darkData, yaml)| == 2 <==> yaml(lightData).None? && yaml(darkData).None?
    ensures |Stacked(lightData, darkData, yaml)| <= 2
  {
  }

  /** When both defaults parse, the dark file's theme is placed last, so it
      holds its slot even when both themes have the same variant; themes of
      different variants each end in their own slot. */
  lemma SlotsAfterDefaults(light: Theme, dark: Theme)
    ensures var s := Place(Place(Slots(None, None), Some(light)), Some(dark));
      && (IsDark(dark) ==> s.dark == Some(dark))
      && (!IsDark(dark) ==> s.light == Some(dark))
      && (IsDark(light) != IsDark(dark) ==> (if IsDark(light) then s.dark else s.light) == Some(light))
      && (IsDark(light) == IsDark(dark) ==> (if IsDark(light) then s.light else s.dark).None?)
  {
  }
}
