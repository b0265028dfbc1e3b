/** Which post the script writes on a given day: the weekday-to-theme table,
    the three-week rotation of the Friday post type, and the choice of the
    prompt template together with the values interpolated into it. */
module Themes {
  import opened Wrappers
  import opened Settings

  const MomChaosKey := "mom_chaos_monday"
  const WtfsKey := "wtfs_wednesday"
  const FridayKey := "fuck_it_friday"
  const SundayKey := "feed_the_chaos_sunday"

  /** The keys in publishing order: Monday, Wednesday, Friday, Sunday. */
  const ThemeKeys := [MomChaosKey, WtfsKey, FridayKey, SundayKey]

  /** Weekdays with a post (Monday = 0 ... Sunday = 6). */
  const PostDays := {0, 2, 4, 6}

  /** Shown in the Sunday prompt when no storefront URL is configured. */
  const StanPlaceholder := "[STAN STORE LINK]"

  /** A theme record: its key, its display label and the blog category it posts to. */
  datatype Theme = Theme(key: string, displayLabel: string, category: string)

  /** The configured category for each theme key. */
  function CategoryOf(cfg: Config, key: string): string {
    if key == MomChaosKey then cfg.catMomChaos
    else if key == WtfsKey then cfg.catWtfs
    else if key == FridayKey then cfg.catFif
    else cfg.catSunday
  }

  /** The theme for a weekday (Monday = 0), or `None` on a day without a post. */
  function PickThemeForToday(cfg: Config, weekday: int): (t: Option<Theme>)
    ensures t.Some? <==> weekday in PostDays
    ensures t.Some? ==> t.value.key == ThemeKeys[weekday / 2]
    ensures t.Some? ==> t.value.category == CategoryOf(cfg, t.value.key)
  {
    if weekday == 0 then Some(Theme(MomChaosKey, "Mom Chaos Monday", cfg.catMomChaos))
    else if weekday == 2 then Some(Theme(WtfsKey, "WTF\U{2019}s for Dinner Wednesday", cfg.catWtfs))
    else if weekday == 4 then Some(Theme(FridayKey, "Fuck It Friday", cfg.catFif))
    else if weekday == 6 then Some(Theme(SundayKey, "Feed the Chaos Sunday Drop", cfg.catSunday))
    else None
  }

  /** Different post days get themes with different keys. */
  lemma ThemeKeysDistinct(cfg: Config, d1: int, d2: int)
    requires PickThemeForToday(cfg, d1).Some? && PickThemeForToday(cfg, d2).Some?
    requires PickThemeForToday(cfg, d1).value.key == PickThemeForToday(cfg, d2).value.key
    ensures d1 == d2
  {
  }

  /** The Friday post type for an ISO 8601 week number: weeks 1, 2, 3 give A, B, C,
      and the cycle repeats. Python's `%` by a positive divisor agrees with
      Dafny's, so any integer week is handled as the source would. */
  function FridayRotationType(isoWeek: int): (r: string)
    ensures r == "A" || r == "B" || r == "C"
  {
    ["A", "B", "C"][(isoWeek - 1) % 3]
  }

  /** The type that follows `t` in the rotation. */
  function NextType(t: string): string {
    if t == "A" then "B" else if t == "B" then "C" else "A"
  }

  /** Week 1 is type A, and each following week moves one step along A, B, C, A, ... */
  lemma FridayRotationCycles(isoWeek: int)
    ensures FridayRotationType(1) == "A"
    ensures FridayRotationType(isoWeek + 1) == NextType(FridayRotationType(isoWeek))
  {
  }

  /** Two weeks have the same Friday type exactly when they are a multiple of
      three weeks apart; in particular weeks n and n + 3 agree. */
  lemma FridayRotationSameType(v: int, w: int)
    ensures FridayRotationType(v) == FridayRotationType(w) <==> (v - w) % 3 == 0
    ensures FridayRotationType(w + 3) == FridayRotationType(w)
  {
  }

  /** The prompt template chosen for a theme, with the values interpolated into it;
      the fixed prose of each template is not modelled. */
  datatype Prompt =
    | MomChaosPrompt
    | WtfsPrompt
    | FridayPrompt(fridayType: string)
    | SundayPrompt(stanLink: string)
  {
    /** The theme key whose template this is. */
    function Key(): string {
      match this
      case MomChaosPrompt => MomChaosKey
      case WtfsPrompt => WtfsKey
      case FridayPrompt(_) => FridayKey
      case SundayPrompt(_) => SundayKey
    }
  }

  /** The only error `build_prompt` raises. */
  datatype PromptError = UnknownThemeKey

  /** Selects the template by theme key; the Friday template embeds the week's
      rotation type and the Sunday template the storefront link or its placeholder. */
  function BuildPrompt(cfg: Config, theme: Theme, isoWeek: int): (r: Result<Prompt, PromptError>)
    ensures r.Err? <==> theme.key !in ThemeKeys
    ensures r.Ok? ==> r.value.Key() == theme.key
    ensures r.Ok? && r.value.FridayPrompt? ==> r.value.fridayType == FridayRotationType(isoWeek)
    ensures r.Ok? && r.value.SundayPrompt? ==>
      r.value.stanLink == (if cfg.stanUrl != "" then cfg.stanUrl else StanPlaceholder)
  {
    var stanLink := if cfg.stanUrl != "" then cfg.stanUrl else StanPlaceholder;
    if theme.key == MomChaosKey then Ok(MomChaosPrompt)
    else if theme.key == WtfsKey then Ok(WtfsPrompt)
    else if theme.key == FridayKey then Ok(FridayPrompt(FridayRotationType(isoWeek)))
    else if theme.key == SundayKey then Ok(SundayPrompt(stanLink))
    else Err(UnknownThemeKey)
  }

  /** Every theme the weekday table returns has a template, so the
      "Unknown theme key" error cannot happen for a scheduled day. */
  lemma PickedThemesHavePrompts(cfg: Config, weekday: int, isoWeek: int)
    requires PickThemeForToday(cfg, weekday).Some?
    ensures BuildPrompt(cfg, PickThemeForToday(cfg, weekday).value, isoWeek).Ok?
  {
  }
}
