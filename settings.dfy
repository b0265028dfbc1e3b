/** The script's configuration: the environment variables it reads once at
    start-up and the module-level constants it derives from them. */
module Settings {
  import opened Wrappers
  import opened Text

  /** The raw environment: `None` for a variable that is not set. `FUTURE_MINUTES`
      is carried already converted to an integer. */
  datatype Env = Env(
    siteId: Option<string>,
    stanStoreUrl: Option<string>,
    openAiApiKey: Option<string>,
    postMode: Option<string>,
    futureMinutes: Option<int>,
    catMomChaos: Option<string>,
    catWtfs: Option<string>,
    catFif: Option<string>,
    catSunday: Option<string>)

  /** The module-level constants the rest of the script reads. */
  datatype Config = Config(
    siteId: string,
    stanUrl: string,
    openAiApiKey: string,
    postMode: string,
    futureMinutes: int,
    catMomChaos: string,
    catWtfs: string,
    catFif: string,
    catSunday: string)

  const DefaultPostMode := "publish"
  const DefaultFutureMinutes := 5
  const DefaultCatMomChaos := "Parenting in the Wild"
  const DefaultCatWtfs := "WTFs for Dinner"
  const DefaultCatFif := "Fuck-It Fridays"
  const DefaultCatSunday := "Hot Mess Hacks"

  /** Reads the configuration: identifiers, the storefront URL and the API key
      are stripped, the post mode is stripped and lower-cased, the category
      names are taken verbatim, and an unset variable takes its default. */
  function LoadConfig(env: Env): (c: Config)
    ensures IsStripped(c.siteId) && IsStripped(c.stanUrl) && IsStripped(c.openAiApiKey)
    ensures c.siteId == Strip(env.siteId.GetOr(""))
    ensures c.stanUrl == Strip(env.stanStoreUrl.GetOr(""))
    ensures c.openAiApiKey == Strip(env.openAiApiKey.GetOr(""))
    ensures c.postMode == LowerAscii(Strip(env.postMode.GetOr(DefaultPostMode)))
    ensures env.stanStoreUrl.None? ==> c.stanUrl == ""
    ensures env.openAiApiKey.None? ==> c.openAiApiKey == ""
    ensures env.postMode.None? ==> c.postMode == DefaultPostMode
    ensures IsStripped(c.postMode) && forall k :: 0 <= k < |c.postMode| ==> !('A' <= c.postMode[k] <= 'Z')
    ensures c.futureMinutes == env.futureMinutes.GetOr(DefaultFutureMinutes)
    ensures c.catMomChaos == env.catMomChaos.GetOr(DefaultCatMomChaos)
    ensures c.catWtfs == env.catWtfs.GetOr(DefaultCatWtfs)
    ensures c.catFif == env.catFif.GetOr(DefaultCatFif)
    ensures c.catSunday == env.catSunday.GetOr(DefaultCatSunday)
  {
    var mode := env.postMode.GetOr(DefaultPostMode);
    DefaultPostModeIsNormal();
    Config(
      siteId := Strip(env.siteId.GetOr("")),
      stanUrl := Strip(env.stanStoreUrl.GetOr("")),
      openAiApiKey := Strip(env.openAiApiKey.GetOr("")),
      postMode := LowerAscii(Strip(mode)),
      futureMinutes := env.futureMinutes.GetOr(DefaultFutureMinutes),
      catMomChaos := env.catMomChaos.GetOr(DefaultCatMomChaos),
      catWtfs := env.catWtfs.GetOr(DefaultCatWtfs),
      catFif := env.catFif.GetOr(DefaultCatFif),
      catSunday := env.catSunday.GetOr(DefaultCatSunday))
  }

  /** The default post mode is already stripped and lower-case. */
  lemma DefaultPostModeIsNormal()
    ensures LowerAscii(Strip(DefaultPostMode)) == DefaultPostMode
  {
    var m := DefaultPostMode;
    assert IsStripped(m) by {
      assert m[0] == 'p' && m[|m| - 1] == 'h';
    }
    StripOfStripped(m);
    var l := LowerAscii(m);
    forall k | 0 <= k < |m|
      ensures l[k] == m[k]
    {
      assert 'a' <= m[k] <= 'z';
    }
    assert l == m;
  }
}
