/**
 * The two mappings between the settings row stored in the backend and the
 * settings object the application uses. The row's `id` column is read by
 * neither mapping and is not modelled; a nullable column is an `Option`.
 */
module SettingsService {
  import opened Seqs

  datatype AppSettings = AppSettings(
    theme: string,
    showMarquee: bool,
    marqueeText: string,
    showFooter: bool,
    showWidgets: bool,
    showLottery: bool,
    showWeather: bool,
    showNews: bool,
    lotteryApiKey: string,
    weatherApiKey: string,
    newsRssFeed: string,
    muteVideos: Option<bool>,             // optional field
    playerRefreshIntervalMs: Option<int>  // optional field
  )

  datatype DbSettings = DbSettings(
    theme: string,
    showMarquee: bool,
    marqueeText: string,
    showFooter: bool,
    showWidgets: bool,
    showLottery: bool,
    showWeather: bool,
    showNews: bool,
    lotteryApi: Option<string>,           // null allowed
    weatherApi: Option<string>,           // null allowed
    newsApi: Option<string>,              // null allowed
    muteVideos: bool,
    playerRefreshIntervalMs: Option<int>  // null or missing on old rows
  )

  const DefaultTheme: string := "dark"
  const DefaultFeed: string := "https://feeds.feedburner.com/g1/economia"
  const DefaultRefreshMs: int := 30000

  /** `DEFAULT_SETTINGS`. */
  const Defaults: AppSettings := AppSettings(
    DefaultTheme, true, "PARATECH SOLUÇÕES E SISTEMAS - Sistema de Mídia Digital",
    true, true, true, true, true, "", "", DefaultFeed, Some(false), Some(DefaultRefreshMs))

  /** `x || fallback` on a nullable string column: null and "" both fall through. */
  function OrElse(x: Option<string>, fallback: string): (r: string)
    ensures x.Some? && x.value != "" ==> r == x.value
    ensures x.None? || x.value == "" ==> r == fallback
  {
    if x.Some? && x.value != "" then x.value else fallback
  }

  /** `x || null` on a string: "" becomes null. */
  function OrNull(x: string): (r: Option<string>)
    ensures r.None? <==> x == ""
    ensures r.Some? ==> r.value == x
  {
    if x != "" then Some(x) else None
  }

  /** `mapDbToApp`. */
  function MapDbToApp(s: DbSettings): (a: AppSettings)
    ensures a.theme != "" && a.newsRssFeed != ""
    ensures a.muteVideos.Some? && a.playerRefreshIntervalMs.Some?
    ensures s.theme == "" ==> a.theme == DefaultTheme
    ensures s.lotteryApi.None? ==> a.lotteryApiKey == ""
    ensures s.weatherApi.None? ==> a.weatherApiKey == ""
    ensures s.newsApi.None? || s.newsApi == Some("") ==> a.newsRssFeed == DefaultFeed
    ensures s.playerRefreshIntervalMs.None? ==> a.playerRefreshIntervalMs == Some(DefaultRefreshMs)
    ensures s.playerRefreshIntervalMs == Some(0) ==> a.playerRefreshIntervalMs == Some(0)
  {
    AppSettings(
      if s.theme != "" then s.theme else DefaultTheme,
      s.showMarquee, s.marqueeText, s.showFooter, s.showWidgets,
      s.showLottery, s.showWeather, s.showNews,
      OrElse(s.lotteryApi, ""),
      OrElse(s.weatherApi, ""),
      OrElse(s.newsApi, DefaultFeed),
      Some(s.muteVideos),
      if s.playerRefreshIntervalMs.Some? then s.playerRefreshIntervalMs
      else Some(DefaultRefreshMs))
  }

  /** `mapAppToDb`. */
  function MapAppToDb(s: AppSettings): (d: DbSettings)
    ensures d.lotteryApi.None? <==> s.lotteryApiKey == ""
    ensures d.weatherApi.None? <==> s.weatherApiKey == ""
    ensures d.newsApi.None? <==> s.newsRssFeed == ""
    ensures s.muteVideos.None? ==> !d.muteVideos
    ensures s.playerRefreshIntervalMs.None? ==> d.playerRefreshIntervalMs == Some(DefaultRefreshMs)
    ensures d.playerRefreshIntervalMs.Some?
  {
    DbSettings(
      s.theme, s.showMarquee, s.marqueeText, s.showFooter, s.showWidgets,
      s.showLottery, s.showWeather, s.showNews,
      OrNull(s.lotteryApiKey), OrNull(s.weatherApiKey), OrNull(s.newsRssFeed),
      s.muteVideos.Some? && s.muteVideos.value,
      if s.playerRefreshIntervalMs.Some? then s.playerRefreshIntervalMs
      else Some(DefaultRefreshMs))
  }

  /** Every flag and the marquee text cross both mappings unchanged. */
  lemma FlagsPassThrough(a: AppSettings, d: DbSettings)
    ensures var d' := MapAppToDb(a);
      d'.showMarquee == a.showMarquee && d'.marqueeText == a.marqueeText &&
      d'.showFooter == a.showFooter && d'.showWidgets == a.showWidgets &&
      d'.showLottery == a.showLottery && d'.showWeather == a.showWeather &&
      d'.showNews == a.showNews
    ensures var a' := MapDbToApp(d);
      a'.showMarquee == d.showMarquee && a'.marqueeText == d.marqueeText &&
      a'.showFooter == d.showFooter && a'.showWidgets == d.showWidgets &&
      a'.showLottery == d.showLottery && a'.showWeather == d.showWeather &&
      a'.showNews == d.showNews
  {
  }

  /** Saving and reading back returns the same settings whenever the theme and
      the feed are non-empty and both optional fields are present; those are
      exactly the settings the mappings can tell apart. */
  lemma AppRoundTrip(a: AppSettings)
    ensures MapDbToApp(MapAppToDb(a)) == a <==>
              a.theme != "" && a.newsRssFeed != "" &&
              a.muteVideos.Some? && a.playerRefreshIntervalMs.Some?
  {
    var a' := MapDbToApp(MapAppToDb(a));
    if a.theme != "" && a.newsRssFeed != "" && a.muteVideos.Some? && a.playerRefreshIntervalMs.Some? {
      assert a'.lotteryApiKey == a.lotteryApiKey && a'.weatherApiKey == a.weatherApiKey;
    }
  }

  /** Reading a row and writing it back returns the same row whenever its
      theme is non-empty, no key column holds "", the feed column holds a
      non-empty value and the refresh interval is set. */
  lemma DbRoundTrip(d: DbSettings)
    requires d.theme != "" && d.lotteryApi != Some("") && d.weatherApi != Some("")
    requires d.newsApi.Some? && d.newsApi.value != ""
    requires d.playerRefreshIntervalMs.Some?
    ensures MapAppToDb(MapDbToApp(d)) == d
  {
  }

  /** Settings read from the backend are a fixed point of save-then-read. */
  lemma ReadSettingsAreStable(d: DbSettings)
    ensures MapDbToApp(MapAppToDb(MapDbToApp(d))) == MapDbToApp(d)
  {
    AppRoundTrip(MapDbToApp(d));
  }
}
