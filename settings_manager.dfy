/**
 * The settings editor: each control's handler replaces one field of the
 * `settings` state; the refresh-interval field converts between the seconds
 * the user types and the milliseconds stored.
 */
module SettingsEditor {
  import opened Seqs
  import opened SettingsService

  /** What `Number(e.target.value)` yields for the text in a numeric input:
      NaN (not a number) or a whole number of seconds; "" reads as 0. */
  datatype NumberInput = NotANumber | Num(n: int)

  const MinRefreshSeconds: int := 5
  const FallbackRefreshSeconds: int := 30

  /** `Math.max(5, Number(value) || 30) * 1000`: NaN and 0 fall back to 30
      seconds, anything else is raised to at least 5 seconds. */
  function RefreshMsFromInput(x: NumberInput): (ms: int)
    ensures ms >= MinRefreshSeconds * 1000
    ensures ms % 1000 == 0
    ensures x == NotANumber || x == Num(0) ==> ms == FallbackRefreshSeconds * 1000
    ensures x.Num? && x.n != 0 ==> ms == (if x.n < MinRefreshSeconds then MinRefreshSeconds else x.n) * 1000
  {
    var seconds := if x.Num? && x.n != 0 then x.n else FallbackRefreshSeconds;
    (if seconds < MinRefreshSeconds then MinRefreshSeconds else seconds) * 1000
  }

  /** `Math.round((ms ?? 30000) / 1000)`: `Math.round` rounds halves up. */
  function DisplaySeconds(ms: Option<int>): (seconds: int)
    ensures ms.None? ==> seconds == FallbackRefreshSeconds
    ensures ms.Some? ==> seconds * 1000 - 500 <= ms.value < seconds * 1000 + 500
  {
    var v := if ms.Some? then ms.value else DefaultRefreshMs;
    (v + 500) / 1000
  }

  /** Typing a value and reading the field back shows what was stored: the typed
      number when it is at least 5, otherwise 5 or the 30-second fallback. */
  lemma DisplayAfterInput(x: NumberInput)
    ensures var shown := DisplaySeconds(Some(RefreshMsFromInput(x)));
      (x.Num? && x.n >= MinRefreshSeconds ==> shown == x.n) &&
      (x.Num? && x.n != 0 && x.n < MinRefreshSeconds ==> shown == MinRefreshSeconds) &&
      (x == NotANumber || x == Num(0) ==> shown == FallbackRefreshSeconds)
  {
  }

  /** A stored interval of whole seconds, at least five, survives being shown
      and typed back unchanged. */
  lemma InputAfterDisplay(ms: int)
    requires ms >= MinRefreshSeconds * 1000 && ms % 1000 == 0
    ensures RefreshMsFromInput(Num(DisplaySeconds(Some(ms)))) == ms
  {
    assert DisplaySeconds(Some(ms)) == ms / 1000;
  }

  /** `handleThemeToggle`: "light" becomes "dark", anything else "light". */
  function ToggledTheme(theme: string): (r: string)
    ensures r == "light" || r == "dark"
    ensures r == "dark" <==> theme == "light"
  {
    if theme == "light" then "dark" else "light"
  }

  /** Toggling twice restores a light or dark theme. */
  lemma ToggleInvolution(theme: string)
    requires theme == "light" || theme == "dark"
    ensures ToggledTheme(ToggledTheme(theme)) == theme
  {
  }

  /** The editor's controls, one constructor per handler. */
  datatype SettingsEdit =
    | ToggleTheme
    | SetShowMarquee(on: bool)
    | SetMarqueeText(text: string)
    | SetShowFooter(on: bool)
    | SetShowWidgets(on: bool)
    | SetRefreshSeconds(input: NumberInput)
    | SetShowLottery(on: bool)
    | SetShowWeather(on: bool)
    | SetShowNews(on: bool)
    | SetNewsRssFeed(text: string)
    | SetWeatherApiKey(text: string)
    | SetLotteryApiKey(text: string)

  /** The fields of the settings object. */
  datatype Field =
    | Theme | ShowMarquee | MarqueeText | ShowFooter | ShowWidgets | ShowLottery
    | ShowWeather | ShowNews | LotteryApiKey | WeatherApiKey | NewsRssFeed
    | MuteVideos | RefreshInterval

  /** A field's value, whatever its type. */
  datatype FieldValue = Text(s: string) | Flag(b: bool) | MaybeFlag(o: Option<bool>) | MaybeInt(i: Option<int>)

  function Get(s: AppSettings, f: Field): FieldValue {
    match f
    case Theme => Text(s.theme)
    case ShowMarquee => Flag(s.showMarquee)
    case MarqueeText => Text(s.marqueeText)
    case ShowFooter => Flag(s.showFooter)
    case ShowWidgets => Flag(s.showWidgets)
    case ShowLottery => Flag(s.showLottery)
    case ShowWeather => Flag(s.showWeather)
    case ShowNews => Flag(s.showNews)
    case LotteryApiKey => Text(s.lotteryApiKey)
    case WeatherApiKey => Text(s.weatherApiKey)
    case NewsRssFeed => Text(s.newsRssFeed)
    case MuteVideos => MaybeFlag(s.muteVideos)
    case RefreshInterval => MaybeInt(s.playerRefreshIntervalMs)
  }

  /** Two settings objects that agree on every field are equal. */
  lemma FieldsDetermineSettings(a: AppSettings, b: AppSettings)
    requires forall f :: Get(a, f) == Get(b, f)
    ensures a == b
  {
    assert Get(a, Theme) == Get(b, Theme);
    assert Get(a, ShowMarquee) == Get(b, ShowMarquee);
    assert Get(a, MarqueeText) == Get(b, MarqueeText);
    assert Get(a, ShowFooter) == Get(b, ShowFooter);
    assert Get(a, ShowWidgets) == Get(b, ShowWidgets);
    assert Get(a, ShowLottery) == Get(b, ShowLottery);
    assert Get(a, ShowWeather) == Get(b, ShowWeather);
    assert Get(a, ShowNews) == Get(b, ShowNews);
    assert Get(a, LotteryApiKey) == Get(b, LotteryApiKey);
    assert Get(a, WeatherApiKey) == Get(b, WeatherApiKey);
    assert Get(a, NewsRssFeed) == Get(b, NewsRssFeed);
    assert Get(a, MuteVideos) == Get(b, MuteVideos);
    assert Get(a, RefreshInterval) == Get(b, RefreshInterval);
  }

  /** The field a control writes. */
  function FieldOf(e: SettingsEdit): Field {
    match e
    case ToggleTheme => Theme
    case SetShowMarquee(_) => ShowMarquee
    case SetMarqueeText(_) => MarqueeText
    case SetShowFooter(_) => ShowFooter
    case SetShowWidgets(_) => ShowWidgets
    case SetRefreshSeconds(_) => RefreshInterval
    case SetShowLottery(_) => ShowLottery
    case SetShowWeather(_) => ShowWeather
    case SetShowNews(_) => ShowNews
    case SetNewsRssFeed(_) => NewsRssFeed
    case SetWeatherApiKey(_) => WeatherApiKey
    case SetLotteryApiKey(_) => LotteryApiKey
  }

  /** The value a control writes into its field. */
  function NewValue(s: AppSettings, e: SettingsEdit): FieldValue {
    match e
    case ToggleTheme => Text(ToggledTheme(s.theme))
    case SetShowMarquee(b) => Flag(b)
    case SetMarqueeText(t) => Text(t)
    case SetShowFooter(b) => Flag(b)
    case SetShowWidgets(b) => Flag(b)
    case SetRefreshSeconds(x) => MaybeInt(Some(RefreshMsFromInput(x)))
    case SetShowLottery(b) => Flag(b)
    case SetShowWeather(b) => Flag(b)
    case SetShowNews(b) => Flag(b)
    case SetNewsRssFeed(t) => Text(t)
    case SetWeatherApiKey(t) => Text(t)
    case SetLotteryApiKey(t) => Text(t)
  }

  /** `setSettings(prev => ({ ...prev, field: value }))` for one control. */
  function ApplyEdit(s: AppSettings, e: SettingsEdit): AppSettings {
    match e
    case ToggleTheme => s.(theme := ToggledTheme(s.theme))
    case SetShowMarquee(b) => s.(showMarquee := b)
    case SetMarqueeText(t) => s.(marqueeText := t)
    case SetShowFooter(b) => s.(showFooter := b)
    case SetShowWidgets(b) => s.(showWidgets := b)
    case SetRefreshSeconds(x) => s.(playerRefreshIntervalMs := Some(RefreshMsFromInput(x)))
    case SetShowLottery(b) => s.(showLottery := b)
    case SetShowWeather(b) => s.(showWeather := b)
    case SetShowNews(b) => s.(showNews := b)
    case SetNewsRssFeed(t) => s.(newsRssFeed := t)
    case SetWeatherApiKey(t) => s.(weatherApiKey := t)
    case SetLotteryApiKey(t) => s.(lotteryApiKey := t)
  }

  /** Each control writes its own field and copies every other one. */
  lemma EditTouchesOneField(s: AppSettings, e: SettingsEdit)
    ensures Get(ApplyEdit(s, e), FieldOf(e)) == NewValue(s, e)
    ensures forall f :: f != FieldOf(e) ==> Get(ApplyEdit(s, e), f) == Get(s, f)
  {
  }

  /** Toggling the theme twice from light or dark gives back the same settings. */
  lemma ToggleTwiceRestores(s: AppSettings)
    requires s.theme == "light" || s.theme == "dark"
    ensures ApplyEdit(ApplyEdit(s, ToggleTheme), ToggleTheme) == s
  {
    ToggleInvolution(s.theme);
  }

  /** The editor component's `settings` state. */
  class SettingsManager {
    var settings: AppSettings

    /** The initial state before the backend answers: `DEFAULT_SETTINGS` without
        the two optional fields. */
    constructor ()
      ensures settings == Defaults.(muteVideos := None, playerRefreshIntervalMs := None)
    {
      settings := Defaults.(muteVideos := None, playerRefreshIntervalMs := None);
    }

    /** A control's handler. */
    method Handle(e: SettingsEdit)
      modifies this
      ensures settings == ApplyEdit(old(settings), e)
      ensures Get(settings, FieldOf(e)) == NewValue(old(settings), e)
      ensures forall f :: f != FieldOf(e) ==> Get(settings, f) == Get(old(settings), f)
    {
      EditTouchesOneField(settings, e);
      settings := ApplyEdit(settings, e);
    }

    /** A successful load or save replaces the whole state with what the
        backend returned. */
    method Replace(loaded: AppSettings)
      modifies this
      ensures settings == loaded
    {
      settings := loaded;
    }
  }
}
