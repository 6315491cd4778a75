/** The metric card every page renders (src/components/HealthMetricCard.tsx):
    its optional trend and alert props, the class choices made from them, and
    the device-type flags a resize listener keeps up to date. */
module MetricCard {
  import opened Options

  /** The `alert` prop. */
  datatype AlertLevel = Normal | Warning | Critical

  /** The `trend` prop. */
  datatype Trend = Up | Down | Stable

  /** Severity order of alert levels: normal < warning < critical. */
  function Severity(a: AlertLevel): (n: nat)
    ensures n <= 2
    ensures a == Normal <==> n == 0
    ensures a == Critical <==> n == 2
  {
    match a
    case Normal => 0
    case Warning => 1
    case Critical => 2
  }

  /** `alert = "normal"`: an absent alert prop means normal. */
  function EffectiveAlert(alert: Option<AlertLevel>): (a: AlertLevel)
    ensures alert.None? ==> a == Normal
    ensures alert.Some? ==> a == alert.value
  {
    alert.GetOr(Normal)
  }

  /** Palettes chosen by the `color` key. */
  datatype Palette = HeartRatePalette | OxygenPalette | ActivityPalette | SleepPalette | StressPalette | PrimaryPalette

  /** getColorClasses: one palette per known colour key, primary otherwise. */
  function ColorClasses(color: string): (p: Palette)
    ensures p == HeartRatePalette <==> color == "heart-rate"
    ensures p == OxygenPalette <==> color == "oxygen"
    ensures p == ActivityPalette <==> color == "activity"
    ensures p == SleepPalette <==> color == "sleep"
    ensures p == StressPalette <==> color == "stress"
    ensures p == PrimaryPalette <==> color !in {"heart-rate", "oxygen", "activity", "sleep", "stress"}
  {
    if color == "heart-rate" then HeartRatePalette
    else if color == "oxygen" then OxygenPalette
    else if color == "activity" then ActivityPalette
    else if color == "sleep" then SleepPalette
    else if color == "stress" then StressPalette
    else PrimaryPalette
  }

  /** Ring classes of getAlertClasses; a normal card has none (""). */
  datatype Ring = NoRing | WarningRing | CriticalRing

  function AlertClasses(alert: Option<AlertLevel>): (r: Ring)
    ensures r == NoRing <==> EffectiveAlert(alert) == Normal
    ensures r == WarningRing <==> EffectiveAlert(alert) == Warning
    ensures r == CriticalRing <==> EffectiveAlert(alert) == Critical
  {
    match EffectiveAlert(alert)
    case Warning => WarningRing
    case Critical => CriticalRing
    case Normal => NoRing
  }

  /** Colour of the pulsing alert dot. */
  datatype DotColor = WarningDot | DestructiveDot

  /** The alert dot is drawn for any alert other than normal; it is
      warning-coloured for a warning and destructive otherwise. */
  function AlertDot(alert: Option<AlertLevel>): (d: Option<DotColor>)
    ensures d.None? <==> EffectiveAlert(alert) == Normal
    ensures d == Some(WarningDot) <==> EffectiveAlert(alert) == Warning
    ensures d == Some(DestructiveDot) <==> EffectiveAlert(alert) == Critical
  {
    var a := EffectiveAlert(alert);
    if a != Normal then Some(if a == Warning then WarningDot else DestructiveDot) else None
  }

  /** The dot and the ring always signal the same level. */
  lemma AlertDotMatchesRing(alert: Option<AlertLevel>)
    ensures AlertDot(alert).None? <==> AlertClasses(alert) == NoRing
    ensures AlertDot(alert) == Some(DestructiveDot) <==> AlertClasses(alert) == CriticalRing
  {
  }

  /** getTrendIcon: an arrow per trend, nothing without a trend. */
  function TrendIcon(trend: Option<Trend>): (c: Option<char>)
    ensures c.None? <==> trend.None?
    ensures trend == Some(Up) ==> c == Some('↗')
    ensures trend == Some(Down) ==> c == Some('↘')
    ensures trend == Some(Stable) ==> c == Some('→')
  {
    match trend
    case None => None
    case Some(Up) => Some('↗')
    case Some(Down) => Some('↘')
    case Some(Stable) => Some('→')
  }

  /** `trend && trendValue`: the trend row needs a trend and a non-empty
      trend text (an empty string is falsy). */
  function TrendRowVisible(trend: Option<Trend>, trendValue: Option<string>): (shown: bool)
    ensures shown ==> TrendIcon(trend).Some?
    ensures shown ==> trendValue.Some? && trendValue.value != ""
  {
    trend.Some? && trendValue.Some? && trendValue.value != ""
  }

  /** A visible trend row always has an icon to show. */
  lemma TrendRowHasIcon(trend: Option<Trend>, trendValue: Option<string>)
    requires TrendRowVisible(trend, trendValue)
    ensures TrendIcon(trend).Some?
  {
  }

  /** checkDeviceType's two flags for a window size. */
  predicate IsMobile(width: int): (b: bool)
    ensures b <==> width < 768
    ensures width <= 320 ==> b
  {
    width < 768
  }

  predicate IsSmartwatch(width: int, height: int): (b: bool)
    ensures b <==> width <= 320 && height <= 320
    ensures b ==> IsMobile(width)
  {
    width <= 320 && height <= 320
  }

  /** Every smartwatch-sized window is also mobile-sized. */
  lemma SmartwatchIsMobile(width: int, height: int)
    ensures IsSmartwatch(width, height) ==> IsMobile(width)
  {
  }

  /** Card padding classes. */
  datatype Padding = P3 | P4 | P6

  /** Smartwatch styling wins over mobile, which wins over desktop. */
  function CardPadding(isSmartwatch: bool, isMobile: bool): (p: Padding)
    ensures isSmartwatch ==> p == P3
    ensures !isSmartwatch && isMobile ==> p == P4
    ensures !isSmartwatch && !isMobile ==> p == P6
  {
    if isSmartwatch then P3 else if isMobile then P4 else P6
  }

  /** The padding a window size produces: p-3 exactly for smartwatch sizes,
      p-4 for other mobile sizes, p-6 from 768 pixels up. */
  lemma PaddingForWindow(width: int, height: int)
    ensures CardPadding(IsSmartwatch(width, height), IsMobile(width)) == P3 <==> IsSmartwatch(width, height)
    ensures CardPadding(IsSmartwatch(width, height), IsMobile(width)) == P6 <==> width >= 768
  {
  }

  /** The card's device-type state, recomputed by every resize event. */
  class DeviceWatcher {
    var isMobile: bool
    var isSmartwatch: bool

    ghost predicate Valid()
      reads this
    {
      isSmartwatch ==> isMobile
    }

    /** Both flags start false, before the first check runs. */
    constructor ()
      ensures Valid()
      ensures !isMobile && !isSmartwatch
    {
      isMobile := false;
      isSmartwatch := false;
    }

    /** checkDeviceType: on mount and on every resize. */
    method CheckDeviceType(width: int, height: int)
      modifies this
      ensures Valid()
      ensures isMobile == IsMobile(width)
      ensures isSmartwatch == IsSmartwatch(width, height)
    {
      isMobile := width < 768;
      isSmartwatch := width <= 320 && height <= 320;
    }
  }
}
