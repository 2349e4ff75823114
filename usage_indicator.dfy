/**
 * The header's usage indicator (src/components/layout/UsageIndicator.tsx):
 * three utilization percentages with a colour by threshold, and the views
 * for loading and for an error without data.
 *
 * A utilization is a `real` (`None` for null or undefined); NaN is outside
 * the model. The locale formatting of a reset time is the parameter
 * `localize`.
 */
module UsageIndicator {
  import opened Optional
  import opened Strings

  /** The Tailwind colour classes of a metric. */
  datatype UsageColor = Muted | Red | Yellow | Emerald

  /** `getUsageColor`. */
  function UsageColorOf(utilization: Option<real>): (c: UsageColor)
    ensures c == Muted <==> utilization.None?
    ensures c == Red <==> utilization.Some? && utilization.value > 80.0
    ensures c == Yellow <==> utilization.Some? && 50.0 <= utilization.value <= 80.0
    ensures c == Emerald <==> utilization.Some? && utilization.value < 50.0
  {
    match utilization
    case None => Muted
    case Some(u) => if u > 80.0 then Red else if u >= 50.0 then Yellow else Emerald
  }

  /** The class name each colour stands for. */
  function ColorClass(c: UsageColor): string
  {
    match c
    case Muted => "text-muted-foreground"
    case Red => "text-red-400"
    case Yellow => "text-yellow-400"
    case Emerald => "text-emerald-400"
  }

  /** `Math.round`: the nearest integer, halves rounded upward. */
  function Round(x: real): (n: int)
    ensures (n as real) - 0.5 <= x < (n as real) + 0.5
  {
    (x + 0.5).Floor
  }

  /** `formatPercent`. */
  function FormatPercent(utilization: Option<real>): (r: string)
    ensures utilization.None? <==> r == "--"
    ensures utilization.Some? ==> r == IntToString(Round(utilization.value)) + "%"
  {
    match utilization
    case None => "--"
    case Some(u) =>
      var text := IntToString(Round(u)) + "%";
      assert text[|text| - 1] == '%';
      text
  }

  /** Round is the integer nearest to x, the upper one on a tie, and is monotone. */
  lemma RoundNearest(x: real, k: int)
    ensures Round(x) == k <==> (k as real) - 0.5 <= x < (k as real) + 0.5
    ensures forall y: real :: x <= y ==> Round(x) <= Round(y)
  {
  }

  /** `formatResetTime`: "N/A" without a date, the localized date otherwise. */
  function FormatResetTime(resetsAt: Option<string>, localize: string -> string): (r: string)
    ensures resetsAt.None? || resetsAt == Some("") ==> r == "N/A"
    ensures resetsAt.Some? && resetsAt.value != "" ==> r == localize(resetsAt.value)
  {
    if resetsAt.None? || resetsAt.value == "" then "N/A" else localize(resetsAt.value)
  }

  /** What `useUsage` hands over: the three utilizations and the error text. */
  datatype UsageData = UsageData(fiveHour: Option<real>, sevenDay: Option<real>, sevenDaySonnet: Option<real>, error: Option<string>)

  /** What the indicator shows. */
  datatype UsageView = LoadingView | UnavailableView(error: string) | MetricsView(session: Option<real>, week: Option<real>, sonnet: Option<real>)

  /** The component's choice of view. */
  function ViewOf(loading: bool, data: Option<UsageData>): (v: UsageView)
    ensures v.LoadingView? <==> loading
    ensures v.UnavailableView? <==>
              !loading && data.Some? && data.value.error.Some? && data.value.error.value != ""
              && data.value.fiveHour.None? && data.value.sevenDay.None? && data.value.sevenDaySonnet.None?
    ensures v.MetricsView? && data.None? ==> v == MetricsView(None, None, None)
    ensures v.MetricsView? && data.Some? ==> v == MetricsView(data.value.fiveHour, data.value.sevenDay, data.value.sevenDaySonnet)
  {
    if loading then LoadingView
    else
      var session := if data.Some? then data.value.fiveHour else None;
      var week := if data.Some? then data.value.sevenDay else None;
      var sonnet := if data.Some? then data.value.sevenDaySonnet else None;
      if data.Some? && data.value.error.Some? && data.value.error.value != "" && session.None? && week.None? && sonnet.None? then
        UnavailableView(data.value.error.value)
      else MetricsView(session, week, sonnet)
  }

  /** Any one utilization present keeps the metrics on screen, error or not. */
  lemma DataWinsOverError(data: UsageData)
    requires data.fiveHour.Some? || data.sevenDay.Some? || data.sevenDaySonnet.Some?
    ensures ViewOf(false, Some(data)).MetricsView?
  {
  }
}
