/**
  The derived values the benefit list shows: the period label and the
  "Remaining" amount. The two views test the period codes in different
  orders; both are written here as they appear.
 */
module Display {
  import opened Wrappers

  /** The four period codes and their labels; every other code is shown as "Other". */
  const PeriodLabels: map<string, string> := map[
    "quarter" := "Quarterly",
    "semiannual" := "Every 6 months",
    "monthly" := "Monthly",
    "annual" := "Annual"
  ]

  /** The period label of wallet.js, testing quarter, semiannual, annual, monthly. */
  function WalletPeriodLabel(period: string): (r: string)
    ensures period in PeriodLabels ==> r == PeriodLabels[period]
    ensures period !in PeriodLabels ==> r == "Other"
  {
    if period == "quarter" then "Quarterly"
    else if period == "semiannual" then "Every 6 months"
    else if period == "annual" then "Annual"
    else if period == "monthly" then "Monthly"
    else "Other"
  }

  /** The period label of card_details.js, testing quarter, semiannual, monthly, annual. */
  function DetailsPeriodLabel(period: string): (r: string)
    ensures period in PeriodLabels ==> r == PeriodLabels[period]
    ensures period !in PeriodLabels ==> r == "Other"
  {
    if period == "quarter" then "Quarterly"
    else if period == "semiannual" then "Every 6 months"
    else if period == "monthly" then "Monthly"
    else if period == "annual" then "Annual"
    else "Other"
  }

  /** The two views label every period alike, and no known period is labelled "Other". */
  lemma PeriodLabelsAgree(period: string)
    ensures WalletPeriodLabel(period) == DetailsPeriodLabel(period)
    ensures WalletPeriodLabel(period) == "Other" <==> period !in PeriodLabels
  {
  }

  /**
    The "Remaining" segment: absent when the limit is 0 (falsy), otherwise
    `Math.max(0, limit - used)`, which is never negative.
   */
  function Remaining(limit: int, used: int): (r: Option<int>)
    ensures r.Some? <==> limit != 0
    ensures r.Some? ==> r.value >= 0 && r.value >= limit - used
    ensures r.Some? ==> r.value == 0 || r.value == limit - used
  {
    if limit == 0 then None
    else if limit - used > 0 then Some(limit - used)
    else Some(0)
  }
}
