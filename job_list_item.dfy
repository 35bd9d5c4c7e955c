/** The work-day row of a job in the chosen and refused lists: at most four
    day badges, then a "+N" label counting the days that did not fit. */
module JobListItem {
  import opened Types

  /** How many day badges the row has room for. */
  const MaxShownDays: nat := 4

  /** The days shown as badges: the first four, or all of them when there are
      fewer. */
  function ShownDays(days: seq<string>): (shown: seq<string>)
    ensures |shown| == if |days| <= MaxShownDays then |days| else MaxShownDays
    ensures shown <= days
  {
    if |days| <= MaxShownDays then days else days[..MaxShownDays]
  }

  /** The overflow label's number, present only when some day did not fit. */
  function MoreLabel(days: seq<string>): (more: Option<nat>)
    ensures more.Some? <==> |days| > MaxShownDays
    ensures more.Some? ==> more.value >= 1
  {
    if |days| > MaxShownDays then Some(|days| - MaxShownDays) else None
  }

  /** The row accounts for every day exactly once: the badges are the days in
      order up to the point where the label takes over, and the label counts
      the rest. */
  lemma RowAccountsForEveryDay(days: seq<string>)
    ensures MoreLabel(days).None? ==> ShownDays(days) == days
    ensures MoreLabel(days).Some? ==>
      |ShownDays(days)| + MoreLabel(days).value == |days|
      && ShownDays(days) + days[|ShownDays(days)|..] == days
  {
  }
}
