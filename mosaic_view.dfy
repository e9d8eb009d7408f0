/** The mosaic of alerts (src/sections/dashboard/Alerts/MosaicView.tsx): the store's
    alerts turned into card props and grouped by calendar day, one carousel per day. The
    day of a date (`toISOString().split('T')[0]`) is an input function. */
module MosaicView {
  import opened Js
  import opened Grouping
  import opened ViewState
  import opened AlertsData
  import opened AlertFilters

  /** `groupAlertsByDate`: the alerts grouped by day, filled by the `forEach` loop.
      Every alert is in exactly the group of its day, in input order, and the group sizes
      add up to the number of alerts. */
  method GroupAlertsByDate(alerts: seq<AlertProps>, dayOf: string -> string)
    returns (gs: seq<Group<string, AlertProps>>)
    ensures gs == GroupsOf(alerts, (a: AlertProps) => dayOf(a.date))
    ensures DistinctKeys(gs) && TotalSize(gs) == |alerts|
    ensures forall g :: g in gs ==> g.members != [] && g.members == Filter(alerts, KeyIs((a: AlertProps) => dayOf(a.date), g.key))
  {
    var keyOf := (a: AlertProps) => dayOf(a.date);
    gs := GroupByKey(alerts, keyOf);
    GroupsPartition(alerts, keyOf);
  }

  /** The effect on a new list of alerts: no group for an empty list, else the cards of
      the list grouped by day. */
  method ShowAlerts(alerts: seq<AlertItem>, dayOf: string -> string) returns (gs: seq<Group<string, AlertProps>>)
    ensures gs == GroupsOf(AllToProps(alerts, MosaicImageFallback), (a: AlertProps) => dayOf(a.date))
    ensures |alerts| == 0 ==> gs == []
    ensures TotalSize(gs) == |alerts|
  {
    if |alerts| > 0 {
      gs := GroupAlertsByDate(AllToProps(alerts, MosaicImageFallback), dayOf);
    } else {
      gs := [];
    }
  }
}
