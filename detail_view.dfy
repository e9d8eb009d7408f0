/** The detail list of one group of alerts
    (src/sections/dashboard/Alerts/AlertsDetailView.tsx): three tabs, `all`, `alerta` and
    `advertencia`, each listing the alerts whose title matches it, and a counter per tab. */
module AlertsDetailView {
  import opened Js
  import opened ViewState

  const AllTab: string := "all"
  const AlertTab: string := "alerta"
  const WarningTab: string := "advertencia"

  /** The test "the lower-cased title is `lower`", as a function value so that every use
      denotes the same one. */
  function TitleMatches(lower: string): AlertProps -> bool {
    (a: AlertProps) => ToLower(a.title) == lower
  }

  /** `filteredAlerts`: every alert on the `all` tab, else the alerts whose title equals
      the tab ignoring case, in their order. */
  function FilterByTab(data: seq<AlertProps>, tab: string): (r: seq<AlertProps>)
    ensures tab == AllTab ==> r == data
    ensures tab != AllTab ==> r == Filter(data, TitleMatches(ToLower(tab)))
    ensures forall a :: a in r ==> a in data
    ensures tab != AllTab ==> forall a :: a in r ==> ToLower(a.title) == ToLower(tab)
  {
    if tab == AllTab then data else Filter(data, TitleMatches(ToLower(tab)))
  }

  /** Off the `all` tab, an alert is listed exactly when its title matches the tab, and
      the listed alerts keep their relative order. */
  lemma FilterByTabSpec(data: seq<AlertProps>, tab: string)
    requires tab != AllTab
    ensures forall a :: a in FilterByTab(data, tab) <==> a in data && ToLower(a.title) == ToLower(tab)
    ensures forall d1, d2 :: FilterByTab(d1 + d2, tab) == FilterByTab(d1, tab) + FilterByTab(d2, tab)
  {
    forall a | a in data && ToLower(a.title) == ToLower(tab)
      ensures a in FilterByTab(data, tab)
    {
      FilterKeeps(data, TitleMatches(ToLower(tab)), a);
    }
    forall d1, d2
      ensures FilterByTab(d1 + d2, tab) == FilterByTab(d1, tab) + FilterByTab(d2, tab)
    {
      FilterAppend(d1, d2, TitleMatches(ToLower(tab)));
    }
  }

  /** The three tab counters. */
  datatype AlertsCount = AlertsCount(all: nat, alertas: nat, advertencias: nat)

  /** `alertsCount`: `all` counts every alert, and each tab counter counts a part of them. */
  function CountAlerts(data: seq<AlertProps>): (c: AlertsCount)
    ensures c.all == |data|
    ensures c.alertas <= c.all && c.advertencias <= c.all
    ensures (forall a :: a in data ==> ToLower(a.title) != AlertTab) ==> c.alertas == 0
    ensures (forall a :: a in data ==> ToLower(a.title) != WarningTab) ==> c.advertencias == 0
  {
    AlertsCount(|data|, |Filter(data, TitleMatches(AlertTab))|, |Filter(data, TitleMatches(WarningTab))|)
  }

  /** Every counter is the length of the list its tab shows. */
  lemma CountsMatchTabs(data: seq<AlertProps>)
    ensures CountAlerts(data).all == |FilterByTab(data, AllTab)|
    ensures CountAlerts(data).alertas == |FilterByTab(data, AlertTab)|
    ensures CountAlerts(data).advertencias == |FilterByTab(data, WarningTab)|
  {
    assert ToLower(AlertTab) == AlertTab;
    assert ToLower(WarningTab) == WarningTab;
  }

  /** No alert is counted under both tabs, so the two counters together never exceed
      the number of alerts. */
  lemma {:induction false} CountsBound(data: seq<AlertProps>)
    ensures CountAlerts(data).alertas + CountAlerts(data).advertencias <= CountAlerts(data).all
  {
    if data != [] {
      CountsBound(data[1..]);
    }
  }
}
