/** The grouped table of alerts (src/sections/dashboard/Alerts/TableView.tsx): alerts
    grouped under a day label (`HOY`, `AYER` or the formatted date), groups ordered
    today first, then yesterday, then by decreasing timestamp, and each row styled by its
    status and by a keyword of its type. The date formatting and parsing are inputs: a
    `format` function for the day label and a `timeOf` function for the sort. */
module TableView {
  import opened Js
  import opened Grouping
  import opened ViewState
  import AlertsData
  import AlertFilters

  const AlertColor: string := "#FF6F5A"
  const WarningColor: string := "#F5B73F"
  const DefaultTypeColor: string := "#9BA4B5"
  const DefaultTypeIcon: string := "mdi:alert"
  const Today: string := "HOY"
  const Yesterday: string := "AYER"

  /** `getStatusColor`. */
  function StatusColor(title: string): (c: string)
    ensures c == AlertColor <==> title == "ALERTA"
    ensures c == WarningColor <==> title != "ALERTA"
  {
    if title == "ALERTA" then AlertColor else WarningColor
  }

  // ---------------------------------------------------------------------------
  // Type chip

  /** The keys of `typeConfig`, in their declaration order. */
  const TypeKeys: seq<string> := ["camino", "construcción", "vehículo", "intruso"]

  /** The chip style of a type keyword. */
  datatype TypeStyle = TypeStyle(color: string, icon: string, border: string)

  /** `typeConfig[key]` for a key of `typeConfig`: each chip has its border in its own
      colour, and none looks like the fallback chip. */
  function StyleOf(key: string): (s: TypeStyle)
    requires key in TypeKeys
    ensures s.border == s.color
    ensures s.color != DefaultTypeColor && s.icon != DefaultTypeIcon
  {
    if key == "camino" then TypeStyle("#D59BFF", "mdi:bike", "#D59BFF")
    else if key == "construcción" then TypeStyle("#FFC25D", "mdi:home", "#FFC25D")
    else if key == "vehículo" then TypeStyle("#4CD5ED", "mdi:car", "#4CD5ED")
    else TypeStyle("#FF6F5A", "mdi:person", "#FF6F5A")
  }

  /** The position of the first key contained in `lowered`, or the number of keys when
      none is. */
  function FirstKeyIn(keys: seq<string>, lowered: string): (i: nat)
    ensures i <= |keys|
    ensures i < |keys| ==> Contains(lowered, keys[i])
    ensures forall j :: 0 <= j < i ==> !Contains(lowered, keys[j])
  {
    if |keys| == 0 then 0
    else if Contains(lowered, keys[0]) then 0
    else 1 + FirstKeyIn(keys[1..], lowered)
  }

  /** `typeKey`: the first key of `typeConfig` that the lower-cased type contains. */
  function TypeKey(typeName: string): (k: Option<string>)
    ensures k.Some? ==> k.value in TypeKeys && Contains(ToLower(typeName), k.value)
    ensures k.Some? ==> exists i :: 0 <= i < |TypeKeys| && TypeKeys[i] == k.value
                          && forall j :: 0 <= j < i ==> !Contains(ToLower(typeName), TypeKeys[j])
    ensures k.None? <==> forall key :: key in TypeKeys ==> !Contains(ToLower(typeName), key)
  {
    var i := FirstKeyIn(TypeKeys, ToLower(typeName));
    if i < |TypeKeys| then Some(TypeKeys[i]) else None
  }

  /** The chip of a type: the style of its key, or the grey `mdi:alert` chip when no key
      matches. */
  function TypeChip(typeName: string): (s: TypeStyle)
    ensures TypeKey(typeName).None? ==> s == TypeStyle(DefaultTypeColor, DefaultTypeIcon, DefaultTypeColor)
    ensures TypeKey(typeName).Some? ==> s == StyleOf(TypeKey(typeName).value)
  {
    match TypeKey(typeName)
    case None => TypeStyle(DefaultTypeColor, DefaultTypeIcon, DefaultTypeColor)
    case Some(key) => StyleOf(key)
  }

  // ---------------------------------------------------------------------------
  // Day labels and their order

  /** The label of an alert's day: `HOY` for today, `AYER` for yesterday, else the
      formatted date. `format` is the locale formatting, `today` and `yesterday` its
      values for the clock's two days. */
  function DayLabel(date: string, format: string -> string, today: string, yesterday: string): (key: string)
    ensures format(date) == today ==> key == Today
    ensures format(date) != today && format(date) == yesterday ==> key == Yesterday
    ensures format(date) != today && format(date) != yesterday ==> key == format(date)
  {
    if format(date) == today then Today
    else if format(date) == yesterday then Yesterday
    else format(date)
  }

  /** With today and yesterday two different days, and no formatted date spelling `HOY`
      or `AYER`, two alerts share a label exactly when they fall on the same day: the
      groups are the days. */
  lemma DayLabelSeparatesDays(d1: string, d2: string, format: string -> string, today: string, yesterday: string)
    requires today != yesterday
    requires format(d1) != Today && format(d1) != Yesterday
    requires format(d2) != Today && format(d2) != Yesterday
    ensures DayLabel(d1, format, today, yesterday) == DayLabel(d2, format, today, yesterday) <==> format(d1) == format(d2)
  {
  }

  /** `updateGroups`: the alerts grouped under their day label, by the accumulating
      reduce. Every alert is in exactly the group of its label, in input order, and the
      group sizes add up to the number of alerts. */
  method GroupByDay(alerts: seq<AlertProps>, format: string -> string, today: string, yesterday: string)
    returns (gs: seq<Group<string, AlertProps>>)
    ensures gs == GroupsOf(alerts, (a: AlertProps) => DayLabel(a.date, format, today, yesterday))
    ensures DistinctKeys(gs) && TotalSize(gs) == |alerts|
    ensures forall g :: g in gs ==> g.members != [] && g.members == Filter(alerts, KeyIs((a: AlertProps) => DayLabel(a.date, format, today, yesterday), g.key))
  {
    var labelOf := (a: AlertProps) => DayLabel(a.date, format, today, yesterday);
    gs := GroupByKey(alerts, labelOf);
    GroupsPartition(alerts, labelOf);
  }

  /** The effect on a new list of alerts: no group for an empty list, else the rows of
      the list (with the table's cover image as the fallback) grouped by day label. */
  method ShowGroups(alerts: seq<AlertsData.AlertItem>, format: string -> string, today: string, yesterday: string)
    returns (gs: seq<Group<string, AlertProps>>)
    ensures gs == GroupsOf(AlertFilters.AllToProps(alerts, AlertFilters.TableImageFallback),
                           (a: AlertProps) => DayLabel(a.date, format, today, yesterday))
    ensures |alerts| == 0 ==> gs == []
    ensures TotalSize(gs) == |alerts|
  {
    if |alerts| > 0 {
      gs := GroupByDay(AlertFilters.AllToProps(alerts, AlertFilters.TableImageFallback), format, today, yesterday);
    } else {
      gs := [];
    }
  }

  /** The rank of a label in the order of the table: today, yesterday, any date. */
  function LabelRank(name: string): nat {
    if name == Today then 0 else if name == Yesterday then 1 else 2
  }

  /** The comparator of the group sort. For two different labels it is negative exactly
      when the first has the lower rank, or both are dates and the first is later. */
  function LabelCompare(a: string, b: string, timeOf: string -> int): (c: int)
    ensures a != b && LabelRank(a) < LabelRank(b) ==> c < 0
    ensures a != b && LabelRank(a) > LabelRank(b) ==> c > 0
    ensures LabelRank(a) == 2 && LabelRank(b) == 2 ==> c == timeOf(b) - timeOf(a)
  {
    if a == Today then -1
    else if b == Today then 1
    else if a == Yesterday then -1
    else if b == Yesterday then 1
    else timeOf(b) - timeOf(a)
  }

  /** On distinct labels, the ones an object's keys can hold, the comparator is a
      consistent total order: swapping the arguments flips its sign, and it is
      transitive. So the sort puts `HOY` first, `AYER` second, and the dates in
      decreasing `timeOf`, which is newest first only when `timeOf` orders the labels'
      dates. */
  lemma LabelCompareConsistent(a: string, b: string, c: string, timeOf: string -> int)
    requires a != b && b != c && a != c
    ensures LabelCompare(a, b, timeOf) < 0 <==> LabelCompare(b, a, timeOf) > 0
    ensures LabelCompare(a, b, timeOf) == 0 <==> LabelCompare(b, a, timeOf) == 0
    ensures LabelCompare(a, b, timeOf) <= 0 && LabelCompare(b, c, timeOf) <= 0 ==> LabelCompare(a, c, timeOf) <= 0
  {
  }

  /** The counter of a group: its size, left-padded with zeros to two digits. */
  function CountLabel(group: seq<AlertProps>): (s: string)
    ensures |s| >= 2 && DecimalValue(s) == |group|
  {
    PaddedCounterValue(|group|);
    PadStart(NatToString(|group|), 2, '0')
  }
}
