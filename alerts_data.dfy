/** The data side of the alerts store (src/store/alertsStore.ts): the records exchanged
    with the analysis-images endpoint, the query parameters built from a filter record,
    and the two loops that turn the nested response into the flat, numbered alert list
    the views show, the second one filling in names from the alarm-type catalogue.

    Optional text fields use the empty string for "absent", optional numbers use 0: the
    source tests them for truthiness, under which `undefined`, `''` and `0` behave alike. */
module AlertsData {
  import opened Js

  /** One entry of the alarm-type catalogue. */
  datatype AlarmType = AlarmType(id: string, key: string, name: string, description: string)

  /** One alarm of an analysis, with the fields the store reads. */
  datatype Alarm = Alarm(
    id: string, level: string, description: string, createdAt: string,
    latitude: string, longitude: string, urlImage: string, alarmTypeId: string)

  /** `analysis.alarmGroup`, whose `alarms` list may be missing. */
  datatype AlarmGroup = AlarmGroup(alarms: Option<seq<Alarm>>)

  /** One record of the response's `data` list. */
  datatype Analysis = Analysis(alarmGroup: Option<AlarmGroup>, resultImageUrl: string)

  datatype PaginationMeta = PaginationMeta(
    total: int, lastPage: int, currentPage: int, perPage: int, prev: Option<int>, next: Option<int>)

  /** The body of a successful analysis-images response: `{data, meta}`. */
  datatype AnalysisPage = AnalysisPage(data: seq<Analysis>, meta: PaginationMeta)

  /** An alert as the store keeps it. `typeName` is the source's `type` field; `date` is
      the alarm's creation time, kept as the value the server sent. */
  datatype AlertItem = AlertItem(
    id: string, title: string, number: string, typeName: string, description: string,
    detailedDescription: string, date: string, latitude: string, longitude: string,
    imageUrl: string, icon: string)

  /** The filter record of one fetch. */
  datatype AnalysisFilters = AnalysisFilters(
    polygonId: string, createdStartDate: string, createdEndDate: string,
    alarmTypeId: string, level: string, page: int, perPage: int)

  const UnknownType: string := "Tipo desconocido"
  const NoDescription: string := "Sin descripción"
  const NoDetailedDescription: string := "Sin descripción detallada"
  const MockZoneImage: string := "/assets/background/mockZone.png"
  const AlertIcon: string := "mdi:alert"

  // ---------------------------------------------------------------------------
  // Query parameters

  /** The query parameter names, in the order the store appends them. */
  datatype QueryKey = PolygonId | CreatedStartDate | CreatedEndDate | AlarmTypeId | Level | Page | PerPage

  /** The name that goes on the wire. */
  function KeyName(k: QueryKey): string {
    match k
    case PolygonId => "polygonId"
    case CreatedStartDate => "createdStartDate"
    case CreatedEndDate => "createdEndDate"
    case AlarmTypeId => "alarmTypeId"
    case Level => "level"
    case Page => "page"
    case PerPage => "perPage"
  }

  /** Position of a name in the append order. */
  function KeyRank(k: QueryKey): nat {
    match k
    case PolygonId => 0
    case CreatedStartDate => 1
    case CreatedEndDate => 2
    case AlarmTypeId => 3
    case Level => 4
    case Page => 5
    case PerPage => 6
  }

  type Param = (QueryKey, string)

  /** The value the query must carry under `key` for the filters `f`: `polygonId` always,
      every other filter only when it is truthy. */
  function Expected(key: QueryKey, f: AnalysisFilters): Option<string> {
    match key
    case PolygonId => Some(f.polygonId)
    case CreatedStartDate => if f.createdStartDate != "" then Some(f.createdStartDate) else None
    case CreatedEndDate => if f.createdEndDate != "" then Some(f.createdEndDate) else None
    case AlarmTypeId => if f.alarmTypeId != "" then Some(f.alarmTypeId) else None
    case Level => if f.level != "" then Some(f.level) else None
    case Page => if f.page != 0 then Some(IntToString(f.page)) else None
    case PerPage => if f.perPage != 0 then Some(IntToString(f.perPage)) else None
  }

  /** `params` is the query built from `f` once every name of rank below `r` has been
      considered: `polygonId` first, names in append order, every pair carrying the
      expected value, and every expected value of those names present. */
  predicate BuiltUpTo(params: seq<Param>, f: AnalysisFilters, r: nat) {
    && |params| >= 1 && params[0] == (PolygonId, f.polygonId)
    && (forall i, j :: 0 <= i < j < |params| ==> KeyRank(params[i].0) < KeyRank(params[j].0))
    && (forall p :: p in params ==> KeyRank(p.0) < r && Expected(p.0, f) == Some(p.1))
    && (forall key :: KeyRank(key) < r && Expected(key, f).Some? ==> (key, Expected(key, f).value) in params)
  }

  /** The name considered at position `r` of the append order. */
  function KeyAt(r: nat): (k: QueryKey)
    requires r < 7
    ensures KeyRank(k) == r
  {
    [PolygonId, CreatedStartDate, CreatedEndDate, AlarmTypeId, Level, Page, PerPage][r]
  }

  /** `if (value) params.append(key, value)`. */
  function AppendIfPresent(params: seq<Param>, key: QueryKey, f: AnalysisFilters): seq<Param> {
    if Expected(key, f).Some? then params + [(key, Expected(key, f).value)] else params
  }

  /** The query once the names of rank below `r` have been considered. */
  function QueryPrefix(f: AnalysisFilters, r: nat): seq<Param>
    requires 1 <= r <= 7
  {
    if r == 1 then [(PolygonId, f.polygonId)] else AppendIfPresent(QueryPrefix(f, r - 1), KeyAt(r - 1), f)
  }

  /** Every prefix of the append sequence is a well-built query up to its rank. */
  lemma {:induction false} QueryPrefixBuilt(f: AnalysisFilters, r: nat)
    requires 1 <= r <= 7
    ensures BuiltUpTo(QueryPrefix(f, r), f, r)
  {
    if r > 1 {
      QueryPrefixBuilt(f, r - 1);
      BuiltStep(QueryPrefix(f, r - 1), QueryPrefix(f, r), f, KeyAt(r - 1));
    }
  }

  /** The complete query for the filters `f`. */
  function QueryParams(f: AnalysisFilters): seq<Param> {
    QueryPrefix(f, 7)
  }

  /** The complete query has the four properties the store relies on. */
  lemma QueryParamsSound(f: AnalysisFilters, params: seq<Param>)
    requires params == QueryParams(f)
    ensures |params| >= 1 && params[0] == (PolygonId, f.polygonId)
    ensures forall i, j :: 0 <= i < j < |params| ==> KeyRank(params[i].0) < KeyRank(params[j].0)
    ensures forall p :: p in params ==> Expected(p.0, f) == Some(p.1)
    ensures forall key :: Expected(key, f).Some? ==> (key, Expected(key, f).value) in params
  {
    QueryPrefixBuilt(f, 7);
    forall key | Expected(key, f).Some?
      ensures (key, Expected(key, f).value) in params
    {
      assert KeyRank(key) < 7;
    }
  }

  /** `new URLSearchParams()` filled by successive appends: `polygonId` always and first,
      then each optional filter only when it is truthy, in the fixed append order (so a
      `page` or `perPage` of 0 is left out). Every pair carries the expected value, every
      expected value is present, and no name occurs twice. */
  method BuildQueryParams(f: AnalysisFilters) returns (params: seq<Param>)
    ensures params == QueryParams(f)
    ensures |params| >= 1 && params[0] == (PolygonId, f.polygonId)
    ensures forall i, j :: 0 <= i < j < |params| ==> KeyRank(params[i].0) < KeyRank(params[j].0)
    ensures forall p :: p in params ==> Expected(p.0, f) == Some(p.1)
    ensures forall key :: Expected(key, f).Some? ==> (key, Expected(key, f).value) in params
  {
    params := [(PolygonId, f.polygonId)];
    if f.createdStartDate != "" {
      params := params + [(CreatedStartDate, f.createdStartDate)];
    }
    assert params == QueryPrefix(f, 2);
    if f.createdEndDate != "" {
      params := params + [(CreatedEndDate, f.createdEndDate)];
    }
    assert params == QueryPrefix(f, 3);
    if f.alarmTypeId != "" {
      params := params + [(AlarmTypeId, f.alarmTypeId)];
    }
    assert params == QueryPrefix(f, 4);
    if f.level != "" {
      params := params + [(Level, f.level)];
    }
    assert params == QueryPrefix(f, 5);
    if f.page != 0 {
      params := params + [(Page, IntToString(f.page))];
    }
    assert params == QueryPrefix(f, 6);
    if f.perPage != 0 {
      params := params + [(PerPage, IntToString(f.perPage))];
    }
    assert params == QueryPrefix(f, 7);
    QueryParamsSound(f, params);
  }

  /** One conditional append: appending the expected value of the next name when there is
      one, and nothing otherwise, extends the built query by that name. */
  lemma BuiltStep(before: seq<Param>, after: seq<Param>, f: AnalysisFilters, key: QueryKey)
    requires BuiltUpTo(before, f, KeyRank(key))
    requires after == if Expected(key, f).Some? then before + [(key, Expected(key, f).value)] else before
    ensures BuiltUpTo(after, f, KeyRank(key) + 1)
  {
    forall k | KeyRank(k) < KeyRank(key) + 1 && Expected(k, f).Some?
      ensures (k, Expected(k, f).value) in after
    {
      if KeyRank(k) == KeyRank(key) {
        assert k == key;
      }
    }
  }

  // ---------------------------------------------------------------------------
  // Flattening `data[].alarmGroup.alarms[]`

  /** The alarms an analysis contributes: none unless both `alarmGroup` and
      `alarmGroup.alarms` are present. */
  function AlarmsOf(a: Analysis): seq<Alarm> {
    match a.alarmGroup
    case None => []
    case Some(g) => match g.alarms { case None => [] case Some(xs) => xs }
  }

  /** An alarm together with the result image of the analysis it came from. */
  datatype Placed = Placed(alarm: Alarm, resultImageUrl: string)

  function PlaceAll(a: Analysis): (ps: seq<Placed>)
    ensures |ps| == |AlarmsOf(a)|
    ensures forall j :: 0 <= j < |ps| ==> ps[j] == Placed(AlarmsOf(a)[j], a.resultImageUrl)
  {
    seq(|AlarmsOf(a)|, j requires 0 <= j < |AlarmsOf(a)| => Placed(AlarmsOf(a)[j], a.resultImageUrl))
  }

  /** Every alarm of the response in response order: analysis by analysis, alarm by alarm. */
  function PlacedAlarms(data: seq<Analysis>): seq<Placed> {
    if data == [] then [] else PlacedAlarms(data[..|data| - 1]) + PlaceAll(data[|data| - 1])
  }

  /** The same alarms without their analyses, in the same order. */
  function AllAlarms(data: seq<Analysis>): seq<Alarm> {
    if data == [] then [] else AllAlarms(data[..|data| - 1]) + AlarmsOf(data[|data| - 1])
  }

  /** The number of alarms in the response, counted analysis by analysis. */
  function AlarmCount(data: seq<Analysis>): nat {
    if data == [] then 0 else |AlarmsOf(data[0])| + AlarmCount(data[1..])
  }

  /** `String(n).padStart(2, '0')`. */
  function Counter(n: nat): string {
    PadStart(NatToString(n), 2, '0')
  }

  /** `alarm.urlImage || analysis.resultImageUrl || '/assets/background/mockZone.png'`. */
  function ImageFor(p: Placed): string {
    if p.alarm.urlImage != "" then p.alarm.urlImage
    else if p.resultImageUrl != "" then p.resultImageUrl
    else MockZoneImage
  }

  /** The item pushed for an alarm when `n - 1` items were pushed before it. */
  function NewItem(p: Placed, n: nat): AlertItem {
    AlertItem(
      p.alarm.id, p.alarm.level, Counter(n), UnknownType,
      if p.alarm.description != "" then p.alarm.description else NoDescription,
      if p.alarm.description != "" then p.alarm.description else NoDetailedDescription,
      p.alarm.createdAt, p.alarm.latitude, p.alarm.longitude, ImageFor(p), AlertIcon)
  }

  /** The list the first loop builds. */
  function Flattened(data: seq<Analysis>): seq<AlertItem> {
    Numbered(PlacedAlarms(data), 0)
  }

  /** Items for the placed alarms `ps` when `before` items were pushed ahead of them. */
  function Numbered(ps: seq<Placed>, before: nat): (r: seq<AlertItem>)
    ensures |r| == |ps|
    ensures forall k :: 0 <= k < |ps| ==> r[k] == NewItem(ps[k], before + k + 1)
  {
    seq(|ps|, k requires 0 <= k < |ps| => NewItem(ps[k], before + k + 1))
  }

  /** Numbering a concatenation continues the count of the first part into the second. */
  lemma NumberedAppend(a: seq<Placed>, b: seq<Placed>, before: nat)
    ensures Numbered(a + b, before) == Numbered(a, before) + Numbered(b, before + |a|)
  {
    var whole, parts := Numbered(a + b, before), Numbered(a, before) + Numbered(b, before + |a|);
    forall k | 0 <= k < |whole|
      ensures whole[k] == parts[k]
    {
      if k >= |a| {
        assert (a + b)[k] == b[k - |a|];
        assert before + k + 1 == (before + |a|) + (k - |a|) + 1;
      }
    }
  }

  /** Numbering one more placed alarm appends its item, counted after the others. */
  lemma NumberedSnoc(ps: seq<Placed>, j: nat, before: nat)
    requires j < |ps|
    ensures Numbered(ps[..j + 1], before) == Numbered(ps[..j], before) + [NewItem(ps[j], before + j + 1)]
  {
    assert ps[..j + 1] == ps[..j] + [ps[j]];
    NumberedAppend(ps[..j], [ps[j]], before);
    var one := Numbered([ps[j]], before + j);
    assert one[0] == NewItem(ps[j], before + j + 1);
    assert one == [NewItem(ps[j], before + j + 1)];
  }

  /** One turn of the inner loop extends the numbered items by the next alarm. */
  lemma PushStep(items: seq<AlertItem>, out: seq<AlertItem>, analysis: Analysis, j: nat)
    requires j < |AlarmsOf(analysis)|
    requires out == items + Numbered(PlaceAll(analysis)[..j], |items|)
    ensures out + [NewItem(Placed(AlarmsOf(analysis)[j], analysis.resultImageUrl), |out| + 1)]
         == items + Numbered(PlaceAll(analysis)[..j + 1], |items|)
  {
    var ps := PlaceAll(analysis);
    var front := Numbered(ps[..j], |items|);
    var x := NewItem(ps[j], |items| + j + 1);
    assert NewItem(Placed(AlarmsOf(analysis)[j], analysis.resultImageUrl), |out| + 1) == x by {
      assert |front| == j;
    }
    NumberedSnoc(ps, j, |items|);
    AppendAssociative(items, front, [x]);
  }

  lemma AppendAssociative<T>(a: seq<T>, b: seq<T>, c: seq<T>)
    ensures (a + b) + c == a + (b + c)
  {
  }

  /** The first loop of `fetchAnalysisImages`: for each analysis that has
      `alarmGroup.alarms`, push one item per alarm, numbered by the count so far. */
  method FlattenAnalyses(data: seq<Analysis>) returns (items: seq<AlertItem>)
    ensures items == Flattened(data)
  {
    items := [];
    var i := 0;
    while i < |data|
      invariant 0 <= i <= |data|
      invariant items == Flattened(data[..i])
    {
      var analysis := data[i];
      assert data[..i + 1][..i] == data[..i] && data[..i + 1][i] == analysis;
      assert PlacedAlarms(data[..i + 1]) == PlacedAlarms(data[..i]) + PlaceAll(analysis);
      NumberedAppend(PlacedAlarms(data[..i]), PlaceAll(analysis), 0);
      assert Flattened(data[..i + 1]) == items + Numbered(PlaceAll(analysis), |items|);
      if analysis.alarmGroup.Some? && analysis.alarmGroup.value.alarms.Some? {
        items := PushAlarms(items, analysis);
      } else {
        assert Numbered(PlaceAll(analysis), |items|) == [];
        assert items + [] == items;
      }
      i := i + 1;
    }
    assert data[..i] == data;
  }

  /** The inner loop: one item per alarm of `analysis`, numbered after `items`. */
  method PushAlarms(items: seq<AlertItem>, analysis: Analysis) returns (out: seq<AlertItem>)
    ensures out == items + Numbered(PlaceAll(analysis), |items|)
  {
    var alarms, ps := AlarmsOf(analysis), PlaceAll(analysis);
    out := items;
    var j := 0;
    while j < |alarms|
      invariant 0 <= j <= |alarms|
      invariant out == items + Numbered(ps[..j], |items|)
    {
      PushStep(items, out, analysis, j);
      out := out + [NewItem(Placed(alarms[j], analysis.resultImageUrl), |out| + 1)];
      j := j + 1;
    }
    assert ps[..j] == ps;
  }

  /** Placing alarms distributes over splitting the response. */
  lemma {:induction false} PlacedAlarmsAppend(a: seq<Analysis>, b: seq<Analysis>)
    ensures PlacedAlarms(a + b) == PlacedAlarms(a) + PlacedAlarms(b)
    decreases |b|
  {
    if b != [] {
      var ab, front, last := a + b, b[..|b| - 1], b[|b| - 1];
      assert ab[..|ab| - 1] == a + front;
      assert ab[|ab| - 1] == last;
      assert PlacedAlarms(ab) == PlacedAlarms(a + front) + PlaceAll(last);
      assert PlacedAlarms(b) == PlacedAlarms(front) + PlaceAll(last);
      PlacedAlarmsAppend(a, front);
    } else {
      assert a + b == a;
    }
  }

  /** The flat list is exactly as long as the total alarm count over the analyses that
      carry `alarmGroup.alarms`; the others contribute nothing. */
  lemma FlattenedLength(data: seq<Analysis>)
    ensures |Flattened(data)| == |PlacedAlarms(data)| == AlarmCount(data)
  {
    PlacedAlarmsCount(data);
  }

  /** One placed alarm per alarm of the analyses that carry alarms. */
  lemma {:induction false} PlacedAlarmsCount(data: seq<Analysis>)
    ensures |PlacedAlarms(data)| == AlarmCount(data)
  {
    if data != [] {
      PlacedAlarmsAppend([data[0]], data[1..]);
      assert [data[0]] + data[1..] == data;
      assert [data[0]][..0] == [];
      PlacedAlarmsCount(data[1..]);
    }
  }

  lemma IndexInMiddle<T>(whole: seq<T>, a: seq<T>, b: seq<T>, c: seq<T>, count: nat, j: nat)
    requires whole == a + b + c && |a| == count && j < |b|
    ensures count + j < |whole| && whole[count + j] == b[j]
  {
  }

  /** The placed alarms of the first `i + 1` analyses: those of the first `i`, then
      those of analysis `i`. */
  lemma PlacedAlarmsUpTo(data: seq<Analysis>, i: nat)
    requires i < |data|
    ensures PlacedAlarms(data[..i + 1]) == PlacedAlarms(data[..i]) + PlaceAll(data[i])
  {
    var upTo := data[..i + 1];
    assert upTo[..i] == data[..i] && upTo[i] == data[i];
  }

  /** The placed alarms of a response split around analysis `i`. */
  lemma PlacedAlarmsSplit(data: seq<Analysis>, i: nat)
    requires i < |data|
    ensures PlacedAlarms(data) == PlacedAlarms(data[..i]) + PlaceAll(data[i]) + PlacedAlarms(data[i + 1..])
  {
    var upTo, back := data[..i + 1], data[i + 1..];
    assert data == upTo + back;
    PlacedAlarmsAppend(upTo, back);
    PlacedAlarmsUpTo(data, i);
  }

  /** Response order: the alarms of analysis `i` occupy one block of the flat list,
      starting after all alarms of the analyses before it. */
  lemma FlattenedBlock(data: seq<Analysis>, i: nat, j: nat)
    requires i < |data| && j < |AlarmsOf(data[i])|
    ensures AlarmCount(data[..i]) + j < |PlacedAlarms(data)|
    ensures PlacedAlarms(data)[AlarmCount(data[..i]) + j] == Placed(AlarmsOf(data[i])[j], data[i].resultImageUrl)
  {
    var front, here, back := PlacedAlarms(data[..i]), PlaceAll(data[i]), PlacedAlarms(data[i + 1..]);
    PlacedAlarmsSplit(data, i);
    PlacedAlarmsCount(data[..i]);
    IndexInMiddle(PlacedAlarms(data), front, here, back, AlarmCount(data[..i]), j);
  }

  /** What each flat item holds: the alarm's own fields, the counter `k + 1` padded to
      two digits (which reads back as `k + 1`, so no two items share a number), the
      unknown-type placeholder, the description or its placeholders, the first
      non-empty of the alarm image, the analysis image and the mock image, and the
      alert icon. */
  lemma FlattenedItem(data: seq<Analysis>, k: nat)
    requires k < |Flattened(data)|
    ensures var p, it := PlacedAlarms(data)[k], Flattened(data)[k];
      && it.id == p.alarm.id && it.title == p.alarm.level && it.date == p.alarm.createdAt
      && it.latitude == p.alarm.latitude && it.longitude == p.alarm.longitude
      && |it.number| >= 2 && DecimalValue(it.number) == k + 1
      && it.typeName == UnknownType
      && it.description == (if p.alarm.description != "" then p.alarm.description else NoDescription)
      && it.detailedDescription == (if p.alarm.description != "" then p.alarm.description else NoDetailedDescription)
      && it.imageUrl != ""
      && (p.alarm.urlImage != "" ==> it.imageUrl == p.alarm.urlImage)
      && (p.alarm.urlImage == "" && p.resultImageUrl != "" ==> it.imageUrl == p.resultImageUrl)
      && (p.alarm.urlImage == "" && p.resultImageUrl == "" ==> it.imageUrl == MockZoneImage)
      && it.icon == AlertIcon
  {
    var p := PlacedAlarms(data)[k];
    assert Flattened(data)[k] == NewItem(p, k + 1);
    assert NewItem(p, k + 1).number == PadStart(NatToString(k + 1), 2, '0');
    PaddedCounterValue(k + 1);
  }

  /** The alarms without their analyses are the placed alarms' alarms. */
  lemma {:induction false} AllAlarmsPlaced(data: seq<Analysis>)
    ensures |AllAlarms(data)| == |PlacedAlarms(data)|
    ensures forall k :: 0 <= k < |AllAlarms(data)| ==> AllAlarms(data)[k] == PlacedAlarms(data)[k].alarm
  {
    if data != [] {
      AllAlarmsPlaced(data[..|data| - 1]);
    }
  }

  // ---------------------------------------------------------------------------
  // Enrichment from the alarm-type catalogue

  /** `alarmTypes.find((type) => type.id === id)`. */
  function FindType(types: seq<AlarmType>, id: string): (r: Option<AlarmType>)
    ensures r.Some? <==> exists i :: 0 <= i < |types| && types[i].id == id
    ensures r.Some? ==> exists i :: 0 <= i < |types| && types[i] == r.value && r.value.id == id
                          && forall m :: 0 <= m < i ==> types[m].id != id
  {
    if types == [] then None
    else if types[0].id == id then Some(types[0])
    else
      var r := FindType(types[1..], id);
      assert forall i :: 0 <= i < |types[1..]| ==> types[1..][i] == types[i + 1];
      r
  }

  /** `items.findIndex((alert) => alert.id === id)`, with `None` for -1. */
  function FirstIndexOf(items: seq<AlertItem>, id: string): (r: Option<nat>)
    ensures r.Some? ==> r.value < |items| && items[r.value].id == id
                        && forall m :: 0 <= m < r.value ==> items[m].id != id
    ensures r.None? ==> forall m :: 0 <= m < |items| ==> items[m].id != id
  {
    if items == [] then None
    else if items[0].id == id then Some(0)
    else match FirstIndexOf(items[1..], id)
      case None => None
      case Some(j) => Some(j + 1)
  }

  /** The three fields the catalogue fills in. */
  function Describe(it: AlertItem, t: AlarmType): AlertItem {
    it.(typeName := t.name, description := t.description, detailedDescription := t.description)
  }

  /** The catalogue step for one alarm: when its type is in the catalogue and an item with
      its id exists, the first such item takes the type's name and description. */
  function EnrichOne(items: seq<AlertItem>, alarm: Alarm, types: seq<AlarmType>): seq<AlertItem> {
    match FindType(types, alarm.alarmTypeId)
    case None => items
    case Some(t) =>
      match FirstIndexOf(items, alarm.id)
      case None => items
      case Some(k) => items[k := Describe(items[k], t)]
  }

  /** The catalogue step applied for every alarm, first to last. */
  function EnrichAll(items: seq<AlertItem>, alarms: seq<Alarm>, types: seq<AlarmType>): seq<AlertItem> {
    if alarms == [] then items
    else EnrichOne(EnrichAll(items, alarms[..|alarms| - 1], types), alarms[|alarms| - 1], types)
  }

  /** The second loop of `fetchAnalysisImages`: only when the catalogue is loaded, walk
      the response again and, for every alarm whose type is in the catalogue, rewrite the
      first item with that alarm's id in place. */
  method EnrichWithTypes(items: seq<AlertItem>, data: seq<Analysis>, types: seq<AlarmType>)
    returns (out: seq<AlertItem>)
    ensures out == EnrichAll(items, AllAlarms(data), types)
  {
    out := items;
    if |types| > 0 {
      var i := 0;
      while i < |data|
        invariant 0 <= i <= |data|
        invariant out == EnrichAll(items, AllAlarms(data[..i]), types)
      {
        var analysis := data[i];
        assert data[..i + 1][..i] == data[..i];
        EnrichAllAppend(items, AllAlarms(data[..i]), AlarmsOf(analysis), types);
        if analysis.alarmGroup.Some? && analysis.alarmGroup.value.alarms.Some? {
          out := EnrichAlarms(out, analysis.alarmGroup.value.alarms.value, types);
        }
        i := i + 1;
      }
      assert data[..i] == data;
    } else {
      EnrichWithoutCatalogue(items, AllAlarms(data));
    }
  }

  /** The body of the second loop for the alarms of one analysis. */
  method EnrichAlarms(items: seq<AlertItem>, alarms: seq<Alarm>, types: seq<AlarmType>)
    returns (out: seq<AlertItem>)
    ensures out == EnrichAll(items, alarms, types)
  {
    out := items;
    var j := 0;
    while j < |alarms|
      invariant 0 <= j <= |alarms|
      invariant out == EnrichAll(items, alarms[..j], types)
    {
      var alarm := alarms[j];
      assert alarms[..j + 1][..j] == alarms[..j];
      var found := FindType(types, alarm.alarmTypeId);
      if found.Some? {
        var index := FirstIndexOf(out, alarm.id);
        if index.Some? {
          out := out[index.value := Describe(out[index.value], found.value)];
        }
      }
      j := j + 1;
    }
    assert alarms[..j] == alarms;
  }

  /** Enriching with a list of alarms and then with another is enriching with both. */
  lemma {:induction false} EnrichAllAppend(items: seq<AlertItem>, a: seq<Alarm>, b: seq<Alarm>, types: seq<AlarmType>)
    ensures EnrichAll(items, a + b, types) == EnrichAll(EnrichAll(items, a, types), b, types)
    decreases |b|
  {
    if b == [] {
      assert a + b == a;
    } else {
      assert (a + b)[..|a + b| - 1] == a + b[..|b| - 1];
      EnrichAllAppend(items, a, b[..|b| - 1], types);
    }
  }

  /** With an empty catalogue nothing matches, so skipping the second loop changes nothing. */
  lemma {:induction false} EnrichWithoutCatalogue(items: seq<AlertItem>, alarms: seq<Alarm>)
    ensures EnrichAll(items, alarms, []) == items
  {
    if alarms != [] {
      EnrichWithoutCatalogue(items, alarms[..|alarms| - 1]);
    }
  }

  /** Two items agree on everything the catalogue does not touch. */
  predicate SameApartFromDescription(a: AlertItem, b: AlertItem) {
    a.(typeName := b.typeName, description := b.description, detailedDescription := b.detailedDescription) == b
  }

  /** Enrichment keeps the list's length and every item's id, level, number, date,
      coordinates, image and icon: only the three description fields can change. */
  lemma {:induction false} EnrichKeepsShape(items: seq<AlertItem>, alarms: seq<Alarm>, types: seq<AlarmType>)
    ensures |EnrichAll(items, alarms, types)| == |items|
    ensures forall k :: 0 <= k < |items| ==> SameApartFromDescription(items[k], EnrichAll(items, alarms, types)[k])
  {
    if alarms != [] {
      EnrichKeepsShape(items, alarms[..|alarms| - 1], types);
    }
  }

  /** Only the first item with a given id is ever rewritten: a later item that repeats an
      earlier id keeps its placeholders. */
  lemma {:induction false} EnrichOnlyFirstOfId(items: seq<AlertItem>, alarms: seq<Alarm>, types: seq<AlarmType>, k: nat)
    requires k < |items|
    requires exists j :: 0 <= j < k && items[j].id == items[k].id
    ensures k < |EnrichAll(items, alarms, types)| && EnrichAll(items, alarms, types)[k] == items[k]
  {
    EnrichKeepsShape(items, alarms, types);
    if alarms != [] {
      var before := EnrichAll(items, alarms[..|alarms| - 1], types);
      EnrichOnlyFirstOfId(items, alarms[..|alarms| - 1], types, k);
      EnrichKeepsShape(items, alarms[..|alarms| - 1], types);
      var j :| 0 <= j < k && items[j].id == items[k].id;
      assert before[j].id == items[j].id by {
        assert SameApartFromDescription(items[j], before[j]);
      }
      assert before[k].id == items[k].id;
    }
  }

  /** The ids of the items are pairwise distinct. */
  predicate DistinctIds(items: seq<AlertItem>) {
    forall i, j :: 0 <= i < j < |items| ==> items[i].id != items[j].id
  }

  /** When the items carry the alarms' ids one for one and no id repeats, every item ends
      up described by its own alarm's catalogue entry, or keeps its placeholders when that
      alarm's type is not in the catalogue. */
  lemma {:induction false} EnrichByOwnAlarm(items: seq<AlertItem>, alarms: seq<Alarm>, types: seq<AlarmType>, n: nat)
    requires |items| == |alarms| && DistinctIds(items)
    requires forall k :: 0 <= k < |items| ==> items[k].id == alarms[k].id
    requires n <= |alarms|
    ensures |EnrichAll(items, alarms[..n], types)| == |items|
    ensures forall k :: 0 <= k < |items| ==>
              EnrichAll(items, alarms[..n], types)[k] ==
                (if k < n && FindType(types, alarms[k].alarmTypeId).Some?
                 then Describe(items[k], FindType(types, alarms[k].alarmTypeId).value)
                 else items[k])
  {
    EnrichKeepsShape(items, alarms[..n], types);
    if n > 0 {
      var prefix := alarms[..n - 1];
      assert alarms[..n][..n - 1] == prefix;
      EnrichByOwnAlarm(items, alarms, types, n - 1);
      var before := EnrichAll(items, prefix, types);
      EnrichKeepsShape(items, prefix, types);
      var a := alarms[n - 1];
      assert EnrichAll(items, alarms[..n], types) == EnrichOne(before, a, types);
      assert before[n - 1].id == a.id by {
        assert SameApartFromDescription(items[n - 1], before[n - 1]);
      }
      forall m | 0 <= m < n - 1 ensures before[m].id != a.id {
        assert SameApartFromDescription(items[m], before[m]);
      }
      FirstIndexAt(before, a.id, n - 1);
      var after := EnrichAll(items, alarms[..n], types);
      assert after == if FindType(types, a.alarmTypeId).Some?
                      then before[n - 1 := Describe(before[n - 1], FindType(types, a.alarmTypeId).value)]
                      else before;
    }
  }

  /** `findIndex` finds position `i` when the id is there and at no earlier position. */
  lemma FirstIndexAt(items: seq<AlertItem>, id: string, i: nat)
    requires i < |items| && items[i].id == id
    requires forall m :: 0 <= m < i ==> items[m].id != id
    ensures FirstIndexOf(items, id) == Some(i)
  {
  }

  /** What `fetchAnalysisImages` stores from a response: the flat list, then the
      catalogue pass. */
  function Transformed(data: seq<Analysis>, types: seq<AlarmType>): seq<AlertItem> {
    EnrichAll(Flattened(data), AllAlarms(data), types)
  }

  /** The two loops of `fetchAnalysisImages` run one after the other on a response. */
  method TransformAnalyses(data: seq<Analysis>, types: seq<AlarmType>) returns (items: seq<AlertItem>)
    ensures items == Transformed(data, types)
  {
    items := FlattenAnalyses(data);
    items := EnrichWithTypes(items, data, types);
  }

  /** For a response whose alarm ids are all different: item `k` is alarm `k` of the
      response, its type and descriptions come from the catalogue entry of that alarm's
      type when there is one, and it keeps the placeholders otherwise. */
  lemma TransformedItem(data: seq<Analysis>, types: seq<AlarmType>, k: nat)
    requires forall i, j :: 0 <= i < j < |AllAlarms(data)| ==> AllAlarms(data)[i].id != AllAlarms(data)[j].id
    requires k < |AllAlarms(data)|
    ensures |Transformed(data, types)| == |AllAlarms(data)|
    ensures var a, it := AllAlarms(data)[k], Transformed(data, types)[k];
      && it.id == a.id && it.title == a.level && DecimalValue(it.number) == k + 1
      && (FindType(types, a.alarmTypeId).Some? ==>
            it.typeName == FindType(types, a.alarmTypeId).value.name
            && it.description == FindType(types, a.alarmTypeId).value.description
            && it.detailedDescription == FindType(types, a.alarmTypeId).value.description)
      && (FindType(types, a.alarmTypeId).None? ==> it.typeName == UnknownType)
  {
    var items, alarms := Flattened(data), AllAlarms(data);
    AllAlarmsPlaced(data);
    FlattenedLength(data);
    assert forall m :: 0 <= m < |items| ==> items[m].id == alarms[m].id;
    assert alarms[..|alarms|] == alarms;
    EnrichByOwnAlarm(items, alarms, types, |alarms|);
    FlattenedItem(data, k);
  }
}
