/** The filter panel that the mosaic view (src/sections/dashboard/Alerts/MosaicView.tsx)
    and the table view (src/sections/dashboard/Alerts/TableView.tsx) both carry, written
    twice in the source with the same logic. It turns the store's alert items into card
    props, normalises the form values, builds the request filters, and decides which
    calls to make on the alerts store. The two views differ only in their page size and
    in their image fallback. Dates are kept as the ISO strings the request carries. */
module AlertFilters {
  import opened Js
  import opened AlertsData
  import ViewState

  const MosaicPerPage: int := 20
  const TablePerPage: int := 15
  const MosaicImageFallback: string := MockZoneImage
  const TableImageFallback: string := "/assets/images/covers/cover_1.jpg"

  // ---------------------------------------------------------------------------
  // Card props

  /** `alert.title === 'ALERT' ? 'ALERTA' : 'ADVERTENCIA'`. */
  function TitleFor(level: string): (t: string)
    ensures t == "ALERTA" || t == "ADVERTENCIA"
    ensures t == "ALERTA" <==> level == "ALERT"
  {
    if level == "ALERT" then "ALERTA" else "ADVERTENCIA"
  }

  /** `transformAlertItemToProps`: the level becomes a Spanish title, a missing image
      becomes the view's fallback and a missing icon `mdi:alert`; every other field is
      copied. */
  function ToProps(item: AlertItem, imageFallback: string): (p: ViewState.AlertProps)
    ensures p.title == TitleFor(item.title)
    ensures p.imageUrl == (if item.imageUrl != "" then item.imageUrl else imageFallback)
    ensures p.icon == (if item.icon != "" then item.icon else AlertIcon)
    ensures p.id == item.id && p.number == item.number && p.typeName == item.typeName
    ensures p.description == item.description && p.detailedDescription == item.detailedDescription
    ensures p.date == item.date && p.latitude == item.latitude && p.longitude == item.longitude
  {
    ViewState.AlertProps(
      item.id, TitleFor(item.title), item.number, item.typeName, item.description,
      item.detailedDescription, item.date, item.latitude, item.longitude,
      if item.imageUrl != "" then item.imageUrl else imageFallback,
      if item.icon != "" then item.icon else AlertIcon)
  }

  /** `alerts.map(transformAlertItemToProps)`. */
  function AllToProps(items: seq<AlertItem>, imageFallback: string): (ps: seq<ViewState.AlertProps>)
    ensures |ps| == |items|
    ensures forall k :: 0 <= k < |items| ==> ps[k] == ToProps(items[k], imageFallback)
  {
    seq(|items|, k requires 0 <= k < |items| => ToProps(items[k], imageFallback))
  }

  /** On the items the store produces, the fallbacks never fire: every item already has
      an image and the `mdi:alert` icon, so the cards show the store's image whatever the
      view, and the ids and order of the store's list. */
  lemma StoreItemsKeepImage(data: seq<Analysis>, types: seq<AlarmType>, imageFallback: string, k: nat)
    requires k < |Transformed(data, types)|
    ensures var it, p := Transformed(data, types)[k], AllToProps(Transformed(data, types), imageFallback)[k];
      && p.imageUrl == it.imageUrl && it.imageUrl != ""
      && p.icon == AlertIcon && p.id == it.id
  {
    var flat := Flattened(data);
    EnrichKeepsShape(flat, AllAlarms(data), types);
    FlattenedItem(data, k);
    assert SameApartFromDescription(flat[k], Transformed(data, types)[k]);
  }

  // ---------------------------------------------------------------------------
  // Form values

  /** A `category` or `causa` value as the form holds it: an array, a string, or
      anything else. */
  datatype FormField = ListField(entries: seq<string>) | TextField(text: string) | OtherField

  /** The raw form values; an empty date is a missing one. */
  datatype FormValues = FormValues(dateStart: string, dateEnd: string, category: FormField, causa: FormField)

  /** The normalised filter values. */
  datatype FilterValues = FilterValues(dateStart: string, dateEnd: string, category: seq<string>, causa: seq<string>)

  const DefaultValues: FilterValues := FilterValues("", "", [], [])

  predicate IsTruthy(s: string) {
    s != ""
  }

  /** The normalisation of one list field: an array keeps its truthy entries in order,
      a non-empty string becomes a one-entry list, anything else becomes empty. */
  function ProcessField(v: FormField): seq<string> {
    match v
    case ListField(xs) => Filter(xs, IsTruthy)
    case TextField(s) => if s != "" then [s] else []
    case OtherField => []
  }

  /** A normalised field holds no empty entry and holds every non-empty entry of the
      array, in order; normalising a normalised list changes nothing. */
  lemma ProcessFieldSpec(v: FormField)
    ensures forall x :: x in ProcessField(v) ==> x != ""
    ensures v.ListField? ==> forall x :: x in v.entries && x != "" ==> x in ProcessField(v)
    ensures v.ListField? ==> forall a, b :: ProcessField(ListField(a + b)) == ProcessField(ListField(a)) + ProcessField(ListField(b))
    ensures ProcessField(ListField(ProcessField(v))) == ProcessField(v)
  {
    if v.ListField? {
      forall x | x in v.entries && x != ""
        ensures x in ProcessField(v)
      {
        FilterKeeps(v.entries, IsTruthy, x);
      }
      forall a, b
        ensures ProcessField(ListField(a + b)) == ProcessField(ListField(a)) + ProcessField(ListField(b))
      {
        FilterAppend(a, b, IsTruthy);
      }
      FilterIdempotent(v.entries, IsTruthy);
    }
  }

  /** `processFormValues`: the dates pass through, and each list field is normalised to
      its non-empty entries in order, so processing the result again changes nothing. */
  function ProcessFormValues(fv: FormValues): (r: FilterValues)
    ensures r.dateStart == fv.dateStart && r.dateEnd == fv.dateEnd
    ensures forall x :: x in r.category ==> x != ""
    ensures forall x :: x in r.causa ==> x != ""
    ensures fv.category.ListField? ==> forall x :: x in fv.category.entries && x != "" ==> x in r.category
    ensures fv.causa.ListField? ==> forall x :: x in fv.causa.entries && x != "" ==> x in r.causa
    ensures fv.category.TextField? ==> r.category == (if fv.category.text != "" then [fv.category.text] else [])
    ensures fv.causa.TextField? ==> r.causa == (if fv.causa.text != "" then [fv.causa.text] else [])
    ensures fv.category.OtherField? ==> r.category == []
    ensures fv.causa.OtherField? ==> r.causa == []
    ensures ProcessField(ListField(r.category)) == r.category && ProcessField(ListField(r.causa)) == r.causa
  {
    ProcessFieldSpec(fv.category);
    ProcessFieldSpec(fv.causa);
    FilterValues(fv.dateStart, fv.dateEnd, ProcessField(fv.category), ProcessField(fv.causa))
  }

  // ---------------------------------------------------------------------------
  // Request filters

  /** The level for the first selected category, through the two-entry mapping. */
  function CategoryLevel(category: seq<string>): (level: Option<string>)
    ensures level == Some("ALERT") <==> |category| > 0 && category[0] == "ALERTA"
    ensures level == Some("WARNING") <==> |category| > 0 && category[0] == "ADVERTENCIA"
    ensures level.None? <==> |category| == 0 || (category[0] != "ALERTA" && category[0] != "ADVERTENCIA")
  {
    if |category| == 0 then None
    else if category[0] == "ALERTA" then Some("ALERT")
    else if category[0] == "ADVERTENCIA" then Some("WARNING")
    else None
  }

  /** The position of the first catalogue entry whose name is one of the selected
      causes, or the catalogue's length when there is none. */
  function FirstCauseMatch(types: seq<AlarmType>, causa: seq<string>): (i: nat)
    ensures i <= |types|
    ensures i < |types| ==> types[i].name in causa
    ensures forall j :: 0 <= j < i ==> types[j].name !in causa
  {
    if |types| == 0 then 0
    else if types[0].name in causa then 0
    else 1 + FirstCauseMatch(types[1..], causa)
  }

  /** `alarmTypes.find((type) => causa.some((c) => type.name === c))`. */
  function CauseType(types: seq<AlarmType>, causa: seq<string>): (t: Option<AlarmType>)
    ensures t.Some? ==> t.value in types && t.value.name in causa
    ensures t.Some? ==> exists i :: 0 <= i < |types| && types[i] == t.value
                          && forall j :: 0 <= j < i ==> types[j].name !in causa
    ensures t.None? <==> forall x :: x in types ==> x.name !in causa
  {
    var i := FirstCauseMatch(types, causa);
    if i < |types| then Some(types[i]) else None
  }

  /** The request filters of `applyFilters`: the selected polygon, the page and the
      view's page size always; the dates when set; the level only for a mapped first
      category; the type id of the first catalogue entry matching a cause. A field not
      set is `""`. */
  function ApiFilters(polygonId: string, fv: FilterValues, page: int, perPage: int, types: seq<AlarmType>): (f: AnalysisFilters)
    ensures f.polygonId == polygonId && f.page == page && f.perPage == perPage
    ensures f.createdStartDate == fv.dateStart && f.createdEndDate == fv.dateEnd
    ensures f.level == (if CategoryLevel(fv.category).Some? then CategoryLevel(fv.category).value else "")
    ensures f.level in {"", "ALERT", "WARNING"}
    ensures f.alarmTypeId == (if CauseType(types, fv.causa).Some? then CauseType(types, fv.causa).value.id else "")
  {
    AnalysisFilters(
      polygonId, fv.dateStart, fv.dateEnd,
      if CauseType(types, fv.causa).Some? then CauseType(types, fv.causa).value.id else "",
      if CategoryLevel(fv.category).Some? then CategoryLevel(fv.category).value else "",
      page, perPage)
  }

  /** The reset request: with the default form values only the polygon, the first page
      and the page size remain, so the query asks for every alert of the polygon. */
  lemma ResetFiltersArePlain(polygonId: string, perPage: int, types: seq<AlarmType>)
    ensures ApiFilters(polygonId, DefaultValues, 1, perPage, types) == AnalysisFilters(polygonId, "", "", "", "", 1, perPage)
    ensures QueryParams(ApiFilters(polygonId, DefaultValues, 1, perPage, types)) ==
      [(PolygonId, polygonId), (Page, IntToString(1))] + (if perPage != 0 then [(PerPage, IntToString(perPage))] else [])
  {
    var f := ApiFilters(polygonId, DefaultValues, 1, perPage, types);
    assert QueryPrefix(f, 2) == QueryPrefix(f, 1) == [(PolygonId, polygonId)];
    assert QueryPrefix(f, 5) == QueryPrefix(f, 4) == QueryPrefix(f, 3) == QueryPrefix(f, 2);
    assert KeyAt(5) == Page && KeyAt(6) == PerPage;
    assert QueryPrefix(f, 6) == [(PolygonId, polygonId), (Page, IntToString(1))];
  }

  /** `apiFilters` filled field by field, as `applyFilters` does. */
  method BuildApiFilters(polygonId: string, fv: FilterValues, page: int, perPage: int, types: seq<AlarmType>)
    returns (f: AnalysisFilters)
    ensures f == ApiFilters(polygonId, fv, page, perPage, types)
  {
    f := AnalysisFilters(polygonId, "", "", "", "", page, perPage);
    if fv.dateStart != "" {
      f := f.(createdStartDate := fv.dateStart);
    }
    if fv.dateEnd != "" {
      f := f.(createdEndDate := fv.dateEnd);
    }
    if |fv.category| > 0 {
      var level := CategoryLevel(fv.category);
      if level.Some? {
        f := f.(level := level.value);
      }
    }
    if |fv.causa| > 0 {
      var t := CauseType(types, fv.causa);
      if t.Some? {
        f := f.(alarmTypeId := t.value.id);
      }
    }
  }

  // ---------------------------------------------------------------------------
  // The panel

  /** A call the panel makes on the alerts store, in the order it makes them. A
      debounced fetch passes no delay, so the store's default applies. */
  datatype StoreCall =
    | CancelPendingRequests
    | ClearAlerts
    | DebouncedFetch(filters: AnalysisFilters)
    | Fetch(filters: AnalysisFilters)
    | SetPage(page: int, filters: AnalysisFilters)

  /** The panel's own state: the filters of the last request it issued. */
  class FilterPanel {
    const perPage: int
    var currentFilters: Option<AnalysisFilters>

    /** A panel with the page size of its view and no request yet. */
    constructor(perPage: int)
      ensures this.perPage == perPage && currentFilters == None
    {
      this.perPage := perPage;
      currentFilters := None;
    }

    /** `applyFilters`: without a selected polygon nothing happens; otherwise the
        request filters are remembered and fetched, debounced for form changes and
        directly otherwise. */
    method ApplyFilters(polygonId: string, fv: FilterValues, page: int, useDebounce: bool, types: seq<AlarmType>)
      returns (calls: seq<StoreCall>)
      modifies this`currentFilters
      ensures polygonId == "" ==> calls == [] && currentFilters == old(currentFilters)
      ensures polygonId != "" ==>
        var f := ApiFilters(polygonId, fv, page, perPage, types);
        && currentFilters == Some(f)
        && calls == [if useDebounce then DebouncedFetch(f) else Fetch(f)]
    {
      if polygonId == "" {
        return [];
      }
      var f := BuildApiFilters(polygonId, fv, page, perPage, types);
      currentFilters := Some(f);
      if useDebounce {
        calls := [DebouncedFetch(f)];
      } else {
        calls := [Fetch(f)];
      }
    }

    /** `handlePageChange`: the remembered filters are fetched again for the new page;
        with none remembered nothing happens. */
    method HandlePageChange(page: int) returns (calls: seq<StoreCall>)
      ensures currentFilters.None? ==> calls == []
      ensures currentFilters.Some? ==> calls == [SetPage(page, currentFilters.value)]
    {
      if currentFilters.Some? {
        calls := [SetPage(page, currentFilters.value)];
      } else {
        calls := [];
      }
    }

    /** `handleResetFilters`: cancel what is pending and clear the alerts, forget the
        filters, then, when a polygon is selected, fetch its first page directly with
        the default values. */
    method HandleResetFilters(polygonId: string, types: seq<AlarmType>) returns (calls: seq<StoreCall>)
      modifies this`currentFilters
      ensures |calls| >= 2 && calls[0] == CancelPendingRequests && calls[1] == ClearAlerts
      ensures polygonId == "" ==> calls == [CancelPendingRequests, ClearAlerts] && currentFilters == None
      ensures polygonId != "" ==>
        var f := AnalysisFilters(polygonId, "", "", "", "", 1, perPage);
        calls == [CancelPendingRequests, ClearAlerts, Fetch(f)] && currentFilters == Some(f)
    {
      calls := [CancelPendingRequests, ClearAlerts];
      currentFilters := None;
      if polygonId != "" {
        var more := ApplyFilters(polygonId, DefaultValues, 1, false, types);
        ResetFiltersArePlain(polygonId, perPage, types);
        calls := calls + more;
      }
    }
  }
}
