/** The alerts store (src/store/alertsStore.ts): the alarm-type catalogue, the current page
    of alerts with its pagination, the loading and error flags, the chart of one polygon,
    and the request machinery around them: one abort controller, one debounce timer slot,
    and the id of the latest analysis request, the only one whose answer is kept.

    Awaiting a request is split into two events: the action's synchronous part runs up to
    the request (`FetchAnalysisImages`, `BeginFetchAlarmTypes`, `BeginFetchAlarmChart`) and
    its continuation runs when the request settles, with the settled value as an input
    (`CompleteFetchAnalysisImages`, ...). Any interleaving of these events is a possible
    run. Request ids and timer handles are drawn from one counter. */
module AlertsStore {
  import opened Js
  import opened Http
  import opened AlertsData
  import Debounce

  datatype ChartMode = Weekly | Monthly | Yearly

  function ModeName(m: ChartMode): string {
    match m
    case Weekly => "WEEKLY"
    case Monthly => "MONTHLY"
    case Yearly => "YEARLY"
  }

  datatype ChartData = ChartData(name: string, data: seq<int>)
  datatype ChartSeries = ChartSeries(name: ChartMode, categories: seq<string>, data: seq<ChartData>)
  datatype AlarmChartResponse = AlarmChartResponse(title: string, series: seq<ChartSeries>)

  /** A debounced call waiting for its timer: the filters it will fetch with and its delay. */
  datatype PendingCall = PendingCall(filters: AnalysisFilters, delay: nat)

  /** The delay of a debounced call that passes none, as the views' calls do. */
  const DefaultDelay: nat := 300
  const ChartEndpoint: string := "/alerts/chart/:polygonId/:mode"
  const AlarmTypesFallback: string := "Error al obtener tipos de alarma"
  const AnalysisFallback: string := "Error al obtener análisis de imágenes"
  const ChartFallback: string := "Error al obtener gráfico de alarmas"

  /** `endpoints.alerts.chart.replace(':polygonId', polygonId).replace(':mode', mode)`. */
  function ChartUrl(polygonId: string, mode: ChartMode): string {
    ReplaceFirst(ReplaceFirst(ChartEndpoint, ":polygonId", polygonId), ":mode", ModeName(mode))
  }

  /** `s` has no colon, so no placeholder can start inside it. */
  predicate NoColon(s: string) {
    forall i :: 0 <= i < |s| ==> s[i] != ':'
  }

  lemma NoColonAppend(a: string, b: string)
    requires NoColon(a) && NoColon(b)
    ensures NoColon(a + b)
  {
  }

  /** The text the first `replace` puts where `:polygonId` stood: the polygon id read
      as a replacement template, with the endpoint's head before the match and `/:mode`
      after it. An id without a dollar sign is its own text. */
  function ChartIdText(polygonId: string): string {
    Substitute(polygonId, ":polygonId", "/alerts/chart/", "/:mode")
  }

  /** Filling a template `prefix:polygonId/:mode` whose prefix has no colon, when the
      text substituted for the id has no colon either, puts both values where their
      placeholders stand. */
  lemma FillChartTemplate(prefix: string, polygonId: string, mode: string)
    requires NoColon(prefix) && NoColon(Substitute(polygonId, ":polygonId", prefix, "/:mode")) && NoDollar(mode)
    ensures ReplaceFirst(ReplaceFirst(prefix + ":polygonId/:mode", ":polygonId", polygonId), ":mode", mode)
            == prefix + Substitute(polygonId, ":polygonId", prefix, "/:mode") + "/" + mode
  {
    var text := Substitute(polygonId, ":polygonId", prefix, "/:mode");
    var idPat, modePat := ":polygonId", ":mode";
    assert idPat[0] == ':' && modePat[0] == ':';
    assert prefix + ":polygonId/:mode" == prefix + idPat + "/:mode";
    ReplaceFirstAfter(prefix, idPat, polygonId, "/:mode");
    var first := prefix + text + "/:mode";
    assert ReplaceFirst(prefix + ":polygonId/:mode", idPat, polygonId) == first;
    var p := prefix + text + "/";
    NoColonAppend(prefix, text);
    NoColonAppend(prefix + text, "/");
    assert first == p + modePat + "";
    ReplaceFirstAfter(p, modePat, mode, "");
    assert p + mode + "" == prefix + text + "/" + mode;
  }

  lemma ChartHeadNoColon()
    ensures NoColon("/alerts/chart/")
  {
    var head := "/alerts/chart/";
    forall i | 0 <= i < |head|
      ensures head[i] != ':'
    {
    }
  }

  lemma ModeNameNoDollar(mode: ChartMode)
    ensures NoDollar(ModeName(mode))
  {
    var name := ModeName(mode);
    forall i | 0 <= i < |name|
      ensures name[i] != '$'
    {
    }
  }

  /** When the text substituted for the polygon id has no colon, both placeholders are
      filled in where they stand; an id without a colon or a dollar sign lands as it is. */
  lemma ChartUrlShape(polygonId: string, mode: ChartMode)
    requires NoColon(ChartIdText(polygonId))
    ensures ChartUrl(polygonId, mode) == "/alerts/chart/" + ChartIdText(polygonId) + "/" + ModeName(mode)
    ensures NoDollar(polygonId) ==> ChartUrl(polygonId, mode) == "/alerts/chart/" + polygonId + "/" + ModeName(mode)
  {
    assert ChartEndpoint == "/alerts/chart/" + ":polygonId/:mode";
    ChartHeadNoColon();
    ModeNameNoDollar(mode);
    FillChartTemplate("/alerts/chart/", polygonId, ModeName(mode));
    if NoDollar(polygonId) {
      SubstituteLiteral(polygonId, ":polygonId", "/alerts/chart/", "/:mode");
    }
  }

  class Store {
    // The store's state.
    var alarmTypes: seq<AlarmType>
    var alerts: seq<AlertItem>
    var isLoading: bool
    var error: Option<string>
    var pagination: Option<PaginationMeta>
    var lastRequestId: Option<nat>
    var chartData: Option<AlarmChartResponse>
    var isLoadingChart: bool

    // The module-level variables beside the store: the request the current abort
    // controller belongs to, and the timer handle kept in `debounceTimeout`.
    var controller: Option<nat>
    var debounceSlot: Option<nat>

    // What the runtime holds: scheduled timers with the call each will make, analysis
    // requests not yet settled, and for those launched by a timer callback, that timer.
    var armed: map<nat, PendingCall>
    var inFlight: set<nat>
    var launchedBy: map<nat, nat>
    var nextId: nat

    // The requests whose abort controller has been aborted. The HTTP client honours the
    // signal: such a request can only settle as a cancellation.
    ghost var aborted: set<nat>

    /** The debounce slot and the scheduled timers, as the debounce machine sees them. */
    ghost function Timers(): Debounce.Timers
      reads this`debounceSlot, this`armed
    {
      Debounce.Timers(debounceSlot, armed.Keys)
    }

    /** Every id in use was drawn from the counter, and every awaiting timer callback
        waits on a request still in flight. */
    ghost predicate IdsDrawn()
      reads this`armed, this`inFlight, this`launchedBy, this`lastRequestId, this`debounceSlot, this`nextId
      reads this`aborted
    {
      && (forall t :: t in armed ==> t < nextId)
      && (forall r :: r in inFlight ==> r < nextId)
      && (forall a :: a in aborted ==> a < nextId)
      && launchedBy.Keys <= inFlight
      && (forall r :: r in launchedBy ==> launchedBy[r] < nextId)
      && (lastRequestId.Some? ==> lastRequestId.value < nextId)
      && (debounceSlot.Some? ==> debounceSlot.value < nextId)
    }

    /** Request `r` can still change the store when it settles: it is in flight, it is
        the latest request, and its controller has not been aborted. */
    ghost predicate CanWrite(r: nat)
      reads this`inFlight, this`lastRequestId, this`aborted
    {
      r in inFlight && lastRequestId == Some(r) && r !in aborted
    }

    /** The abort controller belongs to the latest request, and a request that can still
        write holds the controller, so that cancelling reaches it. */
    ghost predicate AbortTracked()
      reads this`controller, this`inFlight, this`lastRequestId, this`aborted
    {
      && (controller.Some? ==> lastRequestId == controller)
      && (forall r: nat :: CanWrite(r) ==> controller == Some(r))
    }

    /** The store invariant: ids are drawn from the counter, every scheduled timer is the
        one in the slot, so that cancelling can reach every pending debounced call, the
        controller tracks the request that can write, and no timer whose callback is
        awaiting a request is still scheduled. */
    ghost predicate Valid()
      reads this`armed, this`inFlight, this`launchedBy, this`lastRequestId, this`debounceSlot, this`nextId
      reads this`aborted, this`controller
    {
      && IdsDrawn() && Debounce.Consistent(Timers()) && AbortTracked()
      && (forall r :: r in launchedBy ==> launchedBy[r] !in armed)
    }

    /** The initial state: nothing loaded, nothing pending. */
    constructor()
      ensures Valid()
      ensures alarmTypes == [] && alerts == [] && !isLoading && error == None && pagination == None
      ensures lastRequestId == None && chartData == None && !isLoadingChart
      ensures controller == None && debounceSlot == None && armed == map[] && inFlight == {} && launchedBy == map[]
    {
      alarmTypes, alerts, isLoading, error, pagination := [], [], false, None, None;
      lastRequestId, chartData, isLoadingChart := None, None, false;
      controller, debounceSlot := None, None;
      armed, inFlight, launchedBy, nextId := map[], {}, map[], 0;
      aborted := {};
    }

    /** `setError`. */
    method SetError(e: Option<string>)
      modifies this`error
      ensures error == e
    {
      error := e;
    }

    /** `cancelPendingRequests`: abort the current request's controller, clear the timer in
        the slot, and stop the loading indicator. Afterwards no request in flight can
        change the store, and under the invariant no timer is left. */
    method CancelPendingRequests()
      requires IdsDrawn() && AbortTracked()
      modifies this`controller, this`debounceSlot, this`armed, this`isLoading, this`aborted
      ensures IdsDrawn() && AbortTracked()
      ensures controller == None && !isLoading
      ensures aborted == old(aborted) + (if old(controller).Some? then {old(controller).value} else {})
      ensures forall r: nat :: !CanWrite(r)
      ensures Timers() == Debounce.Clear(old(Timers()))
      ensures armed == old(armed) - Debounce.SlotSet(old(debounceSlot))
      ensures old(Valid()) ==> Valid() && armed == map[]
    {
      if controller.Some? {
        aborted := aborted + {controller.value};
        controller := None;
      }
      if debounceSlot.Some? {
        armed := armed - {debounceSlot.value};
        debounceSlot := None;
      }
      isLoading := false;
      if old(Valid()) {
        Debounce.ClearConsistent(old(Timers()));
        assert armed.Keys == {};
      }
    }

    /** The synchronous part of `fetchAnalysisImages`: cancel what is pending, draw a new
        request id and make it the latest, raise the loading flag, clear the error, and
        send the query built from `filters` under a fresh abort controller. Every
        request begun earlier is superseded from here on. */
    method FetchAnalysisImages(filters: AnalysisFilters) returns (id: nat, params: seq<Param>)
      requires IdsDrawn() && AbortTracked() && armed.Keys <= Debounce.SlotSet(debounceSlot)
      modifies this`controller, this`debounceSlot, this`armed, this`isLoading, this`error
      modifies this`lastRequestId, this`nextId, this`inFlight, this`aborted
      ensures Valid() && armed == map[]
      ensures id == old(nextId) && nextId == id + 1
      ensures forall r :: r in old(inFlight) ==> r != id
      ensures CanWrite(id) && forall r: nat :: r != id ==> !CanWrite(r)
      ensures lastRequestId == Some(id) && isLoading && error == None && controller == Some(id)
      ensures debounceSlot == None
      ensures inFlight == old(inFlight) + {id}
      ensures params == QueryParams(filters)
    {
      CancelPendingRequests();
      id := nextId;
      nextId := nextId + 1;
      isLoading, error, lastRequestId := true, None, Some(id);
      controller := Some(id);
      params := BuildQueryParams(filters);
      inFlight := inFlight + {id};
    }

    /** `setPage`: fetch with the given filters on page `page`. */
    method SetPage(page: int, filters: AnalysisFilters) returns (id: nat, params: seq<Param>)
      requires Valid()
      modifies this`controller, this`debounceSlot, this`armed, this`isLoading, this`error
      modifies this`lastRequestId, this`nextId, this`inFlight, this`aborted
      ensures Valid() && armed == map[]
      ensures id == old(nextId) && nextId == id + 1
      ensures lastRequestId == Some(id) && isLoading && error == None && controller == Some(id)
      ensures inFlight == old(inFlight) + {id}
      ensures params == QueryParams(filters.(page := page))
    {
      id, params := FetchAnalysisImages(filters.(page := page));
    }

    /** The continuation of `fetchAnalysisImages` when request `id` settles with `outcome`.
        Only the latest request may touch the store: its response replaces the alerts with
        the flattened, catalogue-described list and the pagination, and its failure sets
        the server's message or the fallback; a cancellation and any answer to a
        superseded request change nothing and yield `[]`. An aborted request settles as a
        cancellation, so once aborted it changes nothing. When a timer callback awaited
        this request, that callback's promise resolves with the result (`resolved`). */
    method CompleteFetchAnalysisImages(id: nat, outcome: Outcome<AnalysisPage>)
      returns (result: seq<AlertItem>, resolved: Option<nat>)
      requires Valid() && id in inFlight
      requires id in aborted ==> outcome.Err? && IsCancellation(outcome.error)
      modifies this`inFlight, this`launchedBy, this`alerts, this`pagination, this`isLoading
      modifies this`error, this`controller
      ensures Valid()
      ensures !old(CanWrite(id)) ==>
        && alerts == old(alerts) && pagination == old(pagination) && error == old(error)
        && isLoading == old(isLoading) && result == []
      ensures inFlight == old(inFlight) - {id} && launchedBy == old(launchedBy) - {id}
      ensures resolved == if id in old(launchedBy) then Some(old(launchedBy)[id]) else None
      ensures outcome.Ok? && old(lastRequestId) == Some(id) ==>
        && result == Transformed(outcome.value.data, alarmTypes)
        && alerts == result && pagination == Some(outcome.value.meta)
        && !isLoading && error == old(error) && controller == None
      ensures outcome.Err? && !IsCancellation(outcome.error) && old(lastRequestId) == Some(id) ==>
        && error == Some(ErrorMessage(outcome.error, AnalysisFallback)) && !isLoading
        && alerts == old(alerts) && pagination == old(pagination) && controller == old(controller)
      ensures old(lastRequestId) != Some(id) || (outcome.Err? && IsCancellation(outcome.error)) ==>
        && alerts == old(alerts) && pagination == old(pagination) && error == old(error)
        && isLoading == old(isLoading) && controller == old(controller)
      ensures !(outcome.Ok? && old(lastRequestId) == Some(id)) ==> result == []
    {
      resolved := ReleaseRequest(id);
      result := [];
      match outcome {
        case Ok(page) =>
          if lastRequestId == Some(id) {
            result := ApplyResponse(page);
          }
        case Err(e) =>
          if !IsCancellation(e) && lastRequestId == Some(id) {
            error := Some(ErrorMessage(e, AnalysisFallback));
            isLoading := false;
          }
      }
    }

    /** The success path of the latest request: the response's alarms, flattened and
        described from the catalogue, become the alerts, its meta the pagination, the
        loading flag drops and the abort controller is released. */
    method ApplyResponse(page: AnalysisPage) returns (items: seq<AlertItem>)
      modifies this`alerts, this`pagination, this`isLoading, this`controller
      ensures items == Transformed(page.data, alarmTypes)
      ensures alerts == items && pagination == Some(page.meta) && !isLoading && controller == None
    {
      items := TransformAnalyses(page.data, alarmTypes);
      alerts, pagination, isLoading := items, Some(page.meta), false;
      controller := None;
    }

    /** Request `id` settles and leaves the runtime. A timer callback awaiting it resolves
        its promise with the result. Its last step is taken in the corrected form, which
        empties the debounce slot only while it still names the callback's own timer
        (Debounce.SettleOwn); that timer has fired, so the slot is left to whatever a later
        call put there. The step as written is Debounce.SettleAsWritten. */
    method ReleaseRequest(id: nat) returns (resolved: Option<nat>)
      requires Valid() && id in inFlight
      modifies this`inFlight, this`launchedBy
      ensures Valid()
      ensures inFlight == old(inFlight) - {id} && launchedBy == old(launchedBy) - {id}
      ensures resolved == if id in old(launchedBy) then Some(old(launchedBy)[id]) else None
      ensures Timers() == if id in old(launchedBy) then Debounce.SettleOwn(old(Timers()), old(launchedBy)[id])
                          else old(Timers())
    {
      resolved := None;
      if id in launchedBy {
        var ticket := launchedBy[id];
        resolved := Some(ticket);
        // The fired timer is no longer scheduled, so the slot cannot name it: the
        // corrected step leaves the slot as it is.
        Debounce.SettleThenClear(Timers(), ticket);
      }
      inFlight := inFlight - {id};
      launchedBy := launchedBy - {id};
    }

    /** `debouncedFetchAnalysisImages`: clear the timer in the slot and schedule a new
        one that will fetch with `filters` after `delay` milliseconds, `DefaultDelay` when
        the caller passes none. The returned handle
        names the promise the caller awaits; the promise of a call whose timer is cleared
        never resolves. */
    method DebouncedFetchAnalysisImages(filters: AnalysisFilters, delay: Option<nat>) returns (ticket: nat)
      requires Valid()
      modifies this`debounceSlot, this`armed, this`nextId
      ensures Valid()
      ensures ticket == old(nextId) && nextId == ticket + 1
      ensures Timers() == Debounce.Arm(old(Timers()), ticket)
      ensures debounceSlot == Some(ticket)
      ensures armed == map[ticket := PendingCall(filters, if delay.Some? then delay.value else DefaultDelay)]
    {
      ticket := nextId;
      nextId := nextId + 1;
      if debounceSlot.Some? {
        armed := armed - {debounceSlot.value};
      }
      var wait := if delay.Some? then delay.value else DefaultDelay;
      armed := armed[ticket := PendingCall(filters, wait)];
      debounceSlot := Some(ticket);
      Debounce.ArmConsistent(old(Timers()), ticket);
    }

    /** The runtime fires timer `ticket`: its callback calls `fetchAnalysisImages` with the
        captured filters and awaits the request it starts. */
    method FireTimer(ticket: nat) returns (id: nat, params: seq<Param>)
      requires Valid() && ticket in armed
      modifies this`controller, this`debounceSlot, this`armed, this`isLoading, this`error
      modifies this`lastRequestId, this`nextId, this`inFlight, this`launchedBy, this`aborted
      ensures Valid() && armed == map[] && debounceSlot == None
      ensures Timers() == Debounce.Fire(old(Timers()), ticket)
      ensures id == old(nextId) && lastRequestId == Some(id) && isLoading && error == None
      ensures params == QueryParams(old(armed)[ticket].filters)
      ensures inFlight == old(inFlight) + {id} && launchedBy == old(launchedBy)[id := ticket]
    {
      var call := armed[ticket];
      armed := armed - {ticket};
      id, params := FetchAnalysisImages(call.filters);
      launchedBy := launchedBy[id := ticket];
      Debounce.FireConsistent(old(Timers()), ticket);
    }

    /** `clearAlerts`. */
    method ClearAlerts()
      modifies this`alerts, this`pagination, this`error
      ensures alerts == [] && pagination == None && error == None
    {
      alerts, pagination, error := [], None, None;
    }

    /** `resetAndClear`: cancel everything pending and forget the latest request, so
        that no request begun before it can change the store afterwards. */
    method ResetAndClear()
      requires Valid()
      modifies this`controller, this`debounceSlot, this`armed, this`isLoading
      modifies this`alerts, this`pagination, this`error, this`lastRequestId, this`aborted
      ensures Valid() && forall r: nat :: !CanWrite(r)
      ensures controller == None && debounceSlot == None && armed == map[] && !isLoading
      ensures alerts == [] && pagination == None && error == None && lastRequestId == None
    {
      CancelPendingRequests();
      alerts, pagination, error, lastRequestId := [], None, None, None;
    }

    /** The synchronous part of `fetchAlarmTypes`. */
    method BeginFetchAlarmTypes()
      modifies this`isLoading, this`error
      ensures isLoading && error == None
    {
      isLoading, error := true, None;
    }

    /** The continuation of `fetchAlarmTypes`: the catalogue is replaced on success; on
        failure the error is the server's message or the fallback and the result is `[]`. */
    method CompleteFetchAlarmTypes(outcome: Outcome<seq<AlarmType>>) returns (result: seq<AlarmType>)
      modifies this`alarmTypes, this`isLoading, this`error
      ensures !isLoading
      ensures outcome.Ok? ==> alarmTypes == outcome.value && result == outcome.value && error == old(error)
      ensures outcome.Err? ==>
        alarmTypes == old(alarmTypes) && result == [] && error == Some(ErrorMessage(outcome.error, AlarmTypesFallback))
    {
      match outcome {
        case Ok(types) =>
          alarmTypes, isLoading := types, false;
          result := types;
        case Err(e) =>
          error, isLoading := Some(ErrorMessage(e, AlarmTypesFallback)), false;
          result := [];
      }
    }

    /** The synchronous part of `fetchAlarmChart`: raise the chart's loading flag, clear
        the error and request the chart of `polygonId` in `mode`. */
    method BeginFetchAlarmChart(polygonId: string, mode: ChartMode) returns (url: string)
      modifies this`isLoadingChart, this`error
      ensures isLoadingChart && error == None
      ensures url == ChartUrl(polygonId, mode)
      ensures NoColon(ChartIdText(polygonId)) ==> url == "/alerts/chart/" + ChartIdText(polygonId) + "/" + ModeName(mode)
      ensures NoColon(polygonId) && NoDollar(polygonId) ==> url == "/alerts/chart/" + polygonId + "/" + ModeName(mode)
    {
      isLoadingChart, error := true, None;
      url := ReplaceFirst(ReplaceFirst(ChartEndpoint, ":polygonId", polygonId), ":mode", ModeName(mode));
      if NoDollar(polygonId) {
        SubstituteLiteral(polygonId, ":polygonId", "/alerts/chart/", "/:mode");
      }
      if NoColon(ChartIdText(polygonId)) {
        ChartUrlShape(polygonId, mode);
      }
    }

    /** The continuation of `fetchAlarmChart`: keep the chart on success; on failure set
        the error and yield `null`. */
    method CompleteFetchAlarmChart(outcome: Outcome<AlarmChartResponse>) returns (result: Option<AlarmChartResponse>)
      modifies this`chartData, this`isLoadingChart, this`error
      ensures !isLoadingChart
      ensures outcome.Ok? ==> chartData == Some(outcome.value) && result == chartData && error == old(error)
      ensures outcome.Err? ==>
        chartData == old(chartData) && result == None && error == Some(ErrorMessage(outcome.error, ChartFallback))
    {
      match outcome {
        case Ok(chart) =>
          chartData, isLoadingChart := Some(chart), false;
          result := Some(chart);
        case Err(e) =>
          error, isLoadingChart := Some(ErrorMessage(e, ChartFallback)), false;
          result := None;
      }
    }
  }
}
