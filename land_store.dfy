/** The land store (src/store/landStore.ts): a list of lands, the status options of the
    filter bar, the current filters, the selected land, the edit dialog flag, and a
    loading flag and error. Its requests are stand-ins that answer with fixed data; each
    network action takes a `fault` input, `None` for the fixed answer and `Some(e)` for a
    request that fails with `e`. */
module LandStore {
  import opened Js
  import opened Http

  /** The filters of `fetchLands`. An absent or falsy field is `""` or `0`. */
  datatype LandFilters = LandFilters(
    search: string, status: string, page: int, perPage: int,
    createdStartDate: string, createdEndDate: string)

  datatype StatusOption = StatusOption(name: string, total: int, status: string)
  datatype Land = Land(id: string, name: string, status: string)

  const AllStatus: string := "All"
  const DefaultPage: int := 1
  const DefaultPerPage: int := 10
  const StatusOptionsFallback: string := "Error fetching filters"
  const LandsFallback: string := "Error fetching lands"
  const EditFallback: string := "Error editing land"

  /** The fixed answer of the status count request. */
  const MockTotal: int := 100
  const MockStatuses: seq<StatusOption> :=
    [StatusOption("Active", 50, "active"), StatusOption("Inactive", 50, "inactive")]

  /** The fixed answer of the land list request. */
  const MockLands: seq<Land> := [Land("1", "Land 1", "active")]

  /** `fetchLands` called without arguments. */
  const NoFilters: LandFilters := LandFilters("", "", 0, 0, "", "")

  /** The initial `filters` of the store. */
  const InitialFilters: LandFilters := LandFilters("", AllStatus, DefaultPage, DefaultPerPage, "", "")

  // ---------------------------------------------------------------------------
  // Stored filters

  /** The filters `fetchLands` stores: every falsy field replaced by its default. */
  function WithDefaults(f: LandFilters): (d: LandFilters)
    ensures d.search == f.search
    ensures d.status == if f.status == "" then AllStatus else f.status
    ensures d.page == if f.page == 0 then DefaultPage else f.page
    ensures d.perPage == if f.perPage == 0 then DefaultPerPage else f.perPage
    ensures d.createdStartDate == f.createdStartDate && d.createdEndDate == f.createdEndDate
  {
    LandFilters(
      f.search,
      if f.status != "" then f.status else AllStatus,
      if f.page != 0 then f.page else DefaultPage,
      if f.perPage != 0 then f.perPage else DefaultPerPage,
      f.createdStartDate,
      f.createdEndDate)
  }

  /** Stored filters are fixed points: storing them again changes nothing, and the
      status, page and page size are never falsy. */
  lemma WithDefaultsIdempotent(f: LandFilters)
    ensures WithDefaults(WithDefaults(f)) == WithDefaults(f)
    ensures WithDefaults(f).status != "" && WithDefaults(f).page != 0 && WithDefaults(f).perPage != 0
  {
  }

  /** The initial filters are what a call without arguments stores. */
  lemma InitialFiltersAreDefaults()
    ensures WithDefaults(NoFilters) == InitialFilters
  {
  }

  // ---------------------------------------------------------------------------
  // Query parameters

  /** The query parameter names, in the order `fetchLands` appends them. */
  datatype LandKey = Search | Status | Page | PerPage | CreatedStartDate | CreatedEndDate

  /** The name that goes on the wire. */
  function KeyName(k: LandKey): string {
    match k
    case Search => "search"
    case Status => "status"
    case Page => "page"
    case PerPage => "perPage"
    case CreatedStartDate => "createdStartDate"
    case CreatedEndDate => "createdEndDate"
  }

  /** Position of a name in the append order. */
  function KeyRank(k: LandKey): nat {
    match k
    case Search => 0
    case Status => 1
    case Page => 2
    case PerPage => 3
    case CreatedStartDate => 4
    case CreatedEndDate => 5
  }

  type LandParam = (LandKey, string)

  /** The value the query must carry under `key`: each filter only when it is truthy,
      and the status also only when it is not `All`. */
  function Expected(key: LandKey, f: LandFilters): Option<string> {
    match key
    case Search => if f.search != "" then Some(f.search) else None
    case Status => if f.status != "" && f.status != AllStatus then Some(f.status) else None
    case Page => if f.page != 0 then Some(IntToString(f.page)) else None
    case PerPage => if f.perPage != 0 then Some(IntToString(f.perPage)) else None
    case CreatedStartDate => if f.createdStartDate != "" then Some(f.createdStartDate) else None
    case CreatedEndDate => if f.createdEndDate != "" then Some(f.createdEndDate) else None
  }

  /** `params` is the query built from `f` once every name of rank below `r` has been
      considered: names in append order, every pair carrying the expected value, and
      every expected value of those names present. */
  predicate BuiltUpTo(params: seq<LandParam>, f: LandFilters, r: nat) {
    && (forall i, j :: 0 <= i < j < |params| ==> KeyRank(params[i].0) < KeyRank(params[j].0))
    && (forall p :: p in params ==> KeyRank(p.0) < r && Expected(p.0, f) == Some(p.1))
    && (forall key :: KeyRank(key) < r && Expected(key, f).Some? ==> (key, Expected(key, f).value) in params)
  }

  /** The name considered at position `r` of the append order. */
  function KeyAt(r: nat): (k: LandKey)
    requires r < 6
    ensures KeyRank(k) == r
  {
    [Search, Status, Page, PerPage, CreatedStartDate, CreatedEndDate][r]
  }

  /** `if (value) params.append(key, value)`. */
  function AppendIfPresent(params: seq<LandParam>, key: LandKey, f: LandFilters): seq<LandParam> {
    if Expected(key, f).Some? then params + [(key, Expected(key, f).value)] else params
  }

  /** The query once the names of rank below `r` have been considered. */
  function QueryPrefix(f: LandFilters, r: nat): seq<LandParam>
    requires r <= 6
  {
    if r == 0 then [] else AppendIfPresent(QueryPrefix(f, r - 1), KeyAt(r - 1), f)
  }

  /** One conditional append extends the built query by that name. */
  lemma BuiltStep(before: seq<LandParam>, after: seq<LandParam>, f: LandFilters, key: LandKey)
    requires BuiltUpTo(before, f, KeyRank(key))
    requires after == AppendIfPresent(before, key, f)
    ensures BuiltUpTo(after, f, KeyRank(key) + 1)
  {
    forall k | KeyRank(k) < KeyRank(key) + 1 && Expected(k, f).Some?
      ensures (k, Expected(k, f).value) in after
    {
      if KeyRank(k) == KeyRank(key) {
        assert k == key;
      }
    }
  }

  /** Every prefix of the append sequence is a well-built query up to its rank. */
  lemma {:induction false} QueryPrefixBuilt(f: LandFilters, r: nat)
    requires r <= 6
    ensures BuiltUpTo(QueryPrefix(f, r), f, r)
  {
    if r > 0 {
      QueryPrefixBuilt(f, r - 1);
      BuiltStep(QueryPrefix(f, r - 1), QueryPrefix(f, r), f, KeyAt(r - 1));
    }
  }

  /** The complete query for the filters `f`. */
  function LandQuery(f: LandFilters): seq<LandParam> {
    QueryPrefix(f, 6)
  }

  /** The complete query lists names in append order, carries exactly the expected
      values, and so never carries `status=All`. */
  lemma LandQuerySound(f: LandFilters, params: seq<LandParam>)
    requires params == LandQuery(f)
    ensures forall i, j :: 0 <= i < j < |params| ==> KeyRank(params[i].0) < KeyRank(params[j].0)
    ensures forall p :: p in params ==> Expected(p.0, f) == Some(p.1)
    ensures forall key :: Expected(key, f).Some? ==> (key, Expected(key, f).value) in params
    ensures (Status, AllStatus) !in params
  {
    QueryPrefixBuilt(f, 6);
    forall key | Expected(key, f).Some?
      ensures (key, Expected(key, f).value) in params
    {
      assert KeyRank(key) < 6;
    }
  }

  /** `new URLSearchParams()` filled by the six conditional appends of `fetchLands`. */
  method BuildLandParams(f: LandFilters) returns (params: seq<LandParam>)
    ensures params == LandQuery(f)
    ensures forall i, j :: 0 <= i < j < |params| ==> KeyRank(params[i].0) < KeyRank(params[j].0)
    ensures forall p :: p in params ==> Expected(p.0, f) == Some(p.1)
    ensures forall key :: Expected(key, f).Some? ==> (key, Expected(key, f).value) in params
  {
    params := [];
    if f.search != "" {
      params := params + [(Search, f.search)];
    }
    assert params == QueryPrefix(f, 1);
    if f.status != "" && f.status != AllStatus {
      params := params + [(Status, f.status)];
    }
    assert params == QueryPrefix(f, 2);
    if f.page != 0 {
      params := params + [(Page, IntToString(f.page))];
    }
    assert params == QueryPrefix(f, 3);
    if f.perPage != 0 {
      params := params + [(PerPage, IntToString(f.perPage))];
    }
    assert params == QueryPrefix(f, 4);
    if f.createdStartDate != "" {
      params := params + [(CreatedStartDate, f.createdStartDate)];
    }
    assert params == QueryPrefix(f, 5);
    if f.createdEndDate != "" {
      params := params + [(CreatedEndDate, f.createdEndDate)];
    }
    assert params == QueryPrefix(f, 6);
    LandQuerySound(f, params);
  }

  // ---------------------------------------------------------------------------
  // Status options

  /** The options of the status filter: an `All` entry carrying the overall total,
      followed by the server's statuses in their order. */
  function StatusOptions(total: int, statuses: seq<StatusOption>): (opts: seq<StatusOption>)
    ensures |opts| == 1 + |statuses|
    ensures opts[0] == StatusOption(AllStatus, total, AllStatus)
    ensures opts[1..] == statuses
  {
    [StatusOption(AllStatus, total, AllStatus)] + statuses
  }

  class Store {
    var statusOptions: seq<StatusOption>
    var lands: seq<Land>
    var landSelected: Option<Land>
    var filters: LandFilters
    var error: Option<string>
    var isLoading: bool
    var openEditDialog: bool

    /** The initial state: nothing loaded, the initial filters, the dialog closed. */
    constructor()
      ensures statusOptions == [] && lands == [] && landSelected == None && filters == InitialFilters
      ensures error == None && !isLoading && !openEditDialog
    {
      statusOptions, lands, landSelected, filters := [], [], None, InitialFilters;
      error, isLoading, openEditDialog := None, false, false;
    }

    /** `setOpenEditDialog`: only the dialog flag changes. */
    method SetOpenEditDialog(open: bool)
      modifies this`openEditDialog
      ensures openEditDialog == open
    {
      openEditDialog := open;
    }

    /** `setFilters`: only the filters change, stored as given (no defaults). */
    method SetFilters(f: LandFilters)
      modifies this`filters
      ensures filters == f
    {
      filters := f;
    }

    /** `setLandSelected`: only the selection changes. */
    method SetLandSelected(land: Option<Land>)
      modifies this`landSelected
      ensures landSelected == land
    {
      landSelected := land;
    }

    /** `setError`. */
    method SetError(e: string)
      modifies this`error
      ensures error == Some(e)
    {
      error := Some(e);
    }

    /** `fetchStatusOptions`: on the fixed answer the options become `All` with the
        answer's total followed by its statuses; on a failure they are kept. */
    method FetchStatusOptions(fault: Option<HttpError>)
      modifies this`statusOptions, this`isLoading, this`error
      ensures !isLoading
      ensures fault.None? ==>
        && |statusOptions| == 1 + |MockStatuses|
        && statusOptions[0] == StatusOption(AllStatus, MockTotal, AllStatus)
        && statusOptions[1..] == MockStatuses
        && error == None
      ensures fault.Some? ==>
        statusOptions == old(statusOptions) && error == Some(ErrorMessage(fault.value, StatusOptionsFallback))
    {
      isLoading, error := true, None;
      if fault.None? {
        statusOptions, isLoading := StatusOptions(MockTotal, MockStatuses), false;
      } else {
        error, isLoading := Some(ErrorMessage(fault.value, StatusOptionsFallback)), false;
      }
    }

    /** `fetchLands(f)`: builds the query for `f`, stores `f` with its defaults before
        the request, so even a failed request leaves them stored, and on the fixed
        answer replaces the lands. */
    method FetchLands(f: LandFilters, fault: Option<HttpError>) returns (params: seq<LandParam>)
      modifies this`lands, this`filters, this`isLoading, this`error
      ensures params == LandQuery(f)
      ensures filters == WithDefaults(f) && !isLoading
      ensures fault.None? ==> lands == MockLands && error == None
      ensures fault.Some? ==> lands == old(lands) && error == Some(ErrorMessage(fault.value, LandsFallback))
    {
      isLoading, error := true, None;
      params := BuildLandParams(f);
      filters := WithDefaults(f);
      if fault.None? {
        lands, isLoading := MockLands, false;
      } else {
        error, isLoading := Some(ErrorMessage(fault.value, LandsFallback)), false;
      }
    }

    /** `editLand`: ends with loading down; a failure is recorded and handed back to the
        caller (the rethrow), a success clears the error. */
    method EditLand(fault: Option<HttpError>) returns (thrown: Option<HttpError>)
      modifies this`isLoading, this`error
      ensures !isLoading && thrown == fault
      ensures fault.None? ==> error == None
      ensures fault.Some? ==> error == Some(ErrorMessage(fault.value, EditFallback))
    {
      isLoading, error := true, None;
      if fault.None? {
        isLoading := false;
      } else {
        error, isLoading := Some(ErrorMessage(fault.value, EditFallback)), false;
      }
      thrown := fault;
    }
  }
}
