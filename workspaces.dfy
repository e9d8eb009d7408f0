/** The workspace switcher (src/layouts/components/workspaces-popover.tsx): the user's
    subscriptions shown as workspace options, a search box over their names, the chosen
    workspace, and the choice of one, which selects its subscription in the subscription
    store and asks for its polygon's status. The effects of the component are methods
    run in the order React runs them. */
module Workspaces {
  import opened Js
  import opened Http
  import opened SubscriptionStore

  const PolygonLogo: string := "/assets/icons/polygon-icon.svg"

  /** An entry of the switcher. */
  datatype WorkspaceOption = WorkspaceOption(id: string, name: string, logo: string, plan: string)

  /** The billing cycle as the server spells it. */
  function BillingCycleName(c: BillingCycle): string {
    match c
    case MonthlyCycle => "MONTHLY"
    case YearlyCycle => "YEARLY"
  }

  /** The mapping of the subscriptions to options: same order, id and name, the billing
      cycle as the plan, and the one default logo. */
  function MapOptions(subs: seq<Subscription>): (os: seq<WorkspaceOption>)
    ensures |os| == |subs|
    ensures forall k :: 0 <= k < |subs| ==>
      os[k] == WorkspaceOption(subs[k].id, subs[k].name, PolygonLogo, BillingCycleName(subs[k].billingCycle))
  {
    seq(|subs|, k requires 0 <= k < |subs| =>
      WorkspaceOption(subs[k].id, subs[k].name, PolygonLogo, BillingCycleName(subs[k].billingCycle)))
  }

  /** The test "the lower-cased name contains `lowered`". */
  function NameContains(lowered: string): WorkspaceOption -> bool {
    (o: WorkspaceOption) => Contains(ToLower(o.name), lowered)
  }

  /** The search effect: a blank term lists every option, any other term the options
      whose lower-cased name contains the lower-cased term, in their order. */
  function SearchOptions(options: seq<WorkspaceOption>, term: string): (r: seq<WorkspaceOption>)
    ensures Blank(term) ==> r == options
    ensures !Blank(term) ==> r == Filter(options, NameContains(ToLower(term)))
    ensures forall o :: o in r ==> o in options
  {
    if Blank(term) then options else Filter(options, NameContains(ToLower(term)))
  }

  /** An option is listed exactly when its name matches a non-blank term; the listing
      keeps the options' order; and searching the results again with the same term
      changes nothing. */
  lemma SearchSpec(options: seq<WorkspaceOption>, term: string)
    ensures !Blank(term) ==> forall o :: o in SearchOptions(options, term) <==> o in options && Contains(ToLower(o.name), ToLower(term))
    ensures forall a, b :: SearchOptions(a + b, term) == SearchOptions(a, term) + SearchOptions(b, term)
    ensures SearchOptions(SearchOptions(options, term), term) == SearchOptions(options, term)
  {
    var p := NameContains(ToLower(term));
    if !Blank(term) {
      forall o | o in options && Contains(ToLower(o.name), ToLower(term))
        ensures o in SearchOptions(options, term)
      {
        FilterKeeps(options, p, o);
      }
      forall a, b
        ensures SearchOptions(a + b, term) == SearchOptions(a, term) + SearchOptions(b, term)
      {
        FilterAppend(a, b, p);
      }
      FilterIdempotent(options, p);
    }
  }

  /** `subscriptions.find((sub) => sub.id === id)`: the first subscription with the id. */
  function FindById(subs: seq<Subscription>, id: string): (r: Option<Subscription>)
    ensures r.Some? ==> r.value in subs && r.value.id == id
    ensures r.None? <==> forall s :: s in subs ==> s.id != id
    ensures r.Some? ==> exists k :: 0 <= k < |subs| && subs[k] == r.value && forall j :: 0 <= j < k ==> subs[j].id != id
  {
    if |subs| == 0 then None
    else if subs[0].id == id then Some(subs[0])
    else
      var r := FindById(subs[1..], id);
      assert r.Some? ==> exists k :: 1 <= k < |subs| && subs[k] == r.value && forall j :: 0 <= j < k ==> subs[j].id != id by {
        if r.Some? {
          var k :| 0 <= k < |subs[1..]| && subs[1..][k] == r.value && forall j :: 0 <= j < k ==> subs[1..][j].id != id;
          assert subs[k + 1] == r.value;
        }
      }
      r
  }

  class Popover {
    var options: seq<WorkspaceOption>
    var filtered: seq<WorkspaceOption>
    var searchTerm: string
    var workspace: Option<WorkspaceOption>
    var isOpen: bool

    /** What the effects keep once they have run: the listed options are the search
        over the options, and once there is an option there is a workspace. */
    ghost predicate Valid()
      reads this`options, this`filtered, this`searchTerm, this`workspace
    {
      && filtered == SearchOptions(options, searchTerm)
      && (|options| > 0 ==> workspace.Some?)
    }

    /** The first render: no options, an empty search, the first entry of the `data`
        prop as the workspace, closed. */
    constructor(data: seq<WorkspaceOption>)
      ensures Valid()
      ensures options == [] && filtered == [] && searchTerm == "" && !isOpen
      ensures workspace == if |data| > 0 then Some(data[0]) else None
    {
      options, filtered, searchTerm, isOpen := [], [], "", false;
      workspace := if |data| > 0 then Some(data[0]) else None;
    }

    /** The effects on a new subscription list: a non-empty list replaces the options
        (and the search runs again over them), an empty one leaves every field as it was;
        then, with options but no workspace, the first option becomes the workspace. */
    method SyncSubscriptions(subs: seq<Subscription>)
      requires Valid()
      modifies this`options, this`filtered, this`workspace
      ensures Valid()
      ensures |subs| > 0 ==> options == MapOptions(subs) && filtered == SearchOptions(options, searchTerm)
      ensures |subs| == 0 ==> options == old(options) && filtered == old(filtered) && workspace == old(workspace)
      ensures old(workspace).Some? ==> workspace == old(workspace)
      ensures old(workspace).None? && |options| > 0 ==> workspace == Some(options[0])
    {
      if |subs| > 0 {
        options := MapOptions(subs);
        filtered := options;
        filtered := SearchOptions(options, searchTerm);
      }
      if |options| > 0 && workspace.None? {
        workspace := Some(options[0]);
      }
    }

    /** `handleSearchChange` followed by the search effect. */
    method SetSearchTerm(term: string)
      requires Valid()
      modifies this`searchTerm, this`filtered
      ensures Valid()
      ensures searchTerm == term && filtered == SearchOptions(options, term)
    {
      searchTerm := term;
      filtered := SearchOptions(options, term);
    }

    /** `onOpen` of the popover. */
    method Open()
      modifies this`isOpen
      ensures isOpen
    {
      isOpen := true;
    }

    /** `handleChangeWorkspace`: the option becomes the workspace; the subscription with
        its id, when the store holds one, becomes the selected subscription, and its
        polygon's status is requested when it has a polygon; the popover closes in every
        case. `statusOutcome` is how the status request settles. */
    method ChangeWorkspace(newValue: WorkspaceOption, store: Store, statusOutcome: Outcome<PolygonStatus>)
      requires Valid()
      modifies this`workspace, this`isOpen
      modifies store`selectedSubscription, store`polygonStatus, store`isLoading, store`error
      ensures Valid()
      ensures workspace == Some(newValue) && !isOpen
      ensures store.subscriptions == old(store.subscriptions)
      ensures FindById(store.subscriptions, newValue.id).None? ==>
        && store.selectedSubscription == old(store.selectedSubscription)
        && store.polygonStatus == old(store.polygonStatus) && store.error == old(store.error)
        && store.isLoading == old(store.isLoading)
      ensures FindById(store.subscriptions, newValue.id).Some? ==>
        var sub := FindById(store.subscriptions, newValue.id).value;
        && store.selectedSubscription == Some(sub)
        && (sub.polygonId == "" ==> store.polygonStatus == old(store.polygonStatus) && store.error == old(store.error)
                                    && store.isLoading == old(store.isLoading))
        && (sub.polygonId != "" ==> !store.isLoading)
        && (sub.polygonId != "" && statusOutcome.Ok? ==> store.polygonStatus == Some(statusOutcome.value) && store.error == None)
        && (sub.polygonId != "" && statusOutcome.Err? ==>
              store.polygonStatus == old(store.polygonStatus)
              && store.error == Some(ErrorMessage(statusOutcome.error, StatusFallback(sub.polygonId))))
    {
      workspace := Some(newValue);
      var found := FindById(store.subscriptions, newValue.id);
      if found.Some? {
        store.SetSelectedSubscription(found);
        if found.value.polygonId != "" {
          var _, _ := store.FindStatus(found.value.polygonId, statusOutcome);
        }
      }
      isOpen := false;
    }
  }
}
