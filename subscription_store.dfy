/** The subscription store (src/store/subscriptionStore.ts): the user's subscriptions, the
    selected one, the status of one polygon, and a loading flag and error. Each network
    action is one atomic step taking the settled request as an input: it raises the
    loading flag and clears the error, then applies the response or the failure, and ends
    with the loading flag down. */
module SubscriptionStore {
  import opened Js
  import opened Http

  datatype SubscriptionStatus = Active | Inactive | Expired | Pending
  datatype BillingCycle = MonthlyCycle | YearlyCycle

  /** A subscription as the server returns it (the attached polygon geometry is not kept). */
  datatype Subscription = Subscription(
    id: string, userEmail: string, name: string, status: SubscriptionStatus,
    billingCycle: BillingCycle, price: int, startDate: string, endDate: string,
    planId: string, polygonId: string, createdAt: string, updatedAt: string)

  /** The status summary of one polygon. */
  datatype PolygonStatus = PolygonStatus(
    isSafe: bool, changePercentage: int, dailyAlarms: int, weeklyChange: int,
    monthlyAlarms: int, lastMonthChange: int, areaHectares: int,
    averageStatusLabel: string, monthlyTotalAlarms: int)

  /** What `partialize` keeps in local storage: everything but the loading flag, the
      error and the polygon status. */
  datatype PersistedState = PersistedState(subscriptions: seq<Subscription>, selectedSubscription: Option<Subscription>)

  const StatusEndpoint: string := "/subscriptions/status/:polygonId"
  const FetchAllFallback: string := "Error al obtener suscripciones"
  const CreateFallback: string := "Error al crear suscripción"

  function FetchByIdFallback(id: string): string { "Error al obtener suscripción con ID " + id }
  function UpdateFallback(id: string): string { "Error al actualizar suscripción con ID " + id }
  function DeleteFallback(id: string): string { "Error al eliminar suscripción con ID " + id }
  function StatusFallback(polygonId: string): string { "Error al obtener estado del polígono con ID " + polygonId }

  /** `subs.map((s) => s.id === id ? updated : s)`: every element with the id becomes
      `updated`, every other element stays where it is. */
  function ReplaceById(subs: seq<Subscription>, id: string, updated: Subscription): (r: seq<Subscription>)
    ensures |r| == |subs|
    ensures forall i :: 0 <= i < |subs| ==> r[i] == if subs[i].id == id then updated else subs[i]
  {
    seq(|subs|, i requires 0 <= i < |subs| => if subs[i].id == id then updated else subs[i])
  }

  predicate HasOtherId(id: string, s: Subscription) {
    s.id != id
  }

  /** `subs.filter((s) => s.id !== id)`. */
  function RemoveById(subs: seq<Subscription>, id: string): seq<Subscription> {
    Filter(subs, (s: Subscription) => HasOtherId(id, s))
  }

  /** Removing drops exactly the elements with that id: nothing left has it, everything
      else is kept, and a list without the id is returned unchanged. */
  lemma RemoveByIdSpec(subs: seq<Subscription>, id: string)
    ensures forall s :: s in RemoveById(subs, id) <==> s in subs && s.id != id
    ensures |RemoveById(subs, id)| <= |subs|
    ensures (forall s :: s in subs ==> s.id != id) ==> RemoveById(subs, id) == subs
  {
    forall s | s in subs && s.id != id
      ensures s in RemoveById(subs, id)
    {
      FilterKeeps(subs, (x: Subscription) => HasOtherId(id, x), s);
    }
  }

  /** Removing keeps the survivors' relative order: removing from a concatenation is
      removing from each part. */
  lemma RemoveByIdOrder(a: seq<Subscription>, b: seq<Subscription>, id: string)
    ensures RemoveById(a + b, id) == RemoveById(a, id) + RemoveById(b, id)
  {
    FilterAppend(a, b, (s: Subscription) => HasOtherId(id, s));
  }

  /** An update followed by a delete of the same id leaves what the delete alone would
      leave: the updated copies are removed with the rest. */
  lemma {:induction false} ReplaceThenRemove(subs: seq<Subscription>, id: string, updated: Subscription)
    requires updated.id == id
    ensures RemoveById(ReplaceById(subs, id, updated), id) == RemoveById(subs, id)
  {
    var r := ReplaceById(subs, id, updated);
    if subs != [] {
      assert r[1..] == ReplaceById(subs[1..], id, updated);
      ReplaceThenRemove(subs[1..], id, updated);
    }
  }

  /** `endpoints.subscription.findStatus.replace(':polygonId', polygonId)`. */
  function StatusUrl(polygonId: string): string {
    ReplaceFirst(StatusEndpoint, ":polygonId", polygonId)
  }

  /** The polygon id, read as a replacement template, lands where the placeholder
      stands; an id without a dollar sign lands there as it is. */
  lemma StatusUrlShape(polygonId: string)
    ensures StatusUrl(polygonId) == "/subscriptions/status/" + Substitute(polygonId, ":polygonId", "/subscriptions/status/", "")
    ensures NoDollar(polygonId) ==> StatusUrl(polygonId) == "/subscriptions/status/" + polygonId
  {
    var base := "/subscriptions/status/";
    assert StatusEndpoint == base + ":polygonId" + "";
    ReplaceFirstAfter(base, ":polygonId", polygonId, "");
    assert base + Substitute(polygonId, ":polygonId", base, "") + "" == base + Substitute(polygonId, ":polygonId", base, "");
    assert base + polygonId + "" == base + polygonId;
  }

  /** An id ending in `$&` does not land as it is: `replace` puts the placeholder back
      in place of the `$&`. */
  lemma StatusUrlDollarPattern(p: string)
    requires NoDollar(p)
    ensures StatusUrl(p + "$&") == "/subscriptions/status/" + p + ":polygonId"
  {
    var base := "/subscriptions/status/";
    StatusUrlShape(p + "$&");
    SubstituteLiteralPrefix(p, "$&", ":polygonId", base, "");
    MatchPattern(base);
    assert Substitute(p + "$&", ":polygonId", base, "") == p + ":polygonId";
  }

  /** `$&` alone expands to the placeholder that was matched. */
  lemma MatchPattern(base: string)
    ensures Substitute("$&", ":polygonId", base, "") == ":polygonId"
  {
    assert "$&"[2..] == [];
  }

  class Store {
    var subscriptions: seq<Subscription>
    var isLoading: bool
    var error: Option<string>
    var selectedSubscription: Option<Subscription>
    var polygonStatus: Option<PolygonStatus>

    /** `partialize`: the list and the selection are persisted; loading, error and the
        polygon status are not (the function reads no other field). */
    function Persisted(): (p: PersistedState)
      reads this`subscriptions, this`selectedSubscription
      ensures p.subscriptions == subscriptions && p.selectedSubscription == selectedSubscription
    {
      PersistedState(subscriptions, selectedSubscription)
    }

    /** The initial state: nothing loaded. */
    constructor()
      ensures subscriptions == [] && !isLoading && error == None && selectedSubscription == None && polygonStatus == None
    {
      subscriptions, isLoading, error, selectedSubscription, polygonStatus := [], false, None, None, None;
    }

    /** `setSelectedSubscription`: only the selection changes. */
    method SetSelectedSubscription(s: Option<Subscription>)
      modifies this`selectedSubscription
      ensures selectedSubscription == s
    {
      selectedSubscription := s;
    }

    /** `setError`. */
    method SetError(e: Option<string>)
      modifies this`error
      ensures error == e
    {
      error := e;
    }

    /** `fetchSubscriptions`: the list is replaced by the response; on failure it is kept
        and the result is `[]`. */
    method FetchSubscriptions(outcome: Outcome<seq<Subscription>>) returns (result: seq<Subscription>)
      modifies this`subscriptions, this`isLoading, this`error
      ensures !isLoading
      ensures outcome.Ok? ==> subscriptions == outcome.value && result == outcome.value && error == None
      ensures outcome.Err? ==> subscriptions == old(subscriptions) && result == []
                               && error == Some(ErrorMessage(outcome.error, FetchAllFallback))
    {
      isLoading, error := true, None;
      match outcome {
        case Ok(subs) =>
          subscriptions, isLoading := subs, false;
          result := subs;
        case Err(e) =>
          error, isLoading := Some(ErrorMessage(e, FetchAllFallback)), false;
          result := [];
      }
    }

    /** `fetchSubscriptionById`: the response becomes the selection; the list is never
        touched. */
    method FetchSubscriptionById(id: string, outcome: Outcome<Subscription>) returns (result: Option<Subscription>)
      modifies this`selectedSubscription, this`isLoading, this`error
      ensures !isLoading
      ensures outcome.Ok? ==> selectedSubscription == Some(outcome.value) && result == selectedSubscription && error == None
      ensures outcome.Err? ==> selectedSubscription == old(selectedSubscription) && result == None
                               && error == Some(ErrorMessage(outcome.error, FetchByIdFallback(id)))
    {
      isLoading, error := true, None;
      match outcome {
        case Ok(s) =>
          selectedSubscription, isLoading := Some(s), false;
          result := Some(s);
        case Err(e) =>
          error, isLoading := Some(ErrorMessage(e, FetchByIdFallback(id))), false;
          result := None;
      }
    }

    /** `createSubscription`: the created subscription is appended after the existing
        ones, which stay as they were. */
    method CreateSubscription(outcome: Outcome<Subscription>) returns (result: Option<Subscription>)
      modifies this`subscriptions, this`isLoading, this`error
      ensures !isLoading
      ensures outcome.Ok? ==>
        && |subscriptions| == |old(subscriptions)| + 1
        && subscriptions[..|old(subscriptions)|] == old(subscriptions)
        && subscriptions[|old(subscriptions)|] == outcome.value
        && result == Some(outcome.value) && error == None
      ensures outcome.Err? ==> subscriptions == old(subscriptions) && result == None
                               && error == Some(ErrorMessage(outcome.error, CreateFallback))
    {
      isLoading, error := true, None;
      match outcome {
        case Ok(s) =>
          subscriptions, isLoading := subscriptions + [s], false;
          result := Some(s);
        case Err(e) =>
          error, isLoading := Some(ErrorMessage(e, CreateFallback)), false;
          result := None;
      }
    }

    /** `updateSubscription`: every subscription with the id is replaced by the response,
        the others and the length are kept, and the response becomes the selection. */
    method UpdateSubscription(id: string, outcome: Outcome<Subscription>) returns (result: Option<Subscription>)
      modifies this`subscriptions, this`selectedSubscription, this`isLoading, this`error
      ensures !isLoading
      ensures outcome.Ok? ==>
        && |subscriptions| == |old(subscriptions)|
        && (forall i :: 0 <= i < |subscriptions| ==>
              subscriptions[i] == if old(subscriptions)[i].id == id then outcome.value else old(subscriptions)[i])
        && selectedSubscription == Some(outcome.value) && result == selectedSubscription && error == None
      ensures outcome.Err? ==>
        && subscriptions == old(subscriptions) && selectedSubscription == old(selectedSubscription)
        && result == None && error == Some(ErrorMessage(outcome.error, UpdateFallback(id)))
    {
      isLoading, error := true, None;
      match outcome {
        case Ok(s) =>
          subscriptions := ReplaceById(subscriptions, id, s);
          selectedSubscription, isLoading := Some(s), false;
          result := Some(s);
        case Err(e) =>
          error, isLoading := Some(ErrorMessage(e, UpdateFallback(id))), false;
          result := None;
      }
    }

    /** `deleteSubscription`: every subscription with the id is removed, the rest keep
        their order, the selection is dropped whichever it was, and the result is true;
        on failure nothing but the error changes and the result is false. */
    method DeleteSubscription(id: string, outcome: Outcome<()>) returns (deleted: bool)
      modifies this`subscriptions, this`selectedSubscription, this`isLoading, this`error
      ensures !isLoading
      ensures deleted <==> outcome.Ok?
      ensures outcome.Ok? ==>
        && subscriptions == RemoveById(old(subscriptions), id)
        && (forall s :: s in subscriptions <==> s in old(subscriptions) && s.id != id)
        && selectedSubscription == None && error == None
      ensures outcome.Err? ==>
        && subscriptions == old(subscriptions) && selectedSubscription == old(selectedSubscription)
        && error == Some(ErrorMessage(outcome.error, DeleteFallback(id)))
    {
      isLoading, error := true, None;
      match outcome {
        case Ok(_) =>
          subscriptions := RemoveById(subscriptions, id);
          RemoveByIdSpec(old(subscriptions), id);
          selectedSubscription, isLoading := None, false;
          deleted := true;
        case Err(e) =>
          error, isLoading := Some(ErrorMessage(e, DeleteFallback(id))), false;
          deleted := false;
      }
    }

    /** `findStatus`: request the status of `polygonId` and overwrite the one status slot
        with the response. The persisted state never changes. */
    method FindStatus(polygonId: string, outcome: Outcome<PolygonStatus>)
      returns (url: string, result: Option<PolygonStatus>)
      modifies this`polygonStatus, this`isLoading, this`error
      ensures url == "/subscriptions/status/" + Substitute(polygonId, ":polygonId", "/subscriptions/status/", "")
      ensures NoDollar(polygonId) ==> url == "/subscriptions/status/" + polygonId
      ensures !isLoading && Persisted() == old(Persisted())
      ensures outcome.Ok? ==> polygonStatus == Some(outcome.value) && result == polygonStatus && error == None
      ensures outcome.Err? ==> polygonStatus == old(polygonStatus) && result == None
                               && error == Some(ErrorMessage(outcome.error, StatusFallback(polygonId)))
    {
      isLoading, error := true, None;
      url := ReplaceFirst(StatusEndpoint, ":polygonId", polygonId);
      StatusUrlShape(polygonId);
      match outcome {
        case Ok(st) =>
          polygonStatus, isLoading := Some(st), false;
          result := Some(st);
        case Err(e) =>
          error, isLoading := Some(ErrorMessage(e, StatusFallback(polygonId))), false;
          result := None;
      }
    }
  }
}
