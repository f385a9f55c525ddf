/** `handleGetStarted` of the home page (components/Homepage.tsx): asks the
    create endpoint for a new plan, keeps its id in local storage and moves to
    the first wizard step, tracking `isLoading` and `error` on the way. The
    result of `fetch` and the outcome of the storage write are inputs. */
module Homepage {
  import opened Common

  const PlanIdKey: string := "businessPlanId"
  const FirstStep: string := "/businessname"
  const NotOkMessage: string := "Failed to start a new plan. Please try again."
  const NoIdMessage: string := "Could not retrieve a new plan ID."

  /** The body of an OK response: `response.json()` throws with `message`, or
      yields an object whose `businessPlanId` may be absent (`None`). */
  datatype Body = Unreadable(message: string) | Data(businessPlanId: Option<string>)

  /** What `fetch` settles to: a rejection with an Error's message, or a
      response with its `ok` flag and body. */
  datatype FetchResult = Rejected(message: string) | Answered(ok: bool, body: Body)

  /** One observable step of the handler, in the order it happens. */
  datatype Effect =
    | SetLoading(on: bool)
    | SetError(message: Option<string>)
    | StoreItem(key: string, value: string)
    | Navigate(path: string)

  /** What `localStorage.setItem` does: stores the item, or throws (storage
      full or disabled) with `message`. */
  datatype StorageWrite = Stored | Refused(message: string)

  /** How the `try` block ends: with a plan id, or with a thrown Error's message. */
  datatype Outcome = Started(planId: string) | Failed(message: string)

  /** Whether the response carries a plan id the handler goes on to store. */
  predicate HasPlanId(result: FetchResult) {
    result.Answered? && result.ok && result.body.Data? && Truthy(result.body.businessPlanId)
  }

  function GetStartedOutcome(result: FetchResult, write: StorageWrite): (o: Outcome)
    ensures o.Started? <==> HasPlanId(result) && write.Stored?
    ensures o.Started? ==> o.planId == result.body.businessPlanId.value && o.planId != ""
    ensures result.Rejected? ==> o == Failed(result.message)
    ensures result.Answered? && !result.ok ==> o == Failed(NotOkMessage)
    ensures result.Answered? && result.ok && result.body.Unreadable? ==> o == Failed(result.body.message)
    ensures result.Answered? && result.ok && result.body.Data? && !Truthy(result.body.businessPlanId) ==>
      o == Failed(NoIdMessage)
    ensures HasPlanId(result) && write.Refused? ==> o == Failed(write.message)
  {
    match result
    case Rejected(m) => Failed(m)
    case Answered(ok, body) =>
      if !ok then Failed(NotOkMessage)
      else match body
        case Unreadable(m) => Failed(m)
        case Data(id) =>
          if !Truthy(id) then Failed(NoIdMessage)
          else match write
            case Refused(m) => Failed(m)
            case Stored => Started(id.value)
  }

  /** Effects of lines 17-47: storage write then navigation on success, the
      error message otherwise, and `isLoading` cleared in every case. */
  function SettleEffects(result: FetchResult, write: StorageWrite): (e: seq<Effect>)
    ensures |e| >= 2 && e[|e| - 1] == SetLoading(false)
  {
    match GetStartedOutcome(result, write)
    case Started(id) => [StoreItem(PlanIdKey, id), Navigate(FirstStep), SetLoading(false)]
    case Failed(m) => [SetError(Some(m)), SetLoading(false)]
  }

  /** Every effect of one click, in order. */
  function GetStartedEffects(result: FetchResult, write: StorageWrite): (e: seq<Effect>)
    ensures |e| >= 4
    ensures e[0] == SetLoading(true) && e[1] == SetError(None) && e[|e| - 1] == SetLoading(false)
    // navigation comes right after writing the id, and only then
    ensures forall i :: 0 <= i < |e| && e[i].Navigate? ==>
      2 <= i && e[i - 1].StoreItem? && e[i - 1].key == PlanIdKey
    // never both an error message and a navigation
    ensures (exists i :: 0 <= i < |e| && e[i].Navigate?) ==>
      forall i :: 0 <= i < |e| && e[i].SetError? ==> e[i].message.None?
    ensures (exists i :: 0 <= i < |e| && e[i].Navigate?) <==> GetStartedOutcome(result, write).Started?
    // storage is written only with a non-empty id under "businessPlanId"
    ensures forall i :: 0 <= i < |e| && e[i].StoreItem? ==> e[i].key == PlanIdKey && e[i].value != ""
  {
    var e := [SetLoading(true), SetError(None)] + SettleEffects(result, write);
    assert GetStartedOutcome(result, write).Started? ==> e[3].Navigate?;
    e
  }

  class HomePage {
    var isLoading: bool
    var error: Option<string>
    var storage: map<string, string>   // window.localStorage
    var location: string               // current route
    var effects: seq<Effect>           // what the page has done so far, oldest first

    constructor (storage: map<string, string>, location: string)
      ensures !isLoading && error == None
      ensures this.storage == storage && this.location == location && effects == []
    {
      isLoading, error := false, None;
      this.storage, this.location := storage, location;
      effects := [];
    }

    /** The button is disabled while a request is in flight. */
    predicate TriggerEnabled(): (b: bool)
      reads this
      ensures b <==> !isLoading
    {
      !isLoading
    }

    /** Lines 14-15. */
    method Begin()
      modifies this
      ensures isLoading && error == None
      ensures storage == old(storage) && location == old(location)
      ensures effects == old(effects) + [SetLoading(true), SetError(None)]
    {
      isLoading := true;
      effects := effects + [SetLoading(true)];
      error := None;
      effects := effects + [SetError(None)];
    }

    /** Lines 17-47, once the request has settled; `write` is what the
        storage write at line 37 does if it is reached. */
    method Settle(result: FetchResult, write: StorageWrite)
      modifies this
      ensures !isLoading
      ensures effects == old(effects) + SettleEffects(result, write)
      ensures GetStartedOutcome(result, write).Started? ==>
        && storage == old(storage)[PlanIdKey := GetStartedOutcome(result, write).planId]
        && location == FirstStep
        && error == old(error)
      ensures GetStartedOutcome(result, write).Failed? ==>
        && error == Some(GetStartedOutcome(result, write).message)
        && storage == old(storage) && location == old(location)
    {
      var failure: Option<string> := None;
      match result {
        case Rejected(m) =>
          failure := Some(m);
        case Answered(ok, body) =>
          if !ok {
            failure := Some(NotOkMessage);
          } else {
            match body {
              case Unreadable(m) =>
                failure := Some(m);
              case Data(id) =>
                if !Truthy(id) {
                  failure := Some(NoIdMessage);
                } else {
                  match write {
                    case Refused(m) =>
                      failure := Some(m);
                    case Stored =>
                      storage := storage[PlanIdKey := id.value];
                      effects := effects + [StoreItem(PlanIdKey, id.value)];
                      location := FirstStep;
                      effects := effects + [Navigate(FirstStep)];
                  }
                }
            }
          }
      }
      if failure.Some? {
        error := failure;
        effects := effects + [SetError(failure)];
      }
      isLoading := false;
      effects := effects + [SetLoading(false)];
    }

    /** The whole handler, from the click to the `finally` block. */
    method HandleGetStarted(result: FetchResult, write: StorageWrite)
      modifies this
      ensures !isLoading
      ensures effects == old(effects) + GetStartedEffects(result, write)
      ensures GetStartedOutcome(result, write).Started? ==>
        && storage == old(storage)[PlanIdKey := GetStartedOutcome(result, write).planId]
        && location == FirstStep
        && error == None
      ensures GetStartedOutcome(result, write).Failed? ==>
        && error == Some(GetStartedOutcome(result, write).message)
        && storage == old(storage) && location == old(location)
    {
      Begin();
      Settle(result, write);
    }

    /** A click on the button: ignored while it is disabled, otherwise the
        handler starts and the request goes out. */
    method Click() returns (started: bool)
      modifies this
      ensures started == old(TriggerEnabled())
      ensures !started ==> unchanged(this)
      ensures started ==> isLoading && !TriggerEnabled() && error == None
      ensures started ==> effects == old(effects) + [SetLoading(true), SetError(None)]
      ensures storage == old(storage) && location == old(location)
    {
      started := TriggerEnabled();
      if started {
        Begin();
      }
    }
  }
}
