/** The Redux slice `plan` (redux/planSlice.ts): one field, `currentPlanId`,
    with the case reducers `setPlanId` and `clearPlanId`. The case reducers
    assign a field of the draft state in place; the slice's exported reducer
    maps a state and an action to the next state. */
module PlanSlice {
  import opened Common

  datatype PlanState = PlanState(currentPlanId: Option<string>)

  const InitialState: PlanState := PlanState(None)

  /** `setPlanId(payload)`, `clearPlanId()`, or an action of another slice,
      which this reducer ignores. */
  datatype Action = SetPlanIdAction(payload: string) | ClearPlanIdAction | OtherAction(kind: string)

  /** `planSlice.reducer`. */
  function Reduce(state: PlanState, action: Action): (next: PlanState)
    ensures action.SetPlanIdAction? ==> next.currentPlanId == Some(action.payload)
    ensures action.ClearPlanIdAction? ==> next.currentPlanId == None
    ensures action.OtherAction? ==> next == state
  {
    match action
    case SetPlanIdAction(p) => state.(currentPlanId := Some(p))
    case ClearPlanIdAction => state.(currentPlanId := None)
    case OtherAction(_) => state
  }

  /** Each case reducer is idempotent, and the later of two writes wins. */
  lemma ReducerLaws(s: PlanState, p: string, q: string)
    ensures Reduce(Reduce(s, SetPlanIdAction(p)), SetPlanIdAction(p)) == Reduce(s, SetPlanIdAction(p))
    ensures Reduce(Reduce(s, ClearPlanIdAction), ClearPlanIdAction) == Reduce(s, ClearPlanIdAction)
    ensures Reduce(Reduce(s, SetPlanIdAction(p)), SetPlanIdAction(q)) == Reduce(s, SetPlanIdAction(q))
    ensures Reduce(Reduce(s, ClearPlanIdAction), SetPlanIdAction(p)) == Reduce(s, SetPlanIdAction(p))
    ensures Reduce(Reduce(s, SetPlanIdAction(p)), ClearPlanIdAction) == InitialState
  {
  }

  /** Dispatching the actions one after another. */
  function Run(state: PlanState, actions: seq<Action>): PlanState
    decreases |actions|
  {
    if actions == [] then state else Run(Reduce(state, actions[0]), actions[1..])
  }

  /** The last `setPlanId`/`clearPlanId` among the actions, if any. */
  function LastWrite(actions: seq<Action>): (a: Option<Action>)
    ensures a.Some? ==> !a.value.OtherAction? && a.value in actions
    ensures a.None? ==> forall i :: 0 <= i < |actions| ==> actions[i].OtherAction?
  {
    if actions == [] then None
    else if !actions[|actions| - 1].OtherAction? then Some(actions[|actions| - 1])
    else LastWrite(actions[..|actions| - 1])
  }

  lemma {:induction false} RunAppend(state: PlanState, actions: seq<Action>, a: Action)
    ensures Run(state, actions + [a]) == Reduce(Run(state, actions), a)
    decreases |actions|
  {
    if actions != [] {
      assert (actions + [a])[1..] == actions[1..] + [a];
      RunAppend(Reduce(state, actions[0]), actions[1..], a);
    }
  }

  /** Whatever came before, the state after a run of actions is set by the
      last write among them, or is the starting state if there is none. */
  lemma {:induction false} RunLastWriteWins(state: PlanState, actions: seq<Action>)
    ensures Run(state, actions) == match LastWrite(actions)
                                   case None => state
                                   case Some(a) => Reduce(InitialState, a)
    decreases |actions|
  {
    if actions != [] {
      var init, last := actions[..|actions| - 1], actions[|actions| - 1];
      assert actions == init + [last];
      RunAppend(state, init, last);
      RunLastWriteWins(state, init);
    }
  }

  /** The draft state the case reducers mutate. */
  class PlanDraft {
    var currentPlanId: Option<string>

    /** `initialState`. */
    constructor ()
      ensures PlanState(currentPlanId) == InitialState
    {
      currentPlanId := None;
    }

    method SetPlanId(payload: string)
      modifies this
      ensures PlanState(currentPlanId) == Reduce(PlanState(old(currentPlanId)), SetPlanIdAction(payload))
      ensures currentPlanId == Some(payload)
    {
      currentPlanId := Some(payload);
    }

    method ClearPlanId()
      modifies this
      ensures PlanState(currentPlanId) == Reduce(PlanState(old(currentPlanId)), ClearPlanIdAction)
      ensures currentPlanId == None
    {
      currentPlanId := None;
    }
  }
}
