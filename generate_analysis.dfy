/** POST /api/generate-analysis (app/api/generate-analysis/route.ts): the
    owner-scoped gate, then the generated text is repaired, parsed with the
    reviver, stored as the plan's `aiResponse` and returned. The generation
    request is not modelled: its text (or its failure) is an input, as are
    `JSON.parse` without the reviver (`parse`) and `JSON.stringify`
    (`serialise`). */
module GenerateAnalysis {
  import opened Common
  import opened Models
  import opened JsonValue
  import opened AnalysisRepair

  /** Every exception of the handler ends in this 500. */
  const ParseFailure: string := "Failed to parse AI response."

  /** Lines 12-23: the checks in their order. On success, the plan to analyse. */
  function Gate(users: map<string, User>, plans: map<ObjectId, Plan>, clerkId: Option<string>,
                fault: DbFault, businessPlanId: Option<ObjectId>): (r: Response<ObjectId>)
    ensures r.Ok? <==>
      && Truthy(clerkId) && fault != Unreachable && clerkId.value in users
      && businessPlanId.Some? && businessPlanId.value in plans
      && plans[businessPlanId.value].userId == users[clerkId.value].id
    ensures r.Ok? ==> r.value == businessPlanId.value
    ensures r.Fail? ==> r.status in {400, 401, 404, 500}
    ensures r.Fail? && r.status == 401 <==> !Truthy(clerkId)
    ensures r.Fail? && r.status == 400 <==>
      Truthy(clerkId) && fault != Unreachable && clerkId.value in users && businessPlanId.None?
    ensures !Truthy(clerkId) ==> r == Fail(401, "Unauthorized")
    ensures Truthy(clerkId) && fault == Unreachable ==> r == Fail(500, ParseFailure)
    ensures Truthy(clerkId) && fault != Unreachable && clerkId.value !in users ==>
      r == Fail(404, "User not found")
    ensures (Truthy(clerkId) && fault != Unreachable && clerkId.value in users && businessPlanId.None?) ==>
      r == Fail(400, "Business Plan ID is required")
    // a missing plan and another user's plan get the same answer
    ensures (Truthy(clerkId) && fault != Unreachable && clerkId.value in users && businessPlanId.Some?
             && (businessPlanId.value !in plans || plans[businessPlanId.value].userId != users[clerkId.value].id)) ==>
      r == Fail(404, "Business Plan not found or access denied")
  {
    if !Truthy(clerkId) then Fail(401, "Unauthorized")
    else if fault == Unreachable then Fail(500, ParseFailure)
    else if clerkId.value !in users then Fail(404, "User not found")
    else if businessPlanId.None? then Fail(400, "Business Plan ID is required")
    else if businessPlanId.value !in plans || plans[businessPlanId.value].userId != users[clerkId.value].id then
      Fail(404, "Business Plan not found or access denied")
    else Ok(businessPlanId.value)
  }

  /** A plan that belongs to another user is answered exactly as a missing
      one: the lookup is keyed on both `_id` and `userId`. */
  lemma GateHidesOtherOwnersPlans(users: map<string, User>, plans: map<ObjectId, Plan>,
                                  clerkId: string, fault: DbFault, k: ObjectId)
    requires clerkId != "" && fault != Unreachable && clerkId in users
    requires k in plans && plans[k].userId != users[clerkId].id
    ensures Gate(users, plans, Some(clerkId), fault, Some(k))
         == Gate(users, plans - {k}, Some(clerkId), fault, Some(k))
         == Fail(404, "Business Plan not found or access denied")
  {
  }

  /** What the handler does with the generated text once the gate passed:
      the object `JSON.parse(StripFence(text), reviver)` yields, or `None`
      when the generation or the parse throws. */
  function Analyse(responseText: Option<string>, parse: string -> Option<Json>): (r: Option<Json>)
    ensures r.Some? <==> responseText.Some? && parse(StripFence(responseText.value)).Some?
    ensures r.Some? ==> r.value == Internalize(parse(StripFence(responseText.value)).value)
    ensures r.Some? ==> Restore(r.value) == parse(StripFence(responseText.value)).value
  {
    if responseText.None? then None
    else
      var parsed := parse(StripFence(responseText.value));
      if parsed.None? then None
      else
        RestoreInternalize(parsed.value);
        Some(ParseWithReviver(parsed.value))
  }

  method Post(db: Store, clerkId: Option<string>, fault: DbFault, businessPlanId: Option<ObjectId>,
              responseText: Option<string>, parse: string -> Option<Json>, serialise: Json -> string)
    returns (r: Response<Json>)
    requires db.Valid()
    modifies db
    ensures db.Valid()
    ensures db.users == old(db.users) && db.nextId == old(db.nextId)
    // the gate's answer, with no write
    ensures Gate(old(db.users), old(db.plans), clerkId, fault, businessPlanId).Fail? ==>
      var g := Gate(old(db.users), old(db.plans), clerkId, fault, businessPlanId);
      r == Fail(g.status, g.message) && db.plans == old(db.plans)
    // generation, parse or save throws: 500 and aiResponse is not touched
    ensures (Gate(old(db.users), old(db.plans), clerkId, fault, businessPlanId).Ok?
             && (Analyse(responseText, parse).None? || fault == WriteRejected)) ==>
      r == Fail(500, ParseFailure) && db.plans == old(db.plans)
    ensures r.Ok? <==>
      Gate(old(db.users), old(db.plans), clerkId, fault, businessPlanId).Ok?
      && Analyse(responseText, parse).Some? && fault == Healthy
    // success: the stored aiResponse is the serialisation of exactly the returned object,
    // and only that plan's aiResponse changes
    ensures r.Ok? ==>
      && r.value == Analyse(responseText, parse).value
      && db.plans == old(db.plans)[businessPlanId.value :=
                       Merge(old(db.plans)[businessPlanId.value], map[AiResponse := serialise(r.value)])]
  {
    var g := Gate(db.users, db.plans, clerkId, fault, businessPlanId);
    if g.Fail? {
      return Fail(g.status, g.message);
    }
    var id := g.value;
    var plan := db.plans[id];
    if responseText.None? {
      return Fail(500, ParseFailure);
    }
    var text := responseText.value;
    text := StripFence(text);
    var parsed := parse(text);
    if parsed.None? {
      return Fail(500, ParseFailure);
    }
    var analysis := ParseWithReviver(parsed.value);
    plan := Merge(plan, map[AiResponse := serialise(analysis)]);
    if fault == WriteRejected {
      return Fail(500, ParseFailure);
    }
    db.plans := db.plans[id := plan];
    r := Ok(analysis);
  }
}
