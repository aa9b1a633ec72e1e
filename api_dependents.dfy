/** The dependents operations: plain CRUD requests, none of which catches a
    failure. */
module DependentsApi {
  import opened Js
  import opened Http
  import opened Routes

  /** `getDependents()`. */
  const GET_DEPENDENTS: Call := Network(Request(GET, "/dependents", Undefined), Propagate)

  /** `addDependent(dependent)`: the object goes out unchanged. */
  function AddDependent(dependent: Value): (c: Call)
    ensures c.Network? && c.policy == Propagate
    ensures c.request.verb == POST && c.request.body == dependent
    ensures Reaches(c.request, DependentCreate, None)
  {
    assert "/" + "dependents" == "/dependents";
    RenderFixedOne("dependents", "");
    assert PatternOf(DependentCreate) == [Lit(""), Lit("dependents")];
    Network(Request(POST, "/dependents", dependent), Propagate)
  }

  /** `updateDependent(id, updates)`: the updates go out unchanged. */
  function UpdateDependent(id: string, updates: Value): (c: Call)
    ensures c.Network? && c.policy == Propagate
    ensures c.request.verb == PUT && c.request.body == updates
    ensures ParamText(id) ==> Reaches(c.request, DependentUpdate, Some(id))
    ensures c.request.path == "/dependents/" + id
  {
    assert "/" + "dependents" + "/" == "/dependents/";
    RenderParamLast("dependents", id);
    assert PatternOf(DependentUpdate) == [Lit(""), Lit("dependents"), Param];
    Network(Request(PUT, "/dependents/" + id, updates), Propagate)
  }

  /** `deleteDependent(id)`. */
  function DeleteDependent(id: string): (c: Call)
    ensures c.Network? && c.policy == Propagate
    ensures c.request.verb == DELETE && c.request.body == Undefined
    ensures ParamText(id) ==> Reaches(c.request, DependentDelete, Some(id))
    ensures c.request.path == "/dependents/" + id
  {
    assert "/" + "dependents" + "/" == "/dependents/";
    RenderParamLast("dependents", id);
    assert PatternOf(DependentDelete) == [Lit(""), Lit("dependents"), Param];
    Network(Request(DELETE, "/dependents/" + id, Undefined), Propagate)
  }

  /** The list lands on its endpoint, and every dependents operation hands a
      failure to its caller unchanged. */
  lemma DependentsPropagate(id: string, v: Value, outcome: Outcome)
    requires !outcome.Ok?
    ensures Reaches(GET_DEPENDENTS.request, DependentsAll, None)
    ensures Settle(GET_DEPENDENTS.policy, outcome) == Rejected(Propagated(outcome))
    ensures Settle(AddDependent(v).policy, outcome) == Rejected(Propagated(outcome))
    ensures Settle(UpdateDependent(id, v).policy, outcome) == Rejected(Propagated(outcome))
    ensures Settle(DeleteDependent(id).policy, outcome) == Rejected(Propagated(outcome))
  {
    assert "/" + "dependents" == "/dependents";
    RenderFixedOne("dependents", "");
    assert PatternOf(DependentsAll) == [Lit(""), Lit("dependents")];
  }
}
