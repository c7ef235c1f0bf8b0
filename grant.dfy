/**
 * The grant command of `juju_spell/commands/grant.py`: the mapping of a
 * requested access level to a controller access level and to a model access
 * level, and the loop that grants the controller level once and then the model
 * level on every filtered model.
 *
 * The remote controller is a class that records the grant calls it receives;
 * what it answers to each call is a function given when it is created. The
 * filtered models are an input (their selection is not part of this model).
 */
module Grant {
  import opened Wrappers

  const CONTROLLER_ACL_CHOICES: seq<string> := ["login", "add-model", "superuser"]
  const MODEL_ACL_CHOICES: seq<string> := ["read", "write", "admin"]
  const ACL_CHOICES: seq<string> := CONTROLLER_ACL_CHOICES + MODEL_ACL_CHOICES

  /** `get_controller_acl`: a controller level is kept; anything else becomes "login". */
  function GetControllerAcl(acl: string): (r: string)
    ensures r in CONTROLLER_ACL_CHOICES
    ensures r == acl <==> acl in CONTROLLER_ACL_CHOICES
    ensures acl !in CONTROLLER_ACL_CHOICES ==> r == "login"
  {
    if acl in CONTROLLER_ACL_CHOICES then acl else "login"
  }

  /** `get_model_acl`: a model level is kept, "superuser" becomes "admin" and
      anything else becomes "read". */
  function GetModelAcl(acl: string): (r: string)
    ensures r in MODEL_ACL_CHOICES
    ensures r == acl <==> acl in MODEL_ACL_CHOICES
    ensures acl == "superuser" ==> r == "admin"
    ensures acl !in MODEL_ACL_CHOICES && acl != "superuser" ==> r == "read"
  {
    if acl in MODEL_ACL_CHOICES then acl
    else if acl == "superuser" then "admin"
    else "read"
  }

  /** The two choice lists share no level, and `ACL_CHOICES` holds exactly the
      levels of both. */
  lemma AclChoices()
    ensures forall a :: a in CONTROLLER_ACL_CHOICES ==> a !in MODEL_ACL_CHOICES
    ensures forall a :: a in ACL_CHOICES <==> a in CONTROLLER_ACL_CHOICES || a in MODEL_ACL_CHOICES
    ensures |ACL_CHOICES| == |CONTROLLER_ACL_CHOICES| + |MODEL_ACL_CHOICES|
  {
  }

  /** Mapping an already-mapped level changes nothing. */
  lemma AclMappingIdempotent(acl: string)
    ensures GetControllerAcl(GetControllerAcl(acl)) == GetControllerAcl(acl)
    ensures GetModelAcl(GetModelAcl(acl)) == GetModelAcl(acl)
  {
  }

  /** A call made on the remote controller. */
  datatype Call =
    | ControllerGrant(username: string, acl: string)
    | ModelGrant(username: string, modelUuid: string, acl: string)

  /** The remote controller: the grant calls it has been sent, in order. */
  class Controller {
    var calls: seq<Call>
    /** What the controller answers to each call: nothing, or the exception the call raises. */
    const answer: Call -> Option<Error>

    constructor(answer: Call -> Option<Error>)
      ensures calls == [] && this.answer == answer
    {
      calls := [];
      this.answer := answer;
    }

    /** `controller.grant` */
    method Grant(username: string, acl: string) returns (err: Option<Error>)
      modifies this
      ensures calls == old(calls) + [ControllerGrant(username, acl)]
      ensures err == answer(ControllerGrant(username, acl))
    {
      calls := calls + [ControllerGrant(username, acl)];
      err := answer(ControllerGrant(username, acl));
    }

    /** `controller.grant_model` */
    method GrantModel(username: string, modelUuid: string, acl: string) returns (err: Option<Error>)
      modifies this
      ensures calls == old(calls) + [ModelGrant(username, modelUuid, acl)]
      ensures err == answer(ModelGrant(username, modelUuid, acl))
    {
      calls := calls + [ModelGrant(username, modelUuid, acl)];
      err := answer(ModelGrant(username, modelUuid, acl));
    }
  }

  /** The calls a run sends and what it returns or raises. */
  datatype Grants = Grants(calls: seq<Call>, outcome: Outcome<bool>)

  /** The `except JujuError` clause swallows an error exactly when `overwrite` is set. */
  predicate Swallowed(e: Error, overwrite: bool)
  {
    e.JujuError? && overwrite
  }

  /** A model grant the run goes past: it succeeds or its error is swallowed. */
  predicate Passes(answer: Call -> Option<Error>, c: Call, overwrite: bool)
  {
    answer(c).None? || Swallowed(answer(c).value, overwrite)
  }

  /** The model grants of the loop over `models`, after the calls `sent`. */
  function GrantModels(answer: Call -> Option<Error>, username: string, modelAcl: string,
                       models: seq<string>, overwrite: bool, sent: seq<Call>): Grants
    decreases |models|
  {
    if models == [] then Grants(sent, Returned(true))
    else
      var c := ModelGrant(username, models[0], modelAcl);
      if !Passes(answer, c, overwrite) then Grants(sent + [c], Raised(answer(c).value))
      else GrantModels(answer, username, modelAcl, models[1..], overwrite, sent + [c])
  }

  /** `execute`, as a function of the controller's answers. */
  function ExecuteSpec(answer: Call -> Option<Error>, username: string, acl: string,
                       models: seq<string>, overwrite: bool): Grants
  {
    var c := ControllerGrant(username, GetControllerAcl(acl));
    match answer(c)
    case Some(e) => Grants([c], Raised(e))
    case None => GrantModels(answer, username, GetModelAcl(acl), models, overwrite, [c])
  }

  /** `GrantCommand.execute` against `controller`, over the filtered model uuids `models`. */
  method Execute(controller: Controller, username: string, acl: string, models: seq<string>, overwrite: bool)
    returns (r: Outcome<bool>)
    modifies controller
    ensures controller.calls == old(controller.calls) +
              ExecuteSpec(controller.answer, username, acl, models, overwrite).calls
    ensures r == ExecuteSpec(controller.answer, username, acl, models, overwrite).outcome
  {
    ghost var answer := controller.answer;
    ghost var before := controller.calls;
    var controllerAcl := GetControllerAcl(acl);
    var modelAcl := GetModelAcl(acl);
    var err := controller.Grant(username, controllerAcl);
    if err.Some? {
      return Raised(err.value);
    }
    ghost var spec := GrantModels(answer, username, modelAcl, models, overwrite, [ControllerGrant(username, controllerAcl)]);
    ghost var sent := [ControllerGrant(username, controllerAcl)];
    assert models[0..] == models;
    var i := 0;
    while i < |models|
      invariant 0 <= i <= |models|
      invariant controller.calls == before + sent
      invariant spec == GrantModels(answer, username, modelAcl, models[i..], overwrite, sent)
    {
      var c := ModelGrant(username, models[i], modelAcl);
      assert models[i..][0] == models[i] && models[i..][1..] == models[i + 1..];
      err := controller.GrantModel(username, models[i], modelAcl);
      sent := sent + [c];
      if err.Some? && !Swallowed(err.value, overwrite) {
        return Raised(err.value);
      }
      i := i + 1;
    }
    r := Returned(true);
  }

  /** The model grants sent when every grant before model `n` passes. */
  function Attempts(username: string, modelAcl: string, models: seq<string>, n: nat): (r: seq<Call>)
    requires n <= |models|
    ensures |r| == n
  {
    seq(n, i requires 0 <= i < n => ModelGrant(username, models[i], modelAcl))
  }

  /** When every model grant passes, the loop sends one grant per model, in
      order, and returns true. */
  lemma {:induction false} GrantModelsAllPass(answer: Call -> Option<Error>, username: string, modelAcl: string,
                                              models: seq<string>, overwrite: bool, sent: seq<Call>)
    requires forall i :: 0 <= i < |models| ==> Passes(answer, ModelGrant(username, models[i], modelAcl), overwrite)
    ensures GrantModels(answer, username, modelAcl, models, overwrite, sent) ==
              Grants(sent + Attempts(username, modelAcl, models, |models|), Returned(true))
    decreases |models|
  {
    if models == [] {
      assert sent + [] == sent;
    } else {
      var c := ModelGrant(username, models[0], modelAcl);
      GrantModelsAllPass(answer, username, modelAcl, models[1..], overwrite, sent + [c]);
      assert Attempts(username, modelAcl, models, |models|) ==
             [c] + Attempts(username, modelAcl, models[1..], |models| - 1);
      assert sent + [c] + Attempts(username, modelAcl, models[1..], |models| - 1) ==
             sent + ([c] + Attempts(username, modelAcl, models[1..], |models| - 1));
    }
  }

  /** The loop stops at the first model grant that does not pass: it has sent
      the grants up to and including that one, and raises its error. */
  lemma {:induction false} GrantModelsStopsAt(answer: Call -> Option<Error>, username: string, modelAcl: string,
                                              models: seq<string>, overwrite: bool, sent: seq<Call>, n: nat)
    requires n < |models|
    requires forall i :: 0 <= i < n ==> Passes(answer, ModelGrant(username, models[i], modelAcl), overwrite)
    requires !Passes(answer, ModelGrant(username, models[n], modelAcl), overwrite)
    ensures GrantModels(answer, username, modelAcl, models, overwrite, sent) ==
              Grants(sent + Attempts(username, modelAcl, models, n + 1),
                     Raised(answer(ModelGrant(username, models[n], modelAcl)).value))
    decreases n
  {
    var c := ModelGrant(username, models[0], modelAcl);
    if n == 0 {
      assert Attempts(username, modelAcl, models, 1) == [c];
    } else {
      GrantModelsStopsAt(answer, username, modelAcl, models[1..], overwrite, sent + [c], n - 1);
      assert Attempts(username, modelAcl, models, n + 1) ==
             [c] + Attempts(username, modelAcl, models[1..], n);
      assert sent + [c] + Attempts(username, modelAcl, models[1..], n) ==
             sent + ([c] + Attempts(username, modelAcl, models[1..], n));
    }
  }

  /** `execute` grants the mapped controller level once, then the mapped model
      level on each model in order, and returns true, when no grant raises an
      error that is not swallowed. */
  lemma ExecuteGrantsAll(answer: Call -> Option<Error>, username: string, acl: string,
                         models: seq<string>, overwrite: bool)
    requires answer(ControllerGrant(username, GetControllerAcl(acl))).None?
    requires forall i :: 0 <= i < |models| ==>
               Passes(answer, ModelGrant(username, models[i], GetModelAcl(acl)), overwrite)
    ensures ExecuteSpec(answer, username, acl, models, overwrite) ==
              Grants([ControllerGrant(username, GetControllerAcl(acl))] +
                     Attempts(username, GetModelAcl(acl), models, |models|),
                     Returned(true))
  {
    GrantModelsAllPass(answer, username, GetModelAcl(acl), models, overwrite,
                       [ControllerGrant(username, GetControllerAcl(acl))]);
  }

  /** A model grant error that is not swallowed ends `execute` with that error,
      after the controller grant and the model grants up to it; a JujuError is
      swallowed exactly when `overwrite` is set. */
  lemma ExecuteRaisesAt(answer: Call -> Option<Error>, username: string, acl: string,
                        models: seq<string>, overwrite: bool, n: nat)
    requires answer(ControllerGrant(username, GetControllerAcl(acl))).None?
    requires n < |models|
    requires forall i :: 0 <= i < n ==> Passes(answer, ModelGrant(username, models[i], GetModelAcl(acl)), overwrite)
    requires answer(ModelGrant(username, models[n], GetModelAcl(acl))).Some?
    requires !overwrite || !answer(ModelGrant(username, models[n], GetModelAcl(acl))).value.JujuError?
    ensures ExecuteSpec(answer, username, acl, models, overwrite) ==
              Grants([ControllerGrant(username, GetControllerAcl(acl))] +
                     Attempts(username, GetModelAcl(acl), models, n + 1),
                     Raised(answer(ModelGrant(username, models[n], GetModelAcl(acl))).value))
  {
    GrantModelsStopsAt(answer, username, GetModelAcl(acl), models, overwrite,
                       [ControllerGrant(username, GetControllerAcl(acl))], n);
  }

  /** A failing controller grant is raised before any model is touched. */
  lemma ExecuteControllerGrantFails(answer: Call -> Option<Error>, username: string, acl: string,
                                    models: seq<string>, overwrite: bool)
    requires answer(ControllerGrant(username, GetControllerAcl(acl))).Some?
    ensures ExecuteSpec(answer, username, acl, models, overwrite) ==
              Grants([ControllerGrant(username, GetControllerAcl(acl))],
                     Raised(answer(ControllerGrant(username, GetControllerAcl(acl))).value))
  {
  }

  /** With "superuser" and two models whose grants succeed, the user gets
      "superuser" on the controller and "admin" on each model, in order. */
  lemma ExecuteSuperuserExample(answer: Call -> Option<Error>, m1: string, m2: string)
    requires forall c :: answer(c).None?
    ensures ExecuteSpec(answer, "new-user", "superuser", [m1, m2], false) ==
              Grants([ControllerGrant("new-user", "superuser"), ModelGrant("new-user", m1, "admin"),
                      ModelGrant("new-user", m2, "admin")],
                     Returned(true))
  {
    ExecuteGrantsAll(answer, "new-user", "superuser", [m1, m2], false);
  }
}
