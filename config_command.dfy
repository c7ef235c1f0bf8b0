/**
 * The config command of `juju_spell/commands/config.py`: reading and setting
 * the configuration of Juju applications, either of one application named on
 * the command line or of every application named in a configuration file, in
 * every filtered model of a controller.
 *
 * The remote controller is a class holding, per model name, the configuration
 * of each application; `set_config` overrides the given properties and keeps
 * the others. The filtered model names are an input.
 */
module ConfigCommand {
  import opened Wrappers

  type Config = map<string, string>
  type Apps = map<string, Config>
  type Models = map<string, Apps>

  /** `ApplicationConfig` */
  datatype ApplicationConfig = ApplicationConfig(application: string, config: Config)

  // Python truthiness of the optional arguments: None and empty values are false.

  predicate Given(s: Option<string>)
  {
    s.Some? && s.value != ""
  }

  predicate HasProperties(p: Option<Config>)
  {
    p.Some? && p.value != map[]
  }

  predicate HasUpdates(u: Option<seq<ApplicationConfig>>)
  {
    u.Some? && u.value != []
  }

  /** `set_config`: the given properties override the current ones; the others stay. */
  function SetConfigSpec(current: Config, properties: Config): (r: Config)
    ensures r.Keys == current.Keys + properties.Keys
    ensures forall k :: k in properties ==> r[k] == properties[k]
    ensures forall k :: k in current && k !in properties ==> r[k] == current[k]
  {
    current + properties
  }

  /** The applications of a model after an operation, and what it returns. */
  datatype Applied<T> = Applied(apps: Apps, result: T)

  /** `apply_config` on application `app` of a model whose applications are `apps`. */
  function ApplyConfigSpec(apps: Apps, app: string, properties: Option<Config>, singleProperty: Option<string>)
    : (r: Applied<Outcome<Config>>)
    requires app in apps
    ensures r.apps.Keys == apps.Keys && app in r.apps
    ensures forall a :: a in apps && a != app ==> r.apps[a] == apps[a]
    ensures !HasProperties(properties) ==> r.apps == apps
    ensures HasProperties(properties) ==> r.apps[app] == SetConfigSpec(apps[app], properties.value)
    ensures !Given(singleProperty) ==> r.result == Returned(r.apps[app])
    ensures Given(singleProperty) && singleProperty.value in r.apps[app] ==>
              r.result.Returned? && r.result.value.Keys == {singleProperty.value} &&
              r.result.value[singleProperty.value] == r.apps[app][singleProperty.value]
    ensures Given(singleProperty) && singleProperty.value !in r.apps[app] ==>
              r.result == Raised(KeyError(singleProperty.value))
  {
    var apps' := if HasProperties(properties) then apps[app := SetConfigSpec(apps[app], properties.value)] else apps;
    var config := apps'[app];
    if Given(singleProperty) then
      if singleProperty.value in config then Applied(apps', Returned(map[singleProperty.value := config[singleProperty.value]]))
      else Applied(apps', Raised(KeyError(singleProperty.value)))
    else Applied(apps', Returned(config))
  }

  /** The loop of `apply_file_config` over `updates`, with the result `acc` so far. */
  function ApplyFileSpec(apps: Apps, updates: seq<ApplicationConfig>, acc: map<string, Config>)
    : Applied<map<string, Config>>
    decreases |updates|
  {
    if updates == [] then Applied(apps, acc)
    else
      var u := updates[0];
      if u.application !in apps then ApplyFileSpec(apps, updates[1..], acc)
      else
        var apps' := apps[u.application := SetConfigSpec(apps[u.application], u.config)];
        ApplyFileSpec(apps', updates[1..], acc[u.application := apps'[u.application]])
  }

  /** An application named by some update. */
  predicate Named(updates: seq<ApplicationConfig>, a: string)
  {
    exists i :: 0 <= i < |updates| && updates[i].application == a
  }

  /** `apply_file_config` updates the applications of the model named in
      `updates`, skips names the model does not have, and reports, for each
      application it updated, its configuration once all its updates are
      applied; no other application changes. */
  lemma {:induction false} ApplyFileConfigResult(apps: Apps, updates: seq<ApplicationConfig>, acc: map<string, Config>)
    ensures var r := ApplyFileSpec(apps, updates, acc);
      && r.apps.Keys == apps.Keys
      && (forall a :: a in r.result <==> a in acc || (a in apps && Named(updates, a)))
      && (forall a :: a in r.result && a in apps && Named(updates, a) ==> r.result[a] == r.apps[a])
      && (forall a :: a in r.result && !(a in apps && Named(updates, a)) ==> r.result[a] == acc[a])
      && (forall a :: a in apps && !Named(updates, a) ==> r.apps[a] == apps[a])
    decreases |updates|
  {
    if updates != [] {
      var u := updates[0];
      var rest := updates[1..];
      assert forall a :: Named(updates, a) <==> a == u.application || Named(rest, a) by {
        forall a | Named(updates, a)
          ensures a == u.application || Named(rest, a)
        {
          var i :| 0 <= i < |updates| && updates[i].application == a;
          if i > 0 {
            assert rest[i - 1].application == a;
          }
        }
        forall a | Named(rest, a)
          ensures Named(updates, a)
        {
          var i :| 0 <= i < |rest| && rest[i].application == a;
          assert updates[i + 1].application == a;
        }
      }
      if u.application !in apps {
        ApplyFileConfigResult(apps, rest, acc);
      } else {
        var apps' := apps[u.application := SetConfigSpec(apps[u.application], u.config)];
        ApplyFileConfigResult(apps', rest, acc[u.application := apps'[u.application]]);
      }
    }
  }

  /** The options of a config run. */
  datatype Options = Options(
    application: Option<string>,                 // "config-app"
    updates: Option<seq<ApplicationConfig>>,     // "config-file"
    singleProperty: Option<string>,              // "config-get"
    properties: Option<Config>)                  // "config-set"

  /** The body of the loop of `execute` for one model: its applications after the
      run and the entry reported for it. */
  function ModelConfigSpec(apps: Apps, opts: Options): Applied<Outcome<map<string, Config>>>
  {
    if Given(opts.application) then
      var app := opts.application.value;
      if app in apps then
        var a := ApplyConfigSpec(apps, app, opts.properties, opts.singleProperty);
        match a.result
        case Raised(e) => Applied(a.apps, Raised(e))
        case Returned(config) => Applied(a.apps, Returned(map[app := config]))
      else Applied(apps, Returned(map[]))
    else if HasUpdates(opts.updates) then
      var f := ApplyFileSpec(apps, opts.updates.value, map[]);
      Applied(f.apps, Returned(f.result))
    else Applied(apps, Returned(map[]))
  }

  /** The models after a run and what the run returns or raises. */
  datatype Run = Run(models: Models, outcome: Outcome<map<string, map<string, Config>>>)

  /** The loop of `execute` over the model names `names`, with the output `output` so far. */
  function ExecuteSpec(models: Models, names: seq<string>, opts: Options, output: map<string, map<string, Config>>)
    : (r: Run)
    requires forall i :: 0 <= i < |names| ==> names[i] in models
    ensures r.models.Keys == models.Keys
    decreases |names|
  {
    if names == [] then Run(models, Returned(output))
    else
      var name := names[0];
      var step := ModelConfigSpec(models[name], opts);
      var models' := models[name := step.apps];
      match step.result
      case Raised(e) => Run(models', Raised(e))
      case Returned(config) => ExecuteSpec(models', names[1..], opts, output[name := config])
  }

  /** The remote controller: the configuration of every application of every model. */
  class JujuController {
    var models: Models

    constructor(models: Models)
      ensures this.models == models
    {
      this.models := models;
    }

    /** `Application.set_config` */
    method SetConfig(model: string, app: string, properties: Config)
      requires model in models && app in models[model]
      modifies this
      ensures models == old(models)[model := old(models)[model][app := SetConfigSpec(old(models)[model][app], properties)]]
    {
      models := models[model := models[model][app := SetConfigSpec(models[model][app], properties)]];
    }

    /** `Application.get_config` */
    function GetConfig(model: string, app: string): (r: Config)
      reads this
      requires model in models && app in models[model]
      ensures r == models[model][app]
    {
      models[model][app]
    }
  }

  /** `apply_config` */
  method ApplyConfig(controller: JujuController, model: string, app: string,
                     properties: Option<Config>, singleProperty: Option<string>)
    returns (r: Outcome<Config>)
    requires model in controller.models && app in controller.models[model]
    modifies controller
    ensures controller.models ==
              old(controller.models)[model := ApplyConfigSpec(old(controller.models)[model], app, properties, singleProperty).apps]
    ensures r == ApplyConfigSpec(old(controller.models)[model], app, properties, singleProperty).result
  {
    if HasProperties(properties) {
      controller.SetConfig(model, app, properties.value);
    }
    var config := controller.GetConfig(model, app);
    if Given(singleProperty) {
      if singleProperty.value !in config {
        return Raised(KeyError(singleProperty.value));
      }
      return Returned(map[singleProperty.value := config[singleProperty.value]]);
    }
    return Returned(config);
  }

  /** `apply_file_config` */
  method ApplyFileConfig(controller: JujuController, model: string, updates: seq<ApplicationConfig>)
    returns (config: map<string, Config>)
    requires model in controller.models
    modifies controller
    ensures controller.models == old(controller.models)[model := ApplyFileSpec(old(controller.models)[model], updates, map[]).apps]
    ensures config == ApplyFileSpec(old(controller.models)[model], updates, map[]).result
  {
    ghost var spec := ApplyFileSpec(controller.models[model], updates, map[]);
    ghost var before := controller.models;
    config := map[];
    assert updates[0..] == updates;
    var i := 0;
    while i < |updates|
      invariant 0 <= i <= |updates|
      invariant model in controller.models
      invariant controller.models == before[model := controller.models[model]]
      invariant spec == ApplyFileSpec(controller.models[model], updates[i..], config)
    {
      var update := updates[i];
      assert updates[i..][0] == update && updates[i..][1..] == updates[i + 1..];
      if update.application in controller.models[model] {
        controller.SetConfig(model, update.application, update.config);
        config := config[update.application := controller.GetConfig(model, update.application)];
      }
      i := i + 1;
    }
  }

  /** The body of the loop of `ConfigCommand.execute`, for the model `name`. */
  method ConfigureModel(controller: JujuController, name: string, opts: Options)
    returns (r: Outcome<map<string, Config>>)
    requires name in controller.models
    modifies controller
    ensures controller.models == old(controller.models)[name := ModelConfigSpec(old(controller.models)[name], opts).apps]
    ensures r == ModelConfigSpec(old(controller.models)[name], opts).result
  {
    var config: map<string, Config> := map[];
    if Given(opts.application) {
      var app := opts.application.value;
      if app in controller.models[name] {
        var got := ApplyConfig(controller, name, app, opts.properties, opts.singleProperty);
        if got.Raised? {
          return Raised(got.error);
        }
        config := map[app := got.value];
      }
    } else if HasUpdates(opts.updates) {
      config := ApplyFileConfig(controller, name, opts.updates.value);
    }
    assert controller.models == old(controller.models)[name := controller.models[name]];
    return Returned(config);
  }

  /** `ConfigCommand.execute` against `controller`, over the filtered model names `names`. */
  method Execute(controller: JujuController, names: seq<string>, opts: Options)
    returns (r: Outcome<map<string, map<string, Config>>>)
    requires forall i :: 0 <= i < |names| ==> names[i] in controller.models
    modifies controller
    ensures controller.models == ExecuteSpec(old(controller.models), names, opts, map[]).models
    ensures r == ExecuteSpec(old(controller.models), names, opts, map[]).outcome
  {
    ghost var spec := ExecuteSpec(controller.models, names, opts, map[]);
    ghost var keys := controller.models.Keys;
    var output: map<string, map<string, Config>> := map[];
    assert names[0..] == names;
    var i := 0;
    while i < |names|
      invariant 0 <= i <= |names|
      invariant controller.models.Keys == keys
      invariant forall j :: i <= j < |names| ==> names[j] in controller.models
      invariant spec == ExecuteSpec(controller.models, names[i..], opts, output)
    {
      var name := names[i];
      assert names[i..][0] == name && names[i..][1..] == names[i + 1..];
      var config := ConfigureModel(controller, name, opts);
      if config.Raised? {
        return Raised(config.error);
      }
      output := output[name := config.value];
      i := i + 1;
    }
    return Returned(output);
  }

  /** Every model named gets exactly one entry in the output, and the run
      changes no model it is not given. */
  lemma {:induction false} ExecuteReportsEveryModel(models: Models, names: seq<string>, opts: Options,
                                                    output: map<string, map<string, Config>>)
    requires forall i :: 0 <= i < |names| ==> names[i] in models
    ensures var r := ExecuteSpec(models, names, opts, output);
      && (r.outcome.Returned? ==> r.outcome.value.Keys == output.Keys + set n | n in names)
      && (forall m :: m in models && m !in names ==> r.models[m] == models[m])
    decreases |names|
  {
    if names != [] {
      var name := names[0];
      var step := ModelConfigSpec(models[name], opts);
      assert forall n :: n in names <==> n == name || n in names[1..] by {
        assert names == [name] + names[1..];
      }
      if step.result.Returned? {
        ExecuteReportsEveryModel(models[name := step.apps], names[1..], opts, output[name := step.result.value]);
      }
    }
  }

  /** With neither "config-app" nor "config-file", every model is reported with
      an empty configuration and nothing is set. */
  lemma {:induction false} ExecuteWithoutOptions(models: Models, names: seq<string>, opts: Options,
                                                 output: map<string, map<string, Config>>)
    requires forall i :: 0 <= i < |names| ==> names[i] in models
    requires !Given(opts.application) && !HasUpdates(opts.updates)
    requires forall n :: n in output ==> output[n] == map[]
    ensures var r := ExecuteSpec(models, names, opts, output);
      && r.models == models
      && r.outcome.Returned?
      && r.outcome.value.Keys == output.Keys + (set n | n in names)
      && (forall n :: n in r.outcome.value ==> r.outcome.value[n] == map[])
    decreases |names|
  {
    if names != [] {
      var name := names[0];
      assert models[name := models[name]] == models;
      assert forall n :: n in names <==> n == name || n in names[1..] by {
        assert names == [name] + names[1..];
      }
      assert ModelConfigSpec(models[name], opts) == Applied(models[name], Returned(map[]));
      ExecuteWithoutOptions(models, names[1..], opts, output[name := map[]]);
      assert output[name := map[]].Keys == output.Keys + {name};
    }
  }

  /** "config-app" takes precedence: when it is given, "config-file" makes no difference. */
  lemma {:induction false} ConfigAppTakesPrecedence(models: Models, names: seq<string>, opts: Options,
                                                    output: map<string, map<string, Config>>)
    requires forall i :: 0 <= i < |names| ==> names[i] in models
    requires Given(opts.application)
    ensures ExecuteSpec(models, names, opts, output) == ExecuteSpec(models, names, opts.(updates := None), output)
    decreases |names|
  {
    if names != [] {
      var name := names[0];
      var step := ModelConfigSpec(models[name], opts);
      assert step == ModelConfigSpec(models[name], opts.(updates := None));
      if step.result.Returned? {
        ConfigAppTakesPrecedence(models[name := step.apps], names[1..], opts, output[name := step.result.value]);
      }
    }
  }

  /** The file-configuration example: an update of "hostname" and "cpu" keeps
      "others" and reports the whole resulting configuration. */
  lemma ApplyFileConfigExample()
    ensures var ubuntu := map["hostname" := "test-test", "cpu" := "2", "others" := "ok"];
            var props := map["hostname" := "xxx", "cpu" := "44"];
            ApplyFileSpec(map["ubuntu" := ubuntu], [ApplicationConfig("ubuntu", props)], map[]).result ==
              map["ubuntu" := map["hostname" := "xxx", "cpu" := "44", "others" := "ok"]]
  {
    var ubuntu := map["hostname" := "test-test", "cpu" := "2", "others" := "ok"];
    var props := map["hostname" := "xxx", "cpu" := "44"];
    assert [ApplicationConfig("ubuntu", props)][1..] == [];
    assert SetConfigSpec(ubuntu, props) == map["hostname" := "xxx", "cpu" := "44", "others" := "ok"];
  }
}
