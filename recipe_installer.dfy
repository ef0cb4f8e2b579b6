/** The install orchestrator: the helpers that call one collaborator and decide between
    going on, warning and aborting, the three loops of the install sequence, and the
    sequence itself. Each loop is a method specified by a `Fold` over its list; the whole
    run is the method `Install`, specified by the function `InstallRun`. */
module RecipeInstaller {
  import opened RecipeTypes
  import opened Steps

  // ---------------------------------------------------------------------------------
  // Status reporting: a reporter error is logged and never changes anything else.

  function ReportRecipesAvailable(env: Collaborators, recipes: seq<Recipe>): (es: seq<Event>)
    ensures |es| == 1 || |es| == 2
    ensures es[0] == ReportedAvailable(recipes)
    ensures Unlogged(es) == [ReportedAvailable(recipes)]
    ensures |es| == 2 <==> env.reportRecipesAvailable(recipes).Some?
  {
    match env.reportRecipesAvailable(recipes)
    case Some(err) =>
      var msg := ReportAvailableFailed(err);
      EventThenLog(ReportedAvailable(recipes), msg);
      [ReportedAvailable(recipes), ErrorLogged(msg)]
    case None => [ReportedAvailable(recipes)]
  }

  function ReportRecipeInstalled(env: Collaborators, e: StatusEvent): (es: seq<Event>)
    ensures |es| == 1 || |es| == 2
    ensures es[0] == ReportedInstalled(e)
    ensures Unlogged(es) == [ReportedInstalled(e)]
    ensures StatusReports(es) == [ReportedInstalled(e)] && Executed(es) == []
    ensures forall x :: x in es ==> x.ReportedInstalled? || x.ErrorLogged?
    ensures |es| == 2 <==> env.reportRecipeInstalled(e).Some?
  {
    match env.reportRecipeInstalled(e)
    case Some(err) =>
      var msg := StatusWriteFailed(e.recipe.name, err);
      EventThenLog(ReportedInstalled(e), msg);
      [ReportedInstalled(e), ErrorLogged(msg)]
    case None => [ReportedInstalled(e)]
  }

  function ReportRecipeFailed(env: Collaborators, e: StatusEvent): (es: seq<Event>)
    ensures |es| == 1 || |es| == 2
    ensures es[0] == ReportedFailed(e)
    ensures Unlogged(es) == [ReportedFailed(e)]
    ensures StatusReports(es) == [ReportedFailed(e)] && Executed(es) == []
    ensures forall x :: x in es ==> x.ReportedFailed? || x.ErrorLogged?
    ensures |es| == 2 <==> env.reportRecipeFailed(e).Some?
  {
    match env.reportRecipeFailed(e)
    case Some(err) =>
      var msg := StatusWriteFailed(e.recipe.name, err);
      EventThenLog(ReportedFailed(e), msg);
      [ReportedFailed(e), ErrorLogged(msg)]
    case None => [ReportedFailed(e)]
  }

  // ---------------------------------------------------------------------------------
  // Discovery and recipe acquisition helpers.

  function DiscoverFatal(env: Collaborators): (s: Step<DiscoveryManifest>)
    ensures s.events == [CallDiscover]
    ensures s.flow.Go? <==> env.discover.Ok?
    ensures s.flow.Go? ==> s.flow.value == env.discover.value
    ensures s.flow.Halt? ==> s.flow.stop.Abort?
  {
    var events := [CallDiscover];
    match env.discover
    case Err(err) =>
      Step(events, Halt(Abort(DiscoveryFailed(err))))
    case Ok(m) => Step(events, Go(m))
  }

  function FinalizeRecipe(env: Collaborators, f: RecipeFile): (s: Step<Recipe>)
    ensures s.events == [CallToRecipe(f)]
    ensures s.flow.Go? <==> env.toRecipe(f).Ok?
    ensures s.flow.Go? ==> s.flow.value == env.toRecipe(f).value
    ensures s.flow.Halt? ==> s.flow.stop.Abort?
  {
    match env.toRecipe(f)
    case Err(err) => Step([CallToRecipe(f)], Halt(Abort(FinalizeFailed(f.name, err))))
    case Ok(r) => Step([CallToRecipe(f)], Go(r))
  }

  /** Fetches the recipe file when the path has a URL scheme and loads it from disk otherwise,
      then finalizes it; every failure aborts. */
  function RecipeFromPathFatal(env: Collaborators, path: string): (s: Step<Recipe>)
    ensures var got := if env.hasScheme(path) then env.fetchRecipeFile(path) else env.loadRecipeFile(path);
            var call := if env.hasScheme(path) then CallFetchRecipeFile(path) else CallLoadRecipeFile(path);
            && |s.events| >= 1 && s.events[0] == call
            && (got.Err? ==> s.events == [call] && s.flow.Halt?)
            && (got.Ok? ==> s == Step([call] + FinalizeRecipe(env, got.value).events, FinalizeRecipe(env, got.value).flow))
    ensures s.flow.Halt? ==> s.flow.stop.Abort?
  {
    if env.hasScheme(path) then
      match env.fetchRecipeFile(path)
      case Err(err) => Step([CallFetchRecipeFile(path)], Halt(Abort(FetchFileFailed(path, err))))
      case Ok(f) =>
        var fin := FinalizeRecipe(env, f);
        Step([CallFetchRecipeFile(path)] + fin.events, fin.flow)
    else
      match env.loadRecipeFile(path)
      case Err(err) => Step([CallLoadRecipeFile(path)], Halt(Abort(LoadFileFailed(path, err))))
      case Ok(f) =>
        var fin := FinalizeRecipe(env, f);
        Step([CallLoadRecipeFile(path)] + fin.events, fin.flow)
  }

  function FetchRecommendationsFatal(env: Collaborators, m: Option<DiscoveryManifest>): (s: Step<seq<Recipe>>)
    ensures s.events == [CallFetchRecommendations]
    ensures s.flow.Go? <==> env.fetchRecommendations(m).Ok?
    ensures s.flow.Go? ==> s.flow.value == env.fetchRecommendations(m).value
    ensures s.flow.Halt? ==> s.flow.stop.Abort?
  {
    match env.fetchRecommendations(m)
    case Err(err) =>
      Step([CallFetchRecommendations],
           Halt(Abort(RecommendationsFailed(err))))
    case Ok(recipes) => Step([CallFetchRecommendations], Go(recipes))
  }

  /** Fetches a recipe by name and, on an error or when it is not found, warns and yields no recipe
      (a nil pointer); it never stops the run. */
  function FetchWarn(env: Collaborators, m: Option<DiscoveryManifest>, name: string): (s: Step<Option<Recipe>>)
    ensures s.flow.Go?
    ensures s.flow.value.Some? <==> env.fetchRecipe(m, name).Ok? && env.fetchRecipe(m, name).value.Some?
    ensures s.flow.value.Some? ==> s.flow.value == env.fetchRecipe(m, name).value
    ensures |s.events| >= 1 && s.events[0] == CallFetchRecipe(name)
    ensures s.flow.value.Some? ==> s.events == [CallFetchRecipe(name)]
    ensures s.flow.value.None? ==> |s.events| == 2 && s.events[1].Warned?
  {
    match env.fetchRecipe(m, name)
    case Err(err) =>
      Step([CallFetchRecipe(name), Warned(RetrieveFailed(name, err))], Go(None))
    case Ok(None) =>
      Step([CallFetchRecipe(name), Warned(NotFoundSkipping(name))], Go(None))
    case Ok(Some(r)) => Step([CallFetchRecipe(name)], Go(Some(r)))
  }

  /** Fetches a recipe by name and aborts on an error and on "not found". */
  function FetchFatal(env: Collaborators, m: Option<DiscoveryManifest>, name: string): (s: Step<Recipe>)
    ensures s.events == [CallFetchRecipe(name)]
    ensures s.flow.Go? <==> env.fetchRecipe(m, name).Ok? && env.fetchRecipe(m, name).value.Some?
    ensures s.flow.Go? ==> Some(s.flow.value) == env.fetchRecipe(m, name).value
    ensures s.flow.Halt? ==> s.flow.stop.Abort?
  {
    match env.fetchRecipe(m, name)
    case Err(err) =>
      Step([CallFetchRecipe(name)], Halt(Abort(RetrieveFailed(name, err))))
    case Ok(None) => Step([CallFetchRecipe(name)], Halt(Abort(NotFound(name))))
    case Ok(Some(r)) => Step([CallFetchRecipe(name)], Go(r))
  }

  // ---------------------------------------------------------------------------------
  // Execute and validate.

  /** The `(bool, error)` pair returned by `executeAndValidate`. */
  datatype Verdict = Verdict(ok: bool, err: Option<Msg>)

  /** What execute-and-validate may emit: executor and validator calls, status reports and logged
      reporter errors. */
  predicate IsExecutionEvent(e: Event)
  {
    e.CallExecute? || e.CallValidate? || e.ReportedInstalled? || e.ReportedFailed? || e.ErrorLogged?
  }

  /** The part of execute-and-validate after a successful execute: validate when the recipe has
      a validation query and report the outcome; with no query, nothing is called or reported. */
  function ValidateAndReport(env: Collaborators, man: DiscoveryManifest, r: Recipe): (s: Step<Verdict>)
    ensures s.flow.Go?
    ensures CallValidate(r) in s.events <==> r.validationNRQL != ""
    ensures r.validationNRQL == "" ==> s == Step([], Go(Verdict(true, None)))
    ensures r.validationNRQL != "" && env.validate(man, r).Err? ==>
              var msg := ValidateFailed(r.name, env.validate(man, r).error);
              s.flow.value == Verdict(false, Some(msg)) &&
              StatusReports(s.events) == [ReportedFailed(StatusEvent(r, Some(msg), ""))]
    ensures r.validationNRQL != "" && env.validate(man, r).Ok? && !env.validate(man, r).value.ok ==>
              s.flow.value == Verdict(false, None) &&
              StatusReports(s.events) ==
                [ReportedFailed(StatusEvent(r, Some(NotValidated), env.validate(man, r).value.entityGuid))]
    ensures r.validationNRQL != "" && env.validate(man, r).Ok? && env.validate(man, r).value.ok ==>
              s.flow.value == Verdict(true, None) &&
              StatusReports(s.events) ==
                [ReportedInstalled(StatusEvent(r, None, env.validate(man, r).value.entityGuid))]
    ensures Executed(s.events) == []
    ensures forall e :: e in s.events ==> IsExecutionEvent(e)
  {
    if r.validationNRQL == "" then Step([], Go(Verdict(true, None)))
    else
      match env.validate(man, r)
      case Err(err) =>
        var msg := ValidateFailed(r.name, err);
        Step([CallValidate(r)] + ReportRecipeFailed(env, StatusEvent(r, Some(msg), "")), Go(Verdict(false, Some(msg))))
      case Ok(v) =>
        if !v.ok then
          Step([CallValidate(r)] + ReportRecipeFailed(env, StatusEvent(r, Some(NotValidated), v.entityGuid)),
               Go(Verdict(false, None)))
        else
          Step([CallValidate(r)] + ReportRecipeInstalled(env, StatusEvent(r, None, v.entityGuid)),
               Go(Verdict(true, None)))
  }

  /** Executes the recipe, then validates it when it has a validation query, and reports at most
      one status event. A missing manifest is dereferenced before anything is called. */
  function ExecuteAndValidate(env: Collaborators, m: Option<DiscoveryManifest>, r: Recipe): (s: Step<Verdict>)
    // no manifest: a panic before any call
    ensures m.None? <==> s.flow.Halt?
    ensures m.None? ==> s == Step([], Halt(Panic(NilManifest)))
    // the executor is called first, exactly once, with this recipe
    ensures m.Some? ==> |s.events| >= 1 && s.events[0] == CallExecute(r) && Executed(s.events) == [r]
    // the validator is called exactly when execution succeeded and the query is non-empty
    ensures CallValidate(r) in s.events <==>
              m.Some? && env.execute(m.value, r).None? && r.validationNRQL != ""
    // execute error: one failed event with the message and no entity id; (false, error)
    ensures m.Some? && env.execute(m.value, r).Some? ==>
              var msg := ExecuteFailed(r.name, env.execute(m.value, r).value);
              s.flow.value == Verdict(false, Some(msg)) &&
              StatusReports(s.events) == [ReportedFailed(StatusEvent(r, Some(msg), ""))]
    // empty query: (true, nil) and no status event
    ensures m.Some? && env.execute(m.value, r).None? && r.validationNRQL == "" ==>
              s == Step([CallExecute(r)], Go(Verdict(true, None)))
    // validator error: one failed event with the message and no entity id; (false, error)
    ensures m.Some? && env.execute(m.value, r).None? && r.validationNRQL != "" &&
            env.validate(m.value, r).Err? ==>
              var msg := ValidateFailed(r.name, env.validate(m.value, r).error);
              s.flow.value == Verdict(false, Some(msg)) &&
              StatusReports(s.events) == [ReportedFailed(StatusEvent(r, Some(msg), ""))]
    // not confirmed: one failed event with the standard message and the returned id; (false, nil)
    ensures m.Some? && env.execute(m.value, r).None? && r.validationNRQL != "" &&
            env.validate(m.value, r).Ok? && !env.validate(m.value, r).value.ok ==>
              s.flow.value == Verdict(false, None) &&
              StatusReports(s.events) ==
                [ReportedFailed(StatusEvent(r, Some(NotValidated), env.validate(m.value, r).value.entityGuid))]
    // confirmed: one installed event with no message and the returned id; (true, nil)
    ensures m.Some? && env.execute(m.value, r).None? && r.validationNRQL != "" &&
            env.validate(m.value, r).Ok? && env.validate(m.value, r).value.ok ==>
              s.flow.value == Verdict(true, None) &&
              StatusReports(s.events) ==
                [ReportedInstalled(StatusEvent(r, None, env.validate(m.value, r).value.entityGuid))]
    // an error always comes with a negative verdict
    ensures s.flow.Go? && s.flow.value.err.Some? ==> !s.flow.value.ok
    // only the executor and validator calls, status reports and logged reporter errors
    ensures forall e :: e in s.events ==> IsExecutionEvent(e)
  {
    if m.None? then Step([], Halt(Panic(NilManifest)))
    else
      match env.execute(m.value, r)
      case Some(err) =>
        var msg := ExecuteFailed(r.name, err);
        Step([CallExecute(r)] + ReportRecipeFailed(env, StatusEvent(r, Some(msg), "")), Go(Verdict(false, Some(msg))))
      case None =>
        var v := ValidateAndReport(env, m.value, r);
        Step([CallExecute(r)] + v.events, v.flow)
  }

  /** Execute and validate, aborting with a message on an error or an unconfirmed validation. */
  function ExecuteAndValidateFatal(env: Collaborators, m: Option<DiscoveryManifest>, r: Recipe): (s: Step<()>)
    ensures s.events == ExecuteAndValidate(env, m, r).events
    ensures s.flow.Go? <==> ExecuteAndValidate(env, m, r).flow == Go(Verdict(true, None))
    ensures s.flow.Halt? ==> (s.flow.stop.Panic? <==> m.None?)
  {
    var eav := ExecuteAndValidate(env, m, r);
    if eav.flow.Halt? then Step(eav.events, Halt(eav.flow.stop))
    else if eav.flow.value.err.Some? then
      Step(eav.events, Halt(Abort(InstallFailed(r.name, eav.flow.value.err.value))))
    else if !eav.flow.value.ok then
      Step(eav.events, Halt(Abort(NoDataDetected(r.name))))
    else Step(eav.events, Go(()))
  }

  /** The warnings for a verdict: one for an error, one for a recipe whose data was not seen. */
  function VerdictWarnings(r: Recipe, v: Verdict): (ws: seq<Event>)
    ensures forall e :: e in ws ==> e.Warned?
    ensures Executed(ws) == []
    ensures |ws| == (if v.err.Some? then 1 else 0) + (if v.ok then 0 else 1)
  {
    var w1 := if v.err.Some? then [Warned(InstallFailed(r.name, v.err.value))] else [];
    var w2 := if !v.ok then [Warned(NoDataDetected(r.name))] else [];
    ExecutedNone(w1 + w2);
    w1 + w2
  }

  /** Execute and validate, only warning on an error or an unconfirmed validation. */
  function ExecuteAndValidateWarn(env: Collaborators, m: Option<DiscoveryManifest>, r: Recipe): (s: Step<()>)
    ensures s.flow.Go? <==> m.Some?
    ensures m.Some? ==> Executed(s.events) == [r]
    ensures s.flow.Halt? ==> s == Step([], Halt(Panic(NilManifest)))
    ensures m.Some? ==>
              var eav := ExecuteAndValidate(env, m, r);
              && |eav.events| <= |s.events|
              && s.events[..|eav.events|] == eav.events
              && (forall e :: e in s.events[|eav.events|..] ==> e.Warned?)
              && (|s.events| > |eav.events| <==> !eav.flow.value.ok)
  {
    var eav := ExecuteAndValidate(env, m, r);
    if eav.flow.Halt? then Step(eav.events, Halt(eav.flow.stop))
    else
      var ws := VerdictWarnings(r, eav.flow.value);
      assert (eav.events + ws)[..|eav.events|] == eav.events;
      assert (eav.events + ws)[|eav.events|..] == ws;
      ExecutedAppend(eav.events, ws);
      Step(eav.events + ws, Go(()))
  }

  function FetchExecuteAndValidateFatal(env: Collaborators, m: Option<DiscoveryManifest>, name: string): (s: Step<()>)
    ensures |s.events| >= 1 && s.events[0] == CallFetchRecipe(name)
    ensures s.flow.Go? ==>
              (env.fetchRecipe(m, name).Ok? && env.fetchRecipe(m, name).value.Some? &&
               ExecuteAndValidate(env, m, env.fetchRecipe(m, name).value.value).flow == Go(Verdict(true, None)))
    ensures FetchFatal(env, m, name).flow.Halt? ==>
              s == Step([CallFetchRecipe(name)], Halt(FetchFatal(env, m, name).flow.stop))
  {
    var f := FetchFatal(env, m, name);
    if f.flow.Halt? then Step(f.events, Halt(f.flow.stop))
    else
      var x := ExecuteAndValidateFatal(env, m, f.flow.value);
      Step(f.events + x.events, x.flow)
  }

  function InstallInfraAgentFatal(env: Collaborators, m: Option<DiscoveryManifest>): (s: Step<()>)
    ensures |s.events| >= 1 && s.events[0] == CallFetchRecipe(InfraAgentRecipeName)
    ensures s.flow.Go? ==>
              env.fetchRecipe(m, InfraAgentRecipeName).Ok? && env.fetchRecipe(m, InfraAgentRecipeName).value.Some? &&
              Executed(s.events) == [env.fetchRecipe(m, InfraAgentRecipeName).value.value]
  {
    var s := FetchExecuteAndValidateFatal(env, m, InfraAgentRecipeName);
    if s.flow.Go? then
      var r := env.fetchRecipe(m, InfraAgentRecipeName).value.value;
      ExecutedAppend([CallFetchRecipe(InfraAgentRecipeName)], ExecuteAndValidate(env, m, r).events);
      s
    else s
  }

  /** Fetch, execute and validate is fatal: it goes on exactly when the recipe is found and its
      verdict is (true, nil), and with a manifest every failure is an abort, never a panic. A found
      recipe is executed once after its fetch, whether or not it then fails. */
  lemma FetchExecuteAndValidateIsFatal(env: Collaborators, m: Option<DiscoveryManifest>, name: string)
    ensures var s := FetchExecuteAndValidateFatal(env, m, name);
            && (s.flow.Go? <==>
                  env.fetchRecipe(m, name).Ok? && env.fetchRecipe(m, name).value.Some? &&
                  ExecuteAndValidate(env, m, env.fetchRecipe(m, name).value.value).flow == Go(Verdict(true, None)))
            && (m.Some? && s.flow.Halt? ==> s.flow.stop.Abort?)
            && (env.fetchRecipe(m, name).Ok? && env.fetchRecipe(m, name).value.Some? ==>
                  s.events == [CallFetchRecipe(name)] +
                                ExecuteAndValidate(env, m, env.fetchRecipe(m, name).value.value).events)
  {
  }

  /** The infrastructure agent phase is fatal in the same way, for the agent's recipe name. */
  lemma InfraAgentIsFatal(env: Collaborators, m: Option<DiscoveryManifest>)
    ensures var s := InstallInfraAgentFatal(env, m);
            && (s.flow.Go? <==>
                  env.fetchRecipe(m, InfraAgentRecipeName).Ok? && env.fetchRecipe(m, InfraAgentRecipeName).value.Some? &&
                  ExecuteAndValidate(env, m, env.fetchRecipe(m, InfraAgentRecipeName).value.value).flow ==
                    Go(Verdict(true, None)))
            && (m.Some? && s.flow.Halt? ==> s.flow.stop.Abort?)
            && (env.fetchRecipe(m, InfraAgentRecipeName).Ok? && env.fetchRecipe(m, InfraAgentRecipeName).value.Some? ==>
                  s.events == [CallFetchRecipe(InfraAgentRecipeName)] +
                                ExecuteAndValidate(env, m, env.fetchRecipe(m, InfraAgentRecipeName).value.value).events)
  {
    FetchExecuteAndValidateIsFatal(env, m, InfraAgentRecipeName);
  }

  // ---------------------------------------------------------------------------------
  // Log-file consent.

  /** Asks the operator about one match; a prompt error is logged and counts as "No". */
  function UserAcceptLogFile(env: Collaborators, lm: LogMatch): (s: Step<bool>)
    ensures s.flow.Go?
    ensures s.flow.value <==> env.prompt(lm) == ChoseYes
    ensures 1 <= |s.events| <= 2 && s.events[0] == CallPrompt(lm)
    ensures |s.events| == 2 <==> env.prompt(lm).PromptFailed?
  {
    match env.prompt(lm)
    case PromptFailed(err) => Step([CallPrompt(lm), ErrorLogged(PromptError(err))], Go(false))
    case ChoseYes => Step([CallPrompt(lm)], Go(true))
    case ChoseNo => Step([CallPrompt(lm)], Go(false))
  }

  /** The matches the operator accepted, in their original order (the reference for the consent loop). */
  function AcceptedMatches(matches: seq<LogMatch>, prompt: LogMatch -> PromptResult): seq<LogMatch>
    decreases |matches|
  {
    if matches == [] then []
    else
      var init := AcceptedMatches(matches[..|matches| - 1], prompt);
      var last := matches[|matches| - 1];
      if prompt(last) == ChoseYes then init + [last] else init
  }

  // ---------------------------------------------------------------------------------
  // The steps of the loops.

  function PathStep(env: Collaborators, path: string): Step<seq<Recipe>>
  {
    var s := RecipeFromPathFatal(env, path);
    Step(s.events, if s.flow.Halt? then Halt(s.flow.stop) else Go([s.flow.value]))
  }

  function PathStepFn(env: Collaborators): string -> Step<seq<Recipe>>
  {
    p => PathStep(env, p)
  }

  /** A name fetched with `FetchWarn` and then dereferenced: a missing recipe panics. */
  function NameStep(env: Collaborators, m: Option<DiscoveryManifest>, name: string): Step<seq<Recipe>>
  {
    var s := FetchWarn(env, m, name);
    Step(s.events, if s.flow.value.None? then Halt(Panic(NilRecipe(name))) else Go([s.flow.value.value]))
  }

  function NameStepFn(env: Collaborators, m: Option<DiscoveryManifest>): string -> Step<seq<Recipe>>
  {
    n => NameStep(env, m, n)
  }

  function AcceptStep(env: Collaborators, lm: LogMatch): Step<seq<LogMatch>>
  {
    var s := UserAcceptLogFile(env, lm);
    Step(s.events, Go(if s.flow.value then [lm] else []))
  }

  function AcceptStepFn(env: Collaborators): LogMatch -> Step<seq<LogMatch>>
  {
    lm => AcceptStep(env, lm)
  }

  function IntegrationStep(env: Collaborators, m: Option<DiscoveryManifest>, r: Recipe): Step<seq<()>>
  {
    var s := ExecuteAndValidateWarn(env, m, r);
    Step(s.events, if s.flow.Halt? then Halt(s.flow.stop) else Go([]))
  }

  function IntegrationStepFn(env: Collaborators, m: Option<DiscoveryManifest>): Recipe -> Step<seq<()>>
  {
    r => IntegrationStep(env, m, r)
  }

  // ---------------------------------------------------------------------------------
  // The loops.

  /** Loads every path's recipe in order, aborting at the first failure. */
  method LoadRecipesFromPaths(env: Collaborators, paths: seq<string>) returns (s: Step<seq<Recipe>>)
    ensures s == Fold(paths, PathStepFn(env))
  {
    var events: seq<Event> := [];
    var recipes: seq<Recipe> := [];
    for i := 0 to |paths|
      invariant Fold(paths[..i], PathStepFn(env)) == Step(events, Go(recipes))
    {
      FoldSnoc(paths[..i], paths[i], PathStepFn(env));
      assert paths[..i] + [paths[i]] == paths[..i + 1];
      var r := RecipeFromPathFatal(env, paths[i]);
      events := events + r.events;
      if r.flow.Halt? {
        FoldHaltPersists(paths, i + 1, PathStepFn(env));
        return Step(events, Halt(r.flow.stop));
      }
      recipes := recipes + [r.flow.value];
    }
    assert paths[..|paths|] == paths;
    s := Step(events, Go(recipes));
  }

  /** Fetches every name's recipe in order and appends the fetched value; as written, the value of a
      failed or missing fetch is a nil pointer, so the append panics. */
  method FetchRecipesByName(env: Collaborators, m: Option<DiscoveryManifest>, names: seq<string>)
    returns (s: Step<seq<Recipe>>)
    ensures s == Fold(names, NameStepFn(env, m))
  {
    var events: seq<Event> := [];
    var recipes: seq<Recipe> := [];
    for i := 0 to |names|
      invariant Fold(names[..i], NameStepFn(env, m)) == Step(events, Go(recipes))
    {
      FoldSnoc(names[..i], names[i], NameStepFn(env, m));
      assert names[..i] + [names[i]] == names[..i + 1];
      var r := FetchWarn(env, m, names[i]);
      events := events + r.events;
      if r.flow.value.None? {
        FoldHaltPersists(names, i + 1, NameStepFn(env, m));
        return Step(events, Halt(Panic(NilRecipe(names[i]))));
      }
      recipes := recipes + [r.flow.value.value];
    }
    assert names[..|names|] == names;
    s := Step(events, Go(recipes));
  }

  /** The integrations loop's step is the warn-only execute-and-validate, yielding no value. */
  lemma IntegrationStepIsWarn(env: Collaborators, m: Option<DiscoveryManifest>, r: Recipe)
    ensures var w := ExecuteAndValidateWarn(env, m, r);
            IntegrationStepFn(env, m)(r) == Step(w.events, if w.flow.Halt? then Halt(w.flow.stop) else Go([]))
  {
  }

  /** Executes and validates every recipe in order, warning on failures. */
  method InstallIntegrations(env: Collaborators, m: Option<DiscoveryManifest>, recipes: seq<Recipe>)
    returns (s: Step<seq<()>>)
    ensures s == Fold(recipes, IntegrationStepFn(env, m))
  {
    var events: seq<Event> := [];
    for i := 0 to |recipes|
      invariant Fold(recipes[..i], IntegrationStepFn(env, m)) == Step(events, Go([]))
    {
      var w := ExecuteAndValidateWarn(env, m, recipes[i]);
      IntegrationStepIsWarn(env, m, recipes[i]);
      FoldAdvance(recipes, i, IntegrationStepFn(env, m), events, []);
      events := events + w.events;
      if w.flow.Halt? {
        return Step(events, Halt(w.flow.stop));
      }
    }
    assert recipes[..|recipes|] == recipes;
    s := Step(events, Go([]));
  }

  /** The consent loop keeps exactly the matches answered "Yes", in order, and never stops the run. */
  lemma {:induction false} ConsentLoopAccepts(env: Collaborators, matches: seq<LogMatch>)
    ensures Fold(matches, AcceptStepFn(env)).flow == Go(AcceptedMatches(matches, env.prompt))
    decreases |matches|
  {
    if matches != [] {
      var init := matches[..|matches| - 1];
      ConsentLoopAccepts(env, init);
      assert AcceptedMatches(init, env.prompt) + [] == AcceptedMatches(init, env.prompt);
    }
  }

  /** The logging phase: fetch the logging recipe (fatal), filter the acquired recipes for log files
      (fatal), ask about each match, inject the accepted ones and execute and validate (fatal). */
  function InstallLoggingRun(env: Collaborators, m: Option<DiscoveryManifest>, recipes: seq<Recipe>): Step<()>
  {
    var f := FetchFatal(env, m, LoggingRecipeName);
    if f.flow.Halt? then Step(f.events, Halt(f.flow.stop))
    else
      var pre := f.events + [CallFilter(recipes)];
      match env.filter(recipes)
      case Err(err) => Step(pre, Halt(Abort(FilterFailed(err))))
      case Ok(matches) =>
        var consent := Fold(matches, AcceptStepFn(env));
        ConsentLoopAccepts(env, matches);
        var r := AddVar(f.flow.value, DiscoveredLogFilesVar, LoggingConfig(consent.flow.value));
        var x := ExecuteAndValidateFatal(env, m, r);
        Step(pre + consent.events + x.events, x.flow)
  }

  method InstallLoggingFatal(env: Collaborators, m: Option<DiscoveryManifest>, recipes: seq<Recipe>)
    returns (s: Step<()>)
    ensures s == InstallLoggingRun(env, m, recipes)
  {
    var f := FetchFatal(env, m, LoggingRecipeName);
    if f.flow.Halt? {
      return Step(f.events, Halt(f.flow.stop));
    }
    var events := f.events + [CallFilter(recipes)];
    var filtered := env.filter(recipes);
    if filtered.Err? {
      return Step(events, Halt(Abort(FilterFailed(filtered.error))));
    }
    var matches := filtered.value;
    var consentEvents: seq<Event> := [];
    var accepted: seq<LogMatch> := [];
    for i := 0 to |matches|
      invariant Fold(matches[..i], AcceptStepFn(env)) == Step(consentEvents, Go(accepted))
    {
      FoldSnoc(matches[..i], matches[i], AcceptStepFn(env));
      assert matches[..i] + [matches[i]] == matches[..i + 1];
      var answer := UserAcceptLogFile(env, matches[i]);
      consentEvents := consentEvents + answer.events;
      if answer.flow.value {
        accepted := accepted + [matches[i]];
      } else {
        assert accepted + [] == accepted;
      }
    }
    assert matches[..|matches|] == matches;
    var r := AddVar(f.flow.value, DiscoveredLogFilesVar, LoggingConfig(accepted));
    var x := ExecuteAndValidateFatal(env, m, r);
    s := Step(events + consentEvents + x.events, x.flow);
  }

  // ---------------------------------------------------------------------------------
  // The install sequence.

  /** How a run ends: the success banner, or a stop in some phase. */
  datatype Outcome = Succeeded | Stopped(phase: Phase, stop: Stop)

  /** What a run did, in order, and how it ended. */
  datatype Run = Run(trace: seq<Entry>, outcome: Outcome)

  function DiscoveryRun(inst: Installer): Step<Option<DiscoveryManifest>>
  {
    if ShouldRunDiscovery(inst.ctx) then
      var d := DiscoverFatal(inst.env);
      Step(d.events, if d.flow.Halt? then Halt(d.flow.stop) else Go(Some(d.flow.value)))
    else Step([], Go(None))
  }

  function AcquisitionRun(inst: Installer, m: Option<DiscoveryManifest>): Step<seq<Recipe>>
  {
    match Mode(inst.ctx)
    case FromPaths => Fold(inst.ctx.recipePaths, PathStepFn(inst.env))
    case ByName => Fold(inst.ctx.recipeNames, NameStepFn(inst.env, m))
    case Recommended =>
      var rec := FetchRecommendationsFatal(inst.env, m);
      if rec.flow.Halt? then rec
      else Step(rec.events + ReportRecipesAvailable(inst.env, rec.flow.value), rec.flow)
  }

  function InfraRun(inst: Installer, m: Option<DiscoveryManifest>): Step<()>
  {
    if ShouldInstallInfraAgent(inst.ctx) then InstallInfraAgentFatal(inst.env, m) else Step([], Go(()))
  }

  function LoggingRun(inst: Installer, m: Option<DiscoveryManifest>, recipes: seq<Recipe>): Step<()>
  {
    if ShouldInstallLogging(inst.ctx) then InstallLoggingRun(inst.env, m, recipes) else Step([], Go(()))
  }

  function IntegrationsRun(inst: Installer, m: Option<DiscoveryManifest>, recipes: seq<Recipe>): Step<seq<()>>
  {
    if ShouldInstallIntegrations(inst.ctx) then Fold(recipes, IntegrationStepFn(inst.env, m))
    else Step([], Go([]))
  }

  /** The whole run: the phases in order, each tagged with its phase, up to the first stop. */
  function InstallRun(inst: Installer): Run
  {
    var d := DiscoveryRun(inst);
    var t1 := Tag(Discovery, d.events);
    if d.flow.Halt? then Run(t1, Stopped(Discovery, d.flow.stop)) else
    var m := d.flow.value;
    var a := AcquisitionRun(inst, m);
    var t2 := t1 + Tag(Acquisition, a.events);
    if a.flow.Halt? then Run(t2, Stopped(Acquisition, a.flow.stop)) else
    var recipes := a.flow.value;
    var i := InfraRun(inst, m);
    var t3 := t2 + Tag(InfraAgent, i.events);
    if i.flow.Halt? then Run(t3, Stopped(InfraAgent, i.flow.stop)) else
    var l := LoggingRun(inst, m, recipes);
    var t4 := t3 + Tag(Logging, l.events);
    if l.flow.Halt? then Run(t4, Stopped(Logging, l.flow.stop)) else
    var g := IntegrationsRun(inst, m, recipes);
    var t5 := t4 + Tag(Integrations, g.events);
    if g.flow.Halt? then Run(t5, Stopped(Integrations, g.flow.stop)) else
    Run(t5, Succeeded)
  }

  /** Recipe acquisition: load the paths if any were given, else fetch the names if any were
      given, else fetch the recommendations and report them as available. */
  method AcquireRecipes(inst: Installer, m: Option<DiscoveryManifest>) returns (acquired: Step<seq<Recipe>>)
    ensures acquired == AcquisitionRun(inst, m)
  {
    var ctx, env := inst.ctx, inst.env;
    if RecipePathsProvided(ctx) {
      acquired := LoadRecipesFromPaths(env, ctx.recipePaths);
    } else if RecipeNamesProvided(ctx) {
      acquired := FetchRecipesByName(env, m, ctx.recipeNames);
    } else {
      acquired := FetchRecommendationsFatal(env, m);
      if acquired.flow.Go? {
        acquired := Step(acquired.events + ReportRecipesAvailable(env, acquired.flow.value), acquired.flow);
      }
    }
  }

  method Install(inst: Installer) returns (trace: seq<Entry>, outcome: Outcome)
    ensures Run(trace, outcome) == InstallRun(inst)
  {
    var ctx, env := inst.ctx, inst.env;

    // Discovery, exiting on failure.
    var discovered: Step<Option<DiscoveryManifest>> := Step([], Go(None));
    if ShouldRunDiscovery(ctx) {
      var d := DiscoverFatal(env);
      discovered := Step(d.events, if d.flow.Halt? then Halt(d.flow.stop) else Go(Some(d.flow.value)));
    }
    assert discovered == DiscoveryRun(inst);
    trace := Tag(Discovery, discovered.events);
    if discovered.flow.Halt? {
      return trace, Stopped(Discovery, discovered.flow.stop);
    }
    var m := discovered.flow.value;

    // Recipe acquisition: paths, else names, else recommendations.
    var acquired := AcquireRecipes(inst, m);
    trace := trace + Tag(Acquisition, acquired.events);
    if acquired.flow.Halt? {
      return trace, Stopped(Acquisition, acquired.flow.stop);
    }
    var recipes := acquired.flow.value;

    // The infrastructure agent, exiting on failure.
    var infra: Step<()> := Step([], Go(()));
    if ShouldInstallInfraAgent(ctx) {
      infra := InstallInfraAgentFatal(env, m);
    }
    assert infra == InfraRun(inst, m);
    trace := trace + Tag(InfraAgent, infra.events);
    if infra.flow.Halt? {
      return trace, Stopped(InfraAgent, infra.flow.stop);
    }

    // The logging recipe, exiting on failure.
    var logging: Step<()> := Step([], Go(()));
    if ShouldInstallLogging(ctx) {
      logging := InstallLoggingFatal(env, m, recipes);
    }
    assert logging == LoggingRun(inst, m, recipes);
    trace := trace + Tag(Logging, logging.events);
    if logging.flow.Halt? {
      return trace, Stopped(Logging, logging.flow.stop);
    }

    // Integrations, continuing on failure with warnings.
    var integrations: Step<seq<()>> := Step([], Go([]));
    if ShouldInstallIntegrations(ctx) {
      integrations := InstallIntegrations(env, m, recipes);
    }
    assert integrations == IntegrationsRun(inst, m, recipes);
    trace := trace + Tag(Integrations, integrations.events);
    if integrations.flow.Halt? {
      return trace, Stopped(Integrations, integrations.flow.stop);
    }
    outcome := Succeeded;
  }
}
