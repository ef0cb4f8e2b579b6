/** Properties of the install orchestrator, stated about the functions that specify it. */
module InstallerProperties {
  import opened RecipeTypes
  import opened Steps
  import opened RecipeInstaller

  // ---------------------------------------------------------------------------------
  // A run as a chain of phase steps.

  /** The manifest later phases see: the discovered one, or nil when discovery was skipped. */
  function ManifestOf(d: Step<Option<DiscoveryManifest>>): Option<DiscoveryManifest>
  {
    if d.flow.Go? then d.flow.value else None
  }

  /** The acquired recipes later phases see. */
  function RecipesOf(a: Step<seq<Recipe>>): seq<Recipe>
  {
    if a.flow.Go? then a.flow.value else []
  }

  /** A run assembled from the steps its five phases take, up to the first that stops. */
  function Chain(d: Step<Option<DiscoveryManifest>>, a: Step<seq<Recipe>>, i: Step<()>, l: Step<()>,
                 g: Step<seq<()>>): Run
  {
    var t1 := Tag(Discovery, d.events);
    if d.flow.Halt? then Run(t1, Stopped(Discovery, d.flow.stop)) else
    var t2 := t1 + Tag(Acquisition, a.events);
    if a.flow.Halt? then Run(t2, Stopped(Acquisition, a.flow.stop)) else
    var t3 := t2 + Tag(InfraAgent, i.events);
    if i.flow.Halt? then Run(t3, Stopped(InfraAgent, i.flow.stop)) else
    var t4 := t3 + Tag(Logging, l.events);
    if l.flow.Halt? then Run(t4, Stopped(Logging, l.flow.stop)) else
    var t5 := t4 + Tag(Integrations, g.events);
    if g.flow.Halt? then Run(t5, Stopped(Integrations, g.flow.stop)) else
    Run(t5, Succeeded)
  }

  /** The phases of a run, given its installer. */
  function DiscoveryOf(inst: Installer): Step<Option<DiscoveryManifest>> { DiscoveryRun(inst) }
  function AcquisitionOf(inst: Installer): Step<seq<Recipe>> { AcquisitionRun(inst, ManifestOf(DiscoveryOf(inst))) }
  function InfraOf(inst: Installer): Step<()> { InfraRun(inst, ManifestOf(DiscoveryOf(inst))) }
  function LoggingOf(inst: Installer): Step<()>
  {
    LoggingRun(inst, ManifestOf(DiscoveryOf(inst)), RecipesOf(AcquisitionOf(inst)))
  }
  function IntegrationsOf(inst: Installer): Step<seq<()>>
  {
    IntegrationsRun(inst, ManifestOf(DiscoveryOf(inst)), RecipesOf(AcquisitionOf(inst)))
  }

  /** The run is the chain of its phases. */
  lemma RunIsChain(inst: Installer)
    ensures InstallRun(inst) ==
              Chain(DiscoveryOf(inst), AcquisitionOf(inst), InfraOf(inst), LoggingOf(inst), IntegrationsOf(inst))
  {
  }

  /** An entry of the chain is an event of one of its phases, tagged with that phase. */
  lemma InChain(d: Step<Option<DiscoveryManifest>>, a: Step<seq<Recipe>>, i: Step<()>, l: Step<()>,
                g: Step<seq<()>>, x: Entry)
    requires x in Chain(d, a, i, l, g).trace
    ensures || (x.phase == Discovery && x.event in d.events)
            || (x.phase == Acquisition && x.event in a.events)
            || (x.phase == InfraAgent && x.event in i.events)
            || (x.phase == Logging && x.event in l.events)
            || (x.phase == Integrations && x.event in g.events)
  {
      InTag(Discovery, d.events, x);
      InTag(Acquisition, a.events, x);
      InTag(InfraAgent, i.events, x);
      InTag(Logging, l.events, x);
      InTag(Integrations, g.events, x);
  }

  /** Whatever holds of every phase's events holds of every entry of the chain. */
  lemma ChainEntries(d: Step<Option<DiscoveryManifest>>, a: Step<seq<Recipe>>, i: Step<()>, l: Step<()>,
                     g: Step<seq<()>>, P: (Phase, Event) -> bool)
    requires forall e :: e in d.events ==> P(Discovery, e)
    requires forall e :: e in a.events ==> P(Acquisition, e)
    requires forall e :: e in i.events ==> P(InfraAgent, e)
    requires forall e :: e in l.events ==> P(Logging, e)
    requires forall e :: e in g.events ==> P(Integrations, e)
    ensures forall x :: x in Chain(d, a, i, l, g).trace ==> P(x.phase, x.event)
  {
    forall x | x in Chain(d, a, i, l, g).trace ensures P(x.phase, x.event) {
      InChain(d, a, i, l, g, x);
    }
  }

  // ---------------------------------------------------------------------------------
  // Which events may happen in which phase.

  /** The events of the acquisition mode in force: file loads for paths, fetches by one of the
      given names for names, the recommendation fetch and its availability report otherwise. */
  predicate AcquisitionEvent(ic: InstallContext, e: Event)
  {
    match Mode(ic)
    case FromPaths =>
      (e.CallFetchRecipeFile? && e.url in ic.recipePaths) ||
      (e.CallLoadRecipeFile? && e.path in ic.recipePaths) || e.CallToRecipe?
    case ByName => (e.CallFetchRecipe? && e.recipeName in ic.recipeNames) || e.Warned?
    case Recommended => e.CallFetchRecommendations? || e.ReportedAvailable? || e.ErrorLogged?
  }

  /** A phase's events happen only when the phase is enabled, and only of that phase's kind. */
  predicate AllowedIn(ic: InstallContext, p: Phase, e: Event)
  {
    match p
    case Discovery => ShouldRunDiscovery(ic) && e == CallDiscover
    case Acquisition => AcquisitionEvent(ic, e)
    case InfraAgent =>
      ShouldInstallInfraAgent(ic) && (e == CallFetchRecipe(InfraAgentRecipeName) || IsExecutionEvent(e))
    case Logging =>
      ShouldInstallLogging(ic) &&
      (e == CallFetchRecipe(LoggingRecipeName) || e.CallFilter? || e.CallPrompt? || IsExecutionEvent(e))
    case Integrations => ShouldInstallIntegrations(ic) && (IsExecutionEvent(e) || e.Warned?)
  }

  /** Acquisition shows only the events of the one mode the configuration selects. */
  lemma AcquisitionEventsFollowMode(inst: Installer, m: Option<DiscoveryManifest>)
    ensures forall e :: e in AcquisitionRun(inst, m).events ==> AcquisitionEvent(inst.ctx, e)
  {
    var ic, env := inst.ctx, inst.env;
    var P := (e: Event) => AcquisitionEvent(ic, e);
    match Mode(ic)
    case FromPaths =>
      var xs := ic.recipePaths;
      forall i, e | 0 <= i < |xs| && e in PathStepFn(env)(xs[i]).events
        ensures P(e)
      {
        var f := if env.hasScheme(xs[i]) then env.fetchRecipeFile(xs[i]) else env.loadRecipeFile(xs[i]);
        if f.Ok? {
          assert e in [if env.hasScheme(xs[i]) then CallFetchRecipeFile(xs[i]) else CallLoadRecipeFile(xs[i])] +
                      FinalizeRecipe(env, f.value).events;
        }
      }
      FoldEventsSatisfy(xs, PathStepFn(env), P);
    case ByName =>
      var xs := ic.recipeNames;
      forall i, e | 0 <= i < |xs| && e in NameStepFn(env, m)(xs[i]).events
        ensures P(e)
      {
        var w := FetchWarn(env, m, xs[i]);
        assert w.events == [CallFetchRecipe(xs[i])] || w.events == [CallFetchRecipe(xs[i]), w.events[1]];
      }
      FoldEventsSatisfy(xs, NameStepFn(env, m), P);
    case Recommended =>
  }

  lemma InfraEventsAllowed(inst: Installer, m: Option<DiscoveryManifest>)
    ensures forall e :: e in InfraRun(inst, m).events ==> AllowedIn(inst.ctx, InfraAgent, e)
  {
    var env := inst.env;
    if ShouldInstallInfraAgent(inst.ctx) {
      var f := FetchFatal(env, m, InfraAgentRecipeName);
      if f.flow.Go? {
        assert InfraRun(inst, m).events == f.events + ExecuteAndValidateFatal(env, m, f.flow.value).events;
      }
    }
  }

  /** The consent loop only prompts and logs prompt errors. */
  lemma ConsentEvents(env: Collaborators, matches: seq<LogMatch>)
    ensures forall e :: e in Fold(matches, AcceptStepFn(env)).events ==> e.CallPrompt? || e.ErrorLogged?
  {
    var P := (e: Event) => e.CallPrompt? || e.ErrorLogged?;
    forall i, e | 0 <= i < |matches| && e in AcceptStepFn(env)(matches[i]).events
      ensures P(e)
    {
      var u := UserAcceptLogFile(env, matches[i]);
      assert u.events == [CallPrompt(matches[i])] || u.events == [CallPrompt(matches[i]), u.events[1]];
    }
    FoldEventsSatisfy(matches, AcceptStepFn(env), P);
  }

  lemma LoggingEventsAllowed(inst: Installer, m: Option<DiscoveryManifest>, recipes: seq<Recipe>)
    ensures forall e :: e in LoggingRun(inst, m, recipes).events ==> AllowedIn(inst.ctx, Logging, e)
  {
    var env := inst.env;
    if ShouldInstallLogging(inst.ctx) && env.filter(recipes).Ok? {
      ConsentEvents(env, env.filter(recipes).value);
    }
  }

  /** One integration step only executes, validates, reports, logs and warns. */
  lemma IntegrationStepEvents(env: Collaborators, m: Option<DiscoveryManifest>, r: Recipe)
    ensures forall e :: e in IntegrationStepFn(env, m)(r).events ==> IsExecutionEvent(e) || e.Warned?
  {
    var eav := ExecuteAndValidate(env, m, r);
    var w := ExecuteAndValidateWarn(env, m, r);
    IntegrationStepIsWarn(env, m, r);
    if m.Some? {
      assert w.events == eav.events + w.events[|eav.events|..];
    }
  }

  /** The integrations loop only executes, validates, reports, logs and warns. */
  lemma {:induction false} IntegrationsLoopEvents(env: Collaborators, m: Option<DiscoveryManifest>, recipes: seq<Recipe>)
    ensures forall e :: e in Fold(recipes, IntegrationStepFn(env, m)).events ==> IsExecutionEvent(e) || e.Warned?
    decreases |recipes|
  {
    if recipes != [] {
      var init := recipes[..|recipes| - 1];
      IntegrationsLoopEvents(env, m, init);
      IntegrationStepEvents(env, m, recipes[|recipes| - 1]);
    }
  }

  lemma IntegrationEventsAllowed(inst: Installer, m: Option<DiscoveryManifest>, recipes: seq<Recipe>)
    ensures forall e :: e in IntegrationsRun(inst, m, recipes).events ==> AllowedIn(inst.ctx, Integrations, e)
  {
    if ShouldInstallIntegrations(inst.ctx) {
      IntegrationsLoopEvents(inst.env, m, recipes);
    }
  }

  lemma DiscoveryEventsAllowed(inst: Installer)
    ensures forall e :: e in DiscoveryRun(inst).events ==> AllowedIn(inst.ctx, Discovery, e)
  {
  }

  /** A chain whose phases' events are each allowed in their phase has only allowed entries. */
  lemma ChainAllowed(ic: InstallContext, d: Step<Option<DiscoveryManifest>>, a: Step<seq<Recipe>>, i: Step<()>,
                     l: Step<()>, g: Step<seq<()>>)
    requires forall e :: e in d.events ==> AllowedIn(ic, Discovery, e)
    requires forall e :: e in a.events ==> AllowedIn(ic, Acquisition, e)
    requires forall e :: e in i.events ==> AllowedIn(ic, InfraAgent, e)
    requires forall e :: e in l.events ==> AllowedIn(ic, Logging, e)
    requires forall e :: e in g.events ==> AllowedIn(ic, Integrations, e)
    ensures forall x :: x in Chain(d, a, i, l, g).trace ==> AllowedIn(ic, x.phase, x.event)
  {
    forall x | x in Chain(d, a, i, l, g).trace ensures AllowedIn(ic, x.phase, x.event) {
      InChain(d, a, i, l, g, x);
    }
  }

  /** Every entry of a run belongs to an enabled phase and is of that phase's kind; in particular the
      acquisition phase shows only the events of the one mode in force. */
  lemma EveryEventBelongsToItsPhase(inst: Installer)
    ensures forall x :: x in InstallRun(inst).trace ==> AllowedIn(inst.ctx, x.phase, x.event)
  {
    var d, a := DiscoveryOf(inst), AcquisitionOf(inst);
    var m, rs := ManifestOf(d), RecipesOf(a);
    RunIsChain(inst);
    DiscoveryEventsAllowed(inst);
    AcquisitionEventsFollowMode(inst, m);
    InfraEventsAllowed(inst, m);
    LoggingEventsAllowed(inst, m, rs);
    IntegrationEventsAllowed(inst, m, rs);
    ChainAllowed(inst.ctx, d, a, InfraOf(inst), LoggingOf(inst), IntegrationsOf(inst));
  }

  /** Recipes are reported as available only in recommendation mode, in the acquisition phase. */
  lemma AvailabilityReportedOnlyForRecommendations(inst: Installer)
    ensures forall x :: x in InstallRun(inst).trace && x.event.ReportedAvailable? ==>
              Mode(inst.ctx) == Recommended && x.phase == Acquisition
  {
    EveryEventBelongsToItsPhase(inst);
    forall x | x in InstallRun(inst).trace && x.event.ReportedAvailable?
      ensures Mode(inst.ctx) == Recommended && x.phase == Acquisition
    {
      assert AllowedIn(inst.ctx, x.phase, x.event);
      assert !IsExecutionEvent(x.event);
    }
  }

  // ---------------------------------------------------------------------------------
  // Phase order and the finality of a stop.

  /** The entries' phases never go backwards. */
  ghost predicate Ordered(t: seq<Entry>)
  {
    forall i, j :: 0 <= i < j < |t| ==> Rank(t[i].phase) <= Rank(t[j].phase)
  }

  /** No entry belongs to a phase later than `p`. */
  ghost predicate NoneAfter(t: seq<Entry>, p: Phase)
  {
    forall i :: 0 <= i < |t| ==> Rank(t[i].phase) <= Rank(p)
  }

  /** Adding a phase's events after entries of no later phase keeps the order. */
  lemma OrderedThen(t: seq<Entry>, p: Phase, es: seq<Event>)
    requires Ordered(t) && NoneAfter(t, p)
    ensures Ordered(t + Tag(p, es)) && NoneAfter(t + Tag(p, es), p)
  {
    var u := t + Tag(p, es);
    forall i, j | 0 <= i < j < |u| ensures Rank(u[i].phase) <= Rank(u[j].phase) {
      if j >= |t| {
        assert u[j] == Tag(p, es)[j - |t|];
        if i >= |t| { assert u[i] == Tag(p, es)[i - |t|]; }
      }
    }
    forall i | 0 <= i < |u| ensures Rank(u[i].phase) <= Rank(p) {
      if i >= |t| { assert u[i] == Tag(p, es)[i - |t|]; }
    }
  }

  /** Adding one more phase after phases no later than it. */
  lemma OrderedStep(t: seq<Entry>, p: Phase, q: Phase, es: seq<Event>)
    requires Ordered(t) && NoneAfter(t, p) && Rank(p) <= Rank(q)
    ensures Ordered(t + Tag(q, es)) && NoneAfter(t + Tag(q, es), q)
  {
    OrderedThen(t, q, es);
  }

  /** The first two, three and four phases' entries are ordered and of no later phase. */
  lemma OrderedTwo(d: seq<Event>, a: seq<Event>)
    ensures var t := Tag(Discovery, d) + Tag(Acquisition, a); Ordered(t) && NoneAfter(t, Acquisition)
  {
    OrderedThen([], Discovery, d);
    assert [] + Tag(Discovery, d) == Tag(Discovery, d);
    OrderedStep(Tag(Discovery, d), Discovery, Acquisition, a);
  }

  lemma OrderedThree(d: seq<Event>, a: seq<Event>, i: seq<Event>)
    ensures var t := Tag(Discovery, d) + Tag(Acquisition, a) + Tag(InfraAgent, i);
            Ordered(t) && NoneAfter(t, InfraAgent)
  {
    OrderedTwo(d, a);
    OrderedStep(Tag(Discovery, d) + Tag(Acquisition, a), Acquisition, InfraAgent, i);
  }

  lemma OrderedFour(d: seq<Event>, a: seq<Event>, i: seq<Event>, l: seq<Event>)
    ensures var t := Tag(Discovery, d) + Tag(Acquisition, a) + Tag(InfraAgent, i) + Tag(Logging, l);
            Ordered(t) && NoneAfter(t, Logging)
  {
    OrderedThree(d, a, i);
    OrderedStep(Tag(Discovery, d) + Tag(Acquisition, a) + Tag(InfraAgent, i), InfraAgent, Logging, l);
  }

  lemma ChainOrdered(d: Step<Option<DiscoveryManifest>>, a: Step<seq<Recipe>>, i: Step<()>, l: Step<()>,
                     g: Step<seq<()>>)
    ensures Ordered(Chain(d, a, i, l, g).trace)
    ensures Chain(d, a, i, l, g).outcome.Stopped? ==>
              NoneAfter(Chain(d, a, i, l, g).trace, Chain(d, a, i, l, g).outcome.phase)
  {
    if d.flow.Halt? {
      OrderedThen([], Discovery, d.events);
      assert [] + Tag(Discovery, d.events) == Tag(Discovery, d.events);
    } else if a.flow.Halt? {
      OrderedTwo(d.events, a.events);
    } else if i.flow.Halt? {
      OrderedThree(d.events, a.events, i.events);
    } else if l.flow.Halt? {
      OrderedFour(d.events, a.events, i.events, l.events);
    } else {
      OrderedFour(d.events, a.events, i.events, l.events);
      OrderedStep(Tag(Discovery, d.events) + Tag(Acquisition, a.events) + Tag(InfraAgent, i.events) +
                  Tag(Logging, l.events), Logging, Integrations, g.events);
    }
  }

  /** Phases run in the order discovery, acquisition, infrastructure agent, logging, integrations, and
      a run that stops in a phase leaves no entry of any later phase (nor the success banner). */
  lemma PhasesRunInOrder(inst: Installer)
    ensures Ordered(InstallRun(inst).trace)
    ensures InstallRun(inst).outcome.Stopped? ==> NoneAfter(InstallRun(inst).trace, InstallRun(inst).outcome.phase)
  {
    RunIsChain(inst);
    ChainOrdered(DiscoveryOf(inst), AcquisitionOf(inst), InfraOf(inst), LoggingOf(inst), IntegrationsOf(inst));
  }

  // ---------------------------------------------------------------------------------
  // Recipe acquisition.

  /** Whether `FetchWarn` lets a name through with a recipe. */
  predicate Found(env: Collaborators, m: Option<DiscoveryManifest>, name: string)
  {
    env.fetchRecipe(m, name).Ok? && env.fetchRecipe(m, name).value.Some?
  }

  /** In name mode the acquisition goes on exactly when every name is found. */
  lemma NameModeGoesOnIffAllFound(env: Collaborators, m: Option<DiscoveryManifest>, names: seq<string>)
    ensures Fold(names, NameStepFn(env, m)).flow.Go? <==> forall i :: 0 <= i < |names| ==> Found(env, m, names[i])
  {
    var f := NameStepFn(env, m);
    FoldGoIff(names, f);
    assert forall i :: 0 <= i < |names| ==> (f(names[i]).flow.Go? <==> Found(env, m, names[i]));
  }

  /** One name's step stops exactly when the name is not found, and then panics on its nil recipe. */
  lemma NameStepPanics(env: Collaborators, m: Option<DiscoveryManifest>, name: string)
    ensures NameStepFn(env, m)(name).flow.Halt? <==> !Found(env, m, name)
    ensures !Found(env, m, name) ==>
              NameStepFn(env, m)(name) == Step(FetchWarn(env, m, name).events, Halt(Panic(NilRecipe(name))))
  {
    assert NameStepFn(env, m)(name) == NameStep(env, m, name);
  }

  /** The index of the first name that is not found, or the number of names when all are. */
  function FirstMissing(env: Collaborators, m: Option<DiscoveryManifest>, names: seq<string>): (k: nat)
    ensures k <= |names|
    ensures forall i :: 0 <= i < k ==> Found(env, m, names[i])
    ensures k < |names| ==> !Found(env, m, names[k])
    decreases |names|
  {
    if names == [] || !Found(env, m, names[0]) then 0 else 1 + FirstMissing(env, m, names[1..])
  }

  /** A name that is not found, after names that all are, is the first missing one. */
  lemma {:induction false} FirstMissingIsUnique(env: Collaborators, m: Option<DiscoveryManifest>, names: seq<string>,
                                                j: nat)
    requires j < |names| && !Found(env, m, names[j])
    requires forall i :: 0 <= i < j ==> Found(env, m, names[i])
    ensures FirstMissing(env, m, names) == j
    decreases j
  {
    if j > 0 {
      assert Found(env, m, names[0]);
      assert forall i :: 0 <= i < j - 1 ==> names[1..][i] == names[i + 1];
      FirstMissingIsUnique(env, m, names[1..], j - 1);
    }
  }

  /** Otherwise it panics on the first name that was not found (its nil recipe is dereferenced),
      after fetching only the names up to that one. */
  lemma NameModePanicsOnFirstMissingRecipe(env: Collaborators, m: Option<DiscoveryManifest>, names: seq<string>)
    ensures var k := FirstMissing(env, m, names);
            k < |names| ==>
              Fold(names, NameStepFn(env, m)) ==
                Step(Fold(names[..k], NameStepFn(env, m)).events + FetchWarn(env, m, names[k]).events,
                     Halt(Panic(NilRecipe(names[k]))))
  {
    var f := NameStepFn(env, m);
    var k := FirstMissing(env, m, names);
    if k < |names| {
      NameModeGoesOnIffAllFound(env, m, names);
      FoldStopsAtFirstHalt(names, f);
      var j :| 0 <= j < |names| && Fold(names[..j], f).flow.Go? && f(names[j]).flow.Halt? &&
               Fold(names, f) == Step(Fold(names[..j], f).events + f(names[j]).events, f(names[j]).flow);
      FirstHaltIsFirstMissing(env, m, names, j);
      NameStepPanics(env, m, names[j]);
    }
  }

  /** The name at which the name loop first stops is the first missing one. */
  lemma FirstHaltIsFirstMissing(env: Collaborators, m: Option<DiscoveryManifest>, names: seq<string>, j: nat)
    requires j < |names|
    requires Fold(names[..j], NameStepFn(env, m)).flow.Go? && NameStepFn(env, m)(names[j]).flow.Halt?
    ensures FirstMissing(env, m, names) == j
  {
    NameStepPanics(env, m, names[j]);
    NameModeGoesOnIffAllFound(env, m, names[..j]);
    assert forall i :: 0 <= i < j ==> names[..j][i] == names[i];
    FirstMissingIsUnique(env, m, names, j);
  }

  /** A path that cannot be loaded or finalized aborts the loading loop. */
  lemma PathFailureAborts(env: Collaborators, paths: seq<string>)
    requires exists i :: 0 <= i < |paths| && RecipeFromPathFatal(env, paths[i]).flow.Halt?
    ensures Fold(paths, PathStepFn(env)).flow.Halt? && Fold(paths, PathStepFn(env)).flow.stop.Abort?
  {
    var f := PathStepFn(env);
    var j :| 0 <= j < |paths| && RecipeFromPathFatal(env, paths[j]).flow.Halt?;
    assert !f(paths[j]).flow.Go?;
    FoldGoIff(paths, f);
    FoldStopsAtFirstHalt(paths, f);
    var k :| 0 <= k < |paths| && Fold(paths[..k], f).flow.Go? && f(paths[k]).flow.Halt? &&
             Fold(paths, f) == Step(Fold(paths[..k], f).events + f(paths[k]).events, f(paths[k]).flow);
    assert RecipeFromPathFatal(env, paths[k]).flow.Halt?;
  }

  /** A chain whose discovery can only abort and whose acquisition aborts stops there with an
      abort; when neither phase executes anything, nothing in the chain is executed. */
  lemma ChainAbortsInAcquisition(d: Step<Option<DiscoveryManifest>>, a: Step<seq<Recipe>>, i: Step<()>,
                                 l: Step<()>, g: Step<seq<()>>)
    requires d.flow.Halt? ==> d.flow.stop.Abort?
    requires a.flow.Halt? && a.flow.stop.Abort?
    requires forall e :: e in d.events ==> !e.CallExecute?
    requires forall e :: e in a.events ==> !e.CallExecute?
    ensures Chain(d, a, i, l, g).outcome.Stopped? && Chain(d, a, i, l, g).outcome.stop.Abort?
    ensures Chain(d, a, i, l, g).outcome.phase == Discovery || Chain(d, a, i, l, g).outcome.phase == Acquisition
    ensures forall x :: x in Chain(d, a, i, l, g).trace ==> !x.event.CallExecute?
  {
    forall x | x in Chain(d, a, i, l, g).trace ensures !x.event.CallExecute? {
      InTag(Discovery, d.events, x);
      InTag(Acquisition, a.events, x);
    }
  }

  /** Discovery only calls the discoverer and can only stop by aborting. */
  lemma DiscoveryOnlyAborts(inst: Installer)
    ensures DiscoveryOf(inst).flow.Halt? ==> DiscoveryOf(inst).flow.stop.Abort?
    ensures forall e :: e in DiscoveryOf(inst).events ==> e == CallDiscover
  {
  }

  /** In path mode a failing path aborts the acquisition, which executes nothing. */
  lemma PathModeAcquisitionAborts(inst: Installer)
    requires Mode(inst.ctx) == FromPaths
    requires exists i :: 0 <= i < |inst.ctx.recipePaths| &&
               RecipeFromPathFatal(inst.env, inst.ctx.recipePaths[i]).flow.Halt?
    ensures AcquisitionOf(inst).flow.Halt? && AcquisitionOf(inst).flow.stop.Abort?
    ensures forall e :: e in AcquisitionOf(inst).events ==> !e.CallExecute?
  {
    PathFailureAborts(inst.env, inst.ctx.recipePaths);
    AcquisitionEventsFollowMode(inst, ManifestOf(DiscoveryOf(inst)));
  }

  /** In path mode a path that cannot be loaded or finalized aborts the acquisition, and the run
      then stops there: no recipe is executed. */
  lemma PathFailureAbortsBeforeExecution(inst: Installer)
    requires Mode(inst.ctx) == FromPaths
    requires exists i :: 0 <= i < |inst.ctx.recipePaths| &&
               RecipeFromPathFatal(inst.env, inst.ctx.recipePaths[i]).flow.Halt?
    ensures InstallRun(inst).outcome.Stopped?
    ensures InstallRun(inst).outcome.phase == Discovery || InstallRun(inst).outcome.phase == Acquisition
    ensures InstallRun(inst).outcome.stop.Abort?
    ensures forall x :: x in InstallRun(inst).trace ==> !x.event.CallExecute?
  {
    RunIsChain(inst);
    DiscoveryOnlyAborts(inst);
    PathModeAcquisitionAborts(inst);
    ChainAbortsInAcquisition(DiscoveryOf(inst), AcquisitionOf(inst), InfraOf(inst), LoggingOf(inst),
                             IntegrationsOf(inst));
  }

  /** In recommendation mode the recommendations are fetched once and, when that succeeds, reported
      as available exactly once, with the fetched recipes, whatever the reporter answers. */
  lemma RecommendationsAreReportedAvailable(inst: Installer, m: Option<DiscoveryManifest>)
    requires Mode(inst.ctx) == Recommended
    ensures var a := AcquisitionRun(inst, m);
            && a.events[0] == CallFetchRecommendations
            && (a.flow.Go? <==> inst.env.fetchRecommendations(m).Ok?)
            && (a.flow.Go? ==> a.flow.value == inst.env.fetchRecommendations(m).value &&
                               Unlogged(a.events) == [CallFetchRecommendations, ReportedAvailable(a.flow.value)])
            && (a.flow.Halt? ==> a.events == [CallFetchRecommendations])
  {
    var rec := FetchRecommendationsFatal(inst.env, m);
    if rec.flow.Go? {
      UnloggedAppend(rec.events, ReportRecipesAvailable(inst.env, rec.flow.value));
    }
  }

  // ---------------------------------------------------------------------------------
  // Execution needs a manifest.

  lemma InfraWithoutManifest(env: Collaborators)
    ensures InstallInfraAgentFatal(env, None) == Step([CallFetchRecipe(InfraAgentRecipeName)],
                                                      InstallInfraAgentFatal(env, None).flow)
    ensures InstallInfraAgentFatal(env, None).flow.Halt?
  {
    var f := FetchFatal(env, None, InfraAgentRecipeName);
    if f.flow.Go? {
      assert ExecuteAndValidateFatal(env, None, f.flow.value).events == [];
      assert f.events + [] == f.events;
    }
  }

  lemma LoggingWithoutManifest(env: Collaborators, recipes: seq<Recipe>)
    ensures forall e :: e in InstallLoggingRun(env, None, recipes).events ==> !e.CallExecute?
    ensures InstallLoggingRun(env, None, recipes).flow.Halt?
  {
    var f := FetchFatal(env, None, LoggingRecipeName);
    if f.flow.Go? && env.filter(recipes).Ok? {
      var xs := env.filter(recipes).value;
      ConsentEvents(env, xs);
      var consent := Fold(xs, AcceptStepFn(env));
      ConsentLoopAccepts(env, xs);
      var r := AddVar(f.flow.value, DiscoveredLogFilesVar, LoggingConfig(consent.flow.value));
      assert ExecuteAndValidateFatal(env, None, r).events == [];
    }
  }

  /** With no manifest the integrations loop panics on its first recipe, before any call. */
  lemma IntegrationsWithoutManifest(env: Collaborators, recipes: seq<Recipe>)
    ensures Fold(recipes, IntegrationStepFn(env, None)).events == []
    ensures |recipes| > 0 ==> Fold(recipes, IntegrationStepFn(env, None)).flow == Halt(Panic(NilManifest))
  {
    var f := IntegrationStepFn(env, None);
    FoldEventsSatisfy(recipes, f, (e: Event) => false);
    if |recipes| > 0 {
      assert f(recipes[0]).flow.Halt?;
      FoldGoIff(recipes, f);
      FoldStopsAtFirstHalt(recipes, f);
      var k :| 0 <= k < |recipes| && Fold(recipes[..k], f).flow.Go? && f(recipes[k]).flow.Halt? &&
               Fold(recipes, f) == Step(Fold(recipes[..k], f).events + f(recipes[k]).events, f(recipes[k]).flow);
      assert f(recipes[k]) == Step([], Halt(Panic(NilManifest)));
    }
  }

  /** With discovery skipped the manifest stays nil, so no recipe is ever executed; a run that has
      to install the infrastructure agent or the logging recipe therefore cannot succeed. */
  lemma SkippedDiscoveryNeverExecutes(inst: Installer)
    requires !ShouldRunDiscovery(inst.ctx)
    ensures forall x :: x in InstallRun(inst).trace ==> !x.event.CallExecute?
    ensures ShouldInstallInfraAgent(inst.ctx) || ShouldInstallLogging(inst.ctx) ==>
              InstallRun(inst).outcome.Stopped?
  {
    var env := inst.env;
    var rs := RecipesOf(AcquisitionOf(inst));
    assert ManifestOf(DiscoveryOf(inst)) == None;
    RunIsChain(inst);
    AcquisitionEventsFollowMode(inst, None);
    InfraWithoutManifest(env);
    LoggingWithoutManifest(env, rs);
    IntegrationsWithoutManifest(env, rs);
    ChainEntries(DiscoveryOf(inst), AcquisitionOf(inst), InfraOf(inst), LoggingOf(inst), IntegrationsOf(inst),
                 (p, e: Event) => !e.CallExecute?);
  }

  // ---------------------------------------------------------------------------------
  // Integrations.

  /** With a manifest, one integration step goes on and executes its recipe. */
  lemma IntegrationStepExecutes(env: Collaborators, man: DiscoveryManifest, r: Recipe)
    ensures IntegrationStepFn(env, Some(man))(r).flow == Go([])
    ensures Executed(IntegrationStepFn(env, Some(man))(r).events) == [r]
  {
    assert IntegrationStepFn(env, Some(man))(r) == IntegrationStep(env, Some(man), r);
  }

  /** With a manifest, the integrations loop never stops: every recipe is executed, in order,
      whatever each one's outcome (failures only warn). */
  lemma IntegrationsAttemptEveryRecipe(env: Collaborators, man: DiscoveryManifest, recipes: seq<Recipe>)
    ensures Fold(recipes, IntegrationStepFn(env, Some(man))).flow.Go?
    ensures Executed(Fold(recipes, IntegrationStepFn(env, Some(man))).events) == recipes
  {
    var f := IntegrationStepFn(env, Some(man));
    forall i | 0 <= i < |recipes|
      ensures f(recipes[i]).flow.Go? && Executed(f(recipes[i]).events) == [recipes[i]]
    {
      IntegrationStepExecutes(env, man, recipes[i]);
    }
    FoldExecutesEach(recipes, f);
  }

  /** A run with a manifest never stops in the integrations phase. */
  lemma IntegrationFailuresOnlyWarn(inst: Installer)
    requires ShouldRunDiscovery(inst.ctx)
    ensures InstallRun(inst).outcome.Stopped? ==> InstallRun(inst).outcome.phase != Integrations
  {
    RunIsChain(inst);
    var d := DiscoveryOf(inst);
    if d.flow.Go? {
      IntegrationsGoOn(inst, d.flow.value.value, RecipesOf(AcquisitionOf(inst)));
      ChainGoesThroughIntegrations(d, AcquisitionOf(inst), InfraOf(inst), LoggingOf(inst), IntegrationsOf(inst));
    }
  }

  /** With a manifest the integrations phase goes on, whether it is enabled or not. */
  lemma IntegrationsGoOn(inst: Installer, man: DiscoveryManifest, recipes: seq<Recipe>)
    ensures IntegrationsRun(inst, Some(man), recipes).flow.Go?
  {
    if ShouldInstallIntegrations(inst.ctx) {
      IntegrationsAttemptEveryRecipe(inst.env, man, recipes);
    }
  }

  /** A chain whose integrations step goes on does not stop in the integrations phase. */
  lemma ChainGoesThroughIntegrations(d: Step<Option<DiscoveryManifest>>, a: Step<seq<Recipe>>, i: Step<()>,
                                     l: Step<()>, g: Step<seq<()>>)
    requires g.flow.Go?
    ensures Chain(d, a, i, l, g).outcome.Stopped? ==> Chain(d, a, i, l, g).outcome.phase != Integrations
  {
  }

  // ---------------------------------------------------------------------------------
  // Log-file consent.

  lemma {:induction false} AcceptedMembership(a: seq<LogMatch>, prompt: LogMatch -> PromptResult)
    ensures forall x :: x in AcceptedMatches(a, prompt) <==> x in a && prompt(x) == ChoseYes
    decreases |a|
  {
    if a != [] {
      var init := a[..|a| - 1];
      AcceptedMembership(init, prompt);
      assert a == init + [a[|a| - 1]];
    }
  }

  /** Accepting distributes over concatenation, and a match is kept exactly when its answer is
      "Yes": so the accepted matches are the "Yes"-answered ones in their original order, and a
      "No" or a prompt error drops a match. */
  lemma {:induction false} AcceptedMatchesIsFilter(a: seq<LogMatch>, b: seq<LogMatch>, prompt: LogMatch -> PromptResult)
    ensures AcceptedMatches(a + b, prompt) == AcceptedMatches(a, prompt) + AcceptedMatches(b, prompt)
    ensures forall x :: x in AcceptedMatches(a, prompt) <==> x in a && prompt(x) == ChoseYes
    decreases |b|
  {
    if b == [] {
      assert a + b == a;
    } else {
      var init := b[..|b| - 1];
      AcceptedMatchesIsFilter(a, init, prompt);
      assert (a + b)[..|a + b| - 1] == a + init;
      assert (a + b)[|a + b| - 1] == b[|b| - 1];
    }
    AcceptedMembership(a, prompt);
  }

  /** With a manifest, a fetched logging recipe and a successful filter, the logging phase executes
      exactly one recipe: the fetched one with DISCOVERED_LOG_FILES set to the accepted matches. */
  lemma LoggingInjectsAcceptedMatches(env: Collaborators, man: DiscoveryManifest, recipes: seq<Recipe>)
    requires Found(env, Some(man), LoggingRecipeName)
    requires env.filter(recipes).Ok?
    ensures Executed(InstallLoggingRun(env, Some(man), recipes).events) ==
              [AddVar(env.fetchRecipe(Some(man), LoggingRecipeName).value.value, DiscoveredLogFilesVar,
                      LoggingConfig(AcceptedMatches(env.filter(recipes).value, env.prompt)))]
  {
    var m := Some(man);
    var f := FetchFatal(env, m, LoggingRecipeName);
    var xs := env.filter(recipes).value;
    var consent := Fold(xs, AcceptStepFn(env));
    ConsentLoopAccepts(env, xs);
    ConsentEvents(env, xs);
    var r := AddVar(f.flow.value, DiscoveredLogFilesVar, LoggingConfig(consent.flow.value));
    var x := ExecuteAndValidateFatal(env, m, r);
    var pre := f.events + [CallFilter(recipes)];
    ExecutedNone(pre);
    ExecutedNone(consent.events);
    ExecutedAppend(pre, consent.events);
    ExecutedAppend(pre + consent.events, x.events);
  }

  /** With a manifest the logging phase is fatal: every failure (the recipe's fetch, a missing
      recipe, the filter, the verdict on the recipe with the accepted matches injected) aborts, and
      it goes on exactly when none of these fails. */
  lemma LoggingIsFatal(env: Collaborators, man: DiscoveryManifest, recipes: seq<Recipe>)
    ensures var l := InstallLoggingRun(env, Some(man), recipes);
            l.flow.Halt? ==> l.flow.stop.Abort?
    ensures InstallLoggingRun(env, Some(man), recipes).flow.Go? <==>
              Found(env, Some(man), LoggingRecipeName) && env.filter(recipes).Ok? &&
              ExecuteAndValidate(env, Some(man),
                AddVar(env.fetchRecipe(Some(man), LoggingRecipeName).value.value, DiscoveredLogFilesVar,
                       LoggingConfig(AcceptedMatches(env.filter(recipes).value, env.prompt)))).flow ==
                Go(Verdict(true, None))
  {
    if Found(env, Some(man), LoggingRecipeName) && env.filter(recipes).Ok? {
      ConsentLoopAccepts(env, env.filter(recipes).value);
    }
  }

  /** The logging phase's two early aborts end it: a missing logging recipe leaves only its fetch,
      and a failing filter leaves only the fetch and the filter call, so neither prompts the
      operator nor executes anything. */
  lemma LoggingAbortsEndPhase(env: Collaborators, m: Option<DiscoveryManifest>, recipes: seq<Recipe>)
    ensures !Found(env, m, LoggingRecipeName) ==>
              InstallLoggingRun(env, m, recipes) ==
                Step([CallFetchRecipe(LoggingRecipeName)], InstallLoggingRun(env, m, recipes).flow)
    ensures Found(env, m, LoggingRecipeName) && env.filter(recipes).Err? ==>
              InstallLoggingRun(env, m, recipes).events == [CallFetchRecipe(LoggingRecipeName), CallFilter(recipes)]
  {
  }

  // ---------------------------------------------------------------------------------
  // Status reporting is best-effort.

  /** Two collaborator sets that differ at most in their reporters. */
  ghost predicate SameButReporters(env: Collaborators, env': Collaborators)
  {
    env' == WithReporters(env, env'.reportRecipesAvailable, env'.reportRecipeInstalled, env'.reportRecipeFailed)
  }

  /** A reporter's errors change neither the verdict of execute-and-validate nor any event but the
      logged error lines. */
  lemma ExecuteAndValidateIgnoresReporter(env: Collaborators, env': Collaborators, m: Option<DiscoveryManifest>,
                                          r: Recipe)
    requires SameButReporters(env, env')
    ensures ExecuteAndValidate(env, m, r).flow == ExecuteAndValidate(env', m, r).flow
    ensures Unlogged(ExecuteAndValidate(env, m, r).events) == Unlogged(ExecuteAndValidate(env', m, r).events)
  {
    if m.Some? {
      var v := ValidateAndReport(env, m.value, r);
      var v' := ValidateAndReport(env', m.value, r);
      if env.execute(m.value, r).Some? {
        var msg := ExecuteFailed(r.name, env.execute(m.value, r).value);
        UnloggedAppend([CallExecute(r)], ReportRecipeFailed(env, StatusEvent(r, Some(msg), "")));
        UnloggedAppend([CallExecute(r)], ReportRecipeFailed(env', StatusEvent(r, Some(msg), "")));
      } else {
        if r.validationNRQL != "" {
          var rest := v.events[1..];
          var rest' := v'.events[1..];
          assert v.events == [CallValidate(r)] + rest && v'.events == [CallValidate(r)] + rest';
          UnloggedAppend([CallValidate(r)], rest);
          UnloggedAppend([CallValidate(r)], rest');
        }
        UnloggedAppend([CallExecute(r)], v.events);
        UnloggedAppend([CallExecute(r)], v'.events);
      }
    }
  }

  lemma AcquisitionIgnoresReporter(inst: Installer, inst': Installer, m: Option<DiscoveryManifest>)
    requires inst'.ctx == inst.ctx && SameButReporters(inst.env, inst'.env)
    ensures AcquisitionRun(inst, m).flow == AcquisitionRun(inst', m).flow
    ensures Unlogged(AcquisitionRun(inst, m).events) == Unlogged(AcquisitionRun(inst', m).events)
  {
    var ic, env, env' := inst.ctx, inst.env, inst'.env;
    match Mode(ic)
    case FromPaths =>
      var xs := ic.recipePaths;
      forall i | 0 <= i < |xs| ensures PathStepFn(env)(xs[i]) == PathStepFn(env')(xs[i]) {
        assert RecipeFromPathFatal(env, xs[i]) == RecipeFromPathFatal(env', xs[i]);
      }
      FoldQuietCongruent(xs, PathStepFn(env), PathStepFn(env'));
    case ByName =>
      var xs := ic.recipeNames;
      forall i | 0 <= i < |xs| ensures NameStepFn(env, m)(xs[i]) == NameStepFn(env', m)(xs[i]) {
        assert FetchWarn(env, m, xs[i]) == FetchWarn(env', m, xs[i]);
      }
      FoldQuietCongruent(xs, NameStepFn(env, m), NameStepFn(env', m));
    case Recommended =>
      var rec := FetchRecommendationsFatal(env, m);
      assert rec == FetchRecommendationsFatal(env', m);
      if rec.flow.Go? {
        UnloggedAppend(rec.events, ReportRecipesAvailable(env, rec.flow.value));
        UnloggedAppend(rec.events, ReportRecipesAvailable(env', rec.flow.value));
      }
  }

  lemma InfraIgnoresReporter(inst: Installer, inst': Installer, m: Option<DiscoveryManifest>)
    requires inst'.ctx == inst.ctx && SameButReporters(inst.env, inst'.env)
    ensures InfraRun(inst, m).flow == InfraRun(inst', m).flow
    ensures Unlogged(InfraRun(inst, m).events) == Unlogged(InfraRun(inst', m).events)
  {
    var env, env' := inst.env, inst'.env;
    var f := FetchFatal(env, m, InfraAgentRecipeName);
    assert f == FetchFatal(env', m, InfraAgentRecipeName);
    if f.flow.Go? {
      ExecuteAndValidateIgnoresReporter(env, env', m, f.flow.value);
      UnloggedAppend(f.events, ExecuteAndValidate(env, m, f.flow.value).events);
      UnloggedAppend(f.events, ExecuteAndValidate(env', m, f.flow.value).events);
    }
  }

  lemma LoggingIgnoresReporter(inst: Installer, inst': Installer, m: Option<DiscoveryManifest>, recipes: seq<Recipe>)
    requires inst'.ctx == inst.ctx && SameButReporters(inst.env, inst'.env)
    ensures LoggingRun(inst, m, recipes).flow == LoggingRun(inst', m, recipes).flow
    ensures Unlogged(LoggingRun(inst, m, recipes).events) == Unlogged(LoggingRun(inst', m, recipes).events)
  {
    var env, env' := inst.env, inst'.env;
    var f := FetchFatal(env, m, LoggingRecipeName);
    assert f == FetchFatal(env', m, LoggingRecipeName);
    if ShouldInstallLogging(inst.ctx) && f.flow.Go? && env.filter(recipes).Ok? {
      var xs := env.filter(recipes).value;
      forall i | 0 <= i < |xs| ensures AcceptStepFn(env)(xs[i]) == AcceptStepFn(env')(xs[i]) {
        assert UserAcceptLogFile(env, xs[i]) == UserAcceptLogFile(env', xs[i]);
      }
      FoldQuietCongruent(xs, AcceptStepFn(env), AcceptStepFn(env'));
      var consent, consent' := Fold(xs, AcceptStepFn(env)), Fold(xs, AcceptStepFn(env'));
      ConsentLoopAccepts(env, xs);
      var r := AddVar(f.flow.value, DiscoveredLogFilesVar, LoggingConfig(consent.flow.value));
      ExecuteAndValidateIgnoresReporter(env, env', m, r);
      var pre := f.events + [CallFilter(recipes)];
      UnloggedAppend(pre, consent.events);
      UnloggedAppend(pre, consent'.events);
      UnloggedAppend(pre + consent.events, ExecuteAndValidate(env, m, r).events);
      UnloggedAppend(pre + consent'.events, ExecuteAndValidate(env', m, r).events);
    }
  }

  /** One integration step ends alike and agrees up to error log lines under either reporter. */
  lemma IntegrationStepIgnoresReporter(env: Collaborators, env': Collaborators, m: Option<DiscoveryManifest>,
                                       r: Recipe)
    requires SameButReporters(env, env')
    ensures IntegrationStep(env, m, r).flow == IntegrationStep(env', m, r).flow
    ensures Unlogged(IntegrationStep(env, m, r).events) == Unlogged(IntegrationStep(env', m, r).events)
  {
    ExecuteAndValidateIgnoresReporter(env, env', m, r);
    if m.Some? {
      var eav, eav' := ExecuteAndValidate(env, m, r), ExecuteAndValidate(env', m, r);
      var w, w' := ExecuteAndValidateWarn(env, m, r), ExecuteAndValidateWarn(env', m, r);
      var tail, tail' := w.events[|eav.events|..], w'.events[|eav'.events|..];
      assert w.events == eav.events + tail && w'.events == eav'.events + tail';
      UnloggedAppend(eav.events, tail);
      UnloggedAppend(eav'.events, tail');
      assert tail == tail';
    }
  }

  lemma IntegrationsIgnoreReporter(inst: Installer, inst': Installer, m: Option<DiscoveryManifest>,
                                   recipes: seq<Recipe>)
    requires inst'.ctx == inst.ctx && SameButReporters(inst.env, inst'.env)
    ensures IntegrationsRun(inst, m, recipes).flow == IntegrationsRun(inst', m, recipes).flow
    ensures Unlogged(IntegrationsRun(inst, m, recipes).events) == Unlogged(IntegrationsRun(inst', m, recipes).events)
  {
    var env, env' := inst.env, inst'.env;
    forall i | 0 <= i < |recipes|
      ensures IntegrationStepFn(env, m)(recipes[i]).flow == IntegrationStepFn(env', m)(recipes[i]).flow
      ensures Unlogged(IntegrationStepFn(env, m)(recipes[i]).events) ==
              Unlogged(IntegrationStepFn(env', m)(recipes[i]).events)
    {
      IntegrationStepIgnoresReporter(env, env', m, recipes[i]);
    }
    FoldQuietCongruent(recipes, IntegrationStepFn(env, m), IntegrationStepFn(env', m));
  }

  /** Chains whose phases end alike and agree up to error log lines end alike and agree likewise. */
  lemma ChainQuiet(d: Step<Option<DiscoveryManifest>>, a: Step<seq<Recipe>>, i: Step<()>, l: Step<()>,
                   g: Step<seq<()>>,
                   d': Step<Option<DiscoveryManifest>>, a': Step<seq<Recipe>>, i': Step<()>, l': Step<()>,
                   g': Step<seq<()>>)
    requires d.flow == d'.flow && Unlogged(d.events) == Unlogged(d'.events)
    requires a.flow == a'.flow && Unlogged(a.events) == Unlogged(a'.events)
    requires i.flow == i'.flow && Unlogged(i.events) == Unlogged(i'.events)
    requires l.flow == l'.flow && Unlogged(l.events) == Unlogged(l'.events)
    requires g.flow == g'.flow && Unlogged(g.events) == Unlogged(g'.events)
    ensures Chain(d, a, i, l, g).outcome == Chain(d', a', i', l', g').outcome
    ensures Quiet(Chain(d, a, i, l, g).trace) == Quiet(Chain(d', a', i', l', g').trace)
  {
    QuietTag(Discovery, d.events);
    QuietTag(Discovery, d'.events);
    QuietTag(Acquisition, a.events);
    QuietTag(Acquisition, a'.events);
    QuietTag(InfraAgent, i.events);
    QuietTag(InfraAgent, i'.events);
    QuietTag(Logging, l.events);
    QuietTag(Logging, l'.events);
    QuietTag(Integrations, g.events);
    QuietTag(Integrations, g'.events);
    var t1, t1' := Tag(Discovery, d.events), Tag(Discovery, d'.events);
    var t2, t2' := t1 + Tag(Acquisition, a.events), t1' + Tag(Acquisition, a'.events);
    var t3, t3' := t2 + Tag(InfraAgent, i.events), t2' + Tag(InfraAgent, i'.events);
    var t4, t4' := t3 + Tag(Logging, l.events), t3' + Tag(Logging, l'.events);
    QuietAppend(t1, Tag(Acquisition, a.events));
    QuietAppend(t1', Tag(Acquisition, a'.events));
    QuietAppend(t2, Tag(InfraAgent, i.events));
    QuietAppend(t2', Tag(InfraAgent, i'.events));
    QuietAppend(t3, Tag(Logging, l.events));
    QuietAppend(t3', Tag(Logging, l'.events));
    QuietAppend(t4, Tag(Integrations, g.events));
    QuietAppend(t4', Tag(Integrations, g'.events));
  }

  /** Reporter errors never change how a run ends, nor any entry of its trace but the logged
      error lines. */
  lemma ReporterErrorsChangeNothing(inst: Installer, inst': Installer)
    requires inst'.ctx == inst.ctx && SameButReporters(inst.env, inst'.env)
    ensures InstallRun(inst).outcome == InstallRun(inst').outcome
    ensures Quiet(InstallRun(inst).trace) == Quiet(InstallRun(inst').trace)
  {
    RunIsChain(inst);
    RunIsChain(inst');
    var d := DiscoveryOf(inst);
    assert d == DiscoveryOf(inst');
    var m := ManifestOf(d);
    AcquisitionIgnoresReporter(inst, inst', m);
    var rs := RecipesOf(AcquisitionOf(inst));
    assert rs == RecipesOf(AcquisitionOf(inst'));
    InfraIgnoresReporter(inst, inst', m);
    LoggingIgnoresReporter(inst, inst', m, rs);
    IntegrationsIgnoreReporter(inst, inst', m, rs);
    ChainQuiet(d, AcquisitionOf(inst), InfraOf(inst), LoggingOf(inst), IntegrationsOf(inst),
               DiscoveryOf(inst'), AcquisitionOf(inst'), InfraOf(inst'), LoggingOf(inst'), IntegrationsOf(inst'));
  }
}
