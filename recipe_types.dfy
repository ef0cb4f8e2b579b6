/** Data model of the install orchestrator: recipes and log matches, the run's
    configuration, the collaborators it calls, and the trace a run leaves. */
module RecipeTypes {

  datatype Option<T> = None | Some(value: T)

  /** A Go `(T, error)` pair: either a value or an error message. */
  datatype Result<T> = Ok(value: T) | Err(error: string)

  /** Host facts produced by discovery; the orchestrator only passes it on. */
  datatype DiscoveryManifest = DiscoveryManifest(facts: map<string, string>)

  /** A raw recipe definition as loaded from a file or a URL. */
  datatype RecipeFile = RecipeFile(name: string, content: string)

  /** A candidate log file found by the file filterer. */
  datatype LogMatch = LogMatch(name: string, file: string)

  /** A value in a recipe's variable bag: the logging configuration is the only one injected here. */
  datatype RecipeVar = LoggingConfig(logs: seq<LogMatch>)

  datatype Recipe = Recipe(name: string, validationNRQL: string, vars: map<string, RecipeVar>)

  /** Sets one variable of the recipe's bag and leaves everything else as it was. */
  function AddVar(r: Recipe, key: string, value: RecipeVar): (r': Recipe)
    ensures r'.name == r.name && r'.validationNRQL == r.validationNRQL
    ensures key in r'.vars && r'.vars[key] == value
    ensures r'.vars.Keys == r.vars.Keys + {key}
    ensures forall k :: k in r.vars && k != key ==> r'.vars[k] == r.vars[k]
  {
    r.(vars := r.vars[key := value])
  }

  /** The messages the orchestrator writes: log lines, fatal messages, returned errors and the
      failure text of a status event. `Text` renders each one as the program formats it. */
  datatype Msg =
    | DiscoveryFailed(err: string)
    | FetchFileFailed(path: string, err: string)
    | LoadFileFailed(path: string, err: string)
    | FinalizeFailed(fileName: string, err: string)
    | RecommendationsFailed(err: string)
    | RetrieveFailed(recipeName: string, err: string)
    | NotFoundSkipping(recipeName: string)
    | NotFound(recipeName: string)
    | FilterFailed(err: string)
    | ExecuteFailed(recipeName: string, err: string)
    | ValidateFailed(recipeName: string, err: string)
    | NotValidated
    | InstallFailed(recipeName: string, cause: Msg)
    | NoDataDetected(recipeName: string)
    | ReportAvailableFailed(err: string)
    | StatusWriteFailed(recipeName: string, err: string)
    | PromptError(err: string)

  function Text(m: Msg): string
  {
    match m
    case DiscoveryFailed(err) => "Could not install New Relic.  There was an error discovering system info: " + err
    case FetchFileFailed(path, err) => "Could not fetch file " + path + ": " + err
    case LoadFileFailed(path, err) => "Could not load file " + path + ": " + err
    case FinalizeFailed(name, err) => "Could finalize recipe " + name + ": " + err
    case RecommendationsFailed(err) => "Could not install New Relic. Error retrieving recipe recommendations: " + err
    case RetrieveFailed(name, err) => "Could not install " + name + ". Error retrieving recipe: " + err
    case NotFoundSkipping(name) => "Recipe " + name + " not found. Skipping installation."
    case NotFound(name) => "Recipe " + name + " not found."
    case FilterFailed(err) => err
    case ExecuteFailed(name, err) => "encountered an error while executing " + name + ": " + err
    case ValidateFailed(name, err) => "encountered an error while validating receipt of data for " + name + ": " + err
    case NotValidated => "could not validate recipe data"
    case InstallFailed(name, cause) => "Could not install " + name + ": " + Text(cause)
    case NoDataDetected(name) => "Could not detect data from " + name + "."
    case ReportAvailableFailed(err) => "Could not report recipe execution status: " + err
    case StatusWriteFailed(name, err) => "Error writing recipe status for recipe " + name + ": " + err
    case PromptError(err) => "prompt failed: " + err
  }

  /** A status record: the recipe, a failure message (None for Go's "", `Text` of it otherwise) and an
      entity id ("" if none). */
  datatype StatusEvent = StatusEvent(recipe: Recipe, msg: Option<Msg>, entityGuid: string)

  /** The validator's answer when it does not fail. */
  datatype Validation = Validation(ok: bool, entityGuid: string)

  /** What the Yes/No selection prompt returns. */
  datatype PromptResult = ChoseYes | ChoseNo | PromptFailed(error: string)

  /** The external collaborators, as oracles: each answer is a function of the call's inputs.
      `hasScheme(p)` stands for "p parses as a URL with a non-empty scheme". */
  datatype Collaborators = Collaborators(
    discover: Result<DiscoveryManifest>,
    hasScheme: string -> bool,
    fetchRecipeFile: string -> Result<RecipeFile>,
    loadRecipeFile: string -> Result<RecipeFile>,
    toRecipe: RecipeFile -> Result<Recipe>,
    fetchRecipe: (Option<DiscoveryManifest>, string) -> Result<Option<Recipe>>,
    fetchRecommendations: Option<DiscoveryManifest> -> Result<seq<Recipe>>,
    filter: seq<Recipe> -> Result<seq<LogMatch>>,
    prompt: LogMatch -> PromptResult,
    execute: (DiscoveryManifest, Recipe) -> Option<string>,
    validate: (DiscoveryManifest, Recipe) -> Result<Validation>,
    reportRecipesAvailable: seq<Recipe> -> Option<string>,
    reportRecipeInstalled: StatusEvent -> Option<string>,
    reportRecipeFailed: StatusEvent -> Option<string>)

  /** The same collaborators with the three status-reporting calls replaced. */
  function WithReporters(env: Collaborators, available: seq<Recipe> -> Option<string>,
                         installed: StatusEvent -> Option<string>,
                         failed: StatusEvent -> Option<string>): Collaborators
  {
    env.(reportRecipesAvailable := available, reportRecipeInstalled := installed,
         reportRecipeFailed := failed)
  }

  /** The run's configuration, fixed when the installer is built. */
  datatype InstallContext = InstallContext(
    recipePaths: seq<string>,
    recipeNames: seq<string>,
    skipDiscovery: bool,
    skipInfraInstall: bool,
    skipIntegrations: bool,
    skipLoggingInstall: bool)

  predicate ShouldRunDiscovery(ic: InstallContext) { !ic.skipDiscovery }
  predicate RecipePathsProvided(ic: InstallContext) { |ic.recipePaths| > 0 }
  predicate RecipeNamesProvided(ic: InstallContext) { |ic.recipeNames| > 0 }
  predicate ShouldInstallInfraAgent(ic: InstallContext) { !ic.skipInfraInstall }
  predicate ShouldInstallLogging(ic: InstallContext) { !ic.skipLoggingInstall }
  predicate ShouldInstallIntegrations(ic: InstallContext) { !ic.skipIntegrations }

  /** The three ways of acquiring recipes. */
  datatype AcquisitionMode = FromPaths | ByName | Recommended

  /** The mode a context selects: paths first, then names, then recommendations. */
  function Mode(ic: InstallContext): AcquisitionMode
  {
    if RecipePathsProvided(ic) then FromPaths
    else if RecipeNamesProvided(ic) then ByName
    else Recommended
  }

  /** The installer: its configuration and its collaborators. */
  datatype Installer = Installer(ctx: InstallContext, env: Collaborators)

  const InfraAgentRecipeName := "Infrastructure Agent Installer"
  const LoggingRecipeName := "Logs integration"
  const DiscoveredLogFilesVar := "DISCOVERED_LOG_FILES"

  /** One observable thing a run does: a collaborator call, a status report, or a log line
      (warnings and logged errors; fatal messages end the run and live in its outcome). */
  datatype Event =
    | CallDiscover
    | CallFetchRecipeFile(url: string)
    | CallLoadRecipeFile(path: string)
    | CallToRecipe(file: RecipeFile)
    | CallFetchRecipe(recipeName: string)
    | CallFetchRecommendations
    | CallFilter(recipes: seq<Recipe>)
    | CallPrompt(logMatch: LogMatch)
    | CallExecute(recipe: Recipe)
    | CallValidate(recipe: Recipe)
    | ReportedAvailable(available: seq<Recipe>)
    | ReportedInstalled(installed: StatusEvent)
    | ReportedFailed(failed: StatusEvent)
    | Warned(warning: Msg)
    | ErrorLogged(logged: Msg)

  /** The phases of a run, in the order they run. */
  datatype Phase = Discovery | Acquisition | InfraAgent | Logging | Integrations

  function Rank(p: Phase): nat
  {
    match p
    case Discovery => 0
    case Acquisition => 1
    case InfraAgent => 2
    case Logging => 3
    case Integrations => 4
  }

  /** A trace entry: an event and the phase it happened in. */
  datatype Entry = Entry(phase: Phase, event: Event)

  /** Labels every event of one phase with that phase. */
  function Tag(p: Phase, es: seq<Event>): (t: seq<Entry>)
    ensures |t| == |es|
    ensures forall i :: 0 <= i < |t| ==> t[i] == Entry(p, es[i])
  {
    if es == [] then [] else [Entry(p, es[0])] + Tag(p, es[1..])
  }

  /** The events without the error log lines. */
  function Unlogged(es: seq<Event>): seq<Event>
  {
    if es == [] then []
    else if es[0].ErrorLogged? then Unlogged(es[1..])
    else [es[0]] + Unlogged(es[1..])
  }

  /** The trace without the error log lines. */
  function Quiet(t: seq<Entry>): seq<Entry>
  {
    if t == [] then []
    else if t[0].event.ErrorLogged? then Quiet(t[1..])
    else [t[0]] + Quiet(t[1..])
  }

  /** The recipes handed to the executor, in call order. */
  function Executed(es: seq<Event>): seq<Recipe>
  {
    if es == [] then []
    else if es[0].CallExecute? then [es[0].recipe] + Executed(es[1..])
    else Executed(es[1..])
  }

  /** The status events sent to the reporter (installed and failed), in order. */
  function StatusReports(es: seq<Event>): seq<Event>
  {
    if es == [] then []
    else if es[0].ReportedInstalled? || es[0].ReportedFailed? then [es[0]] + StatusReports(es[1..])
    else StatusReports(es[1..])
  }

  lemma {:induction false} UnloggedAppend(a: seq<Event>, b: seq<Event>)
    ensures Unlogged(a + b) == Unlogged(a) + Unlogged(b)
    decreases |a|
  {
    if a != [] {
      assert (a + b)[0] == a[0] && (a + b)[1..] == a[1..] + b;
      UnloggedAppend(a[1..], b);
    } else {
      assert a + b == b;
    }
  }

  lemma {:induction false} QuietAppend(a: seq<Entry>, b: seq<Entry>)
    ensures Quiet(a + b) == Quiet(a) + Quiet(b)
    decreases |a|
  {
    if a != [] {
      assert (a + b)[0] == a[0] && (a + b)[1..] == a[1..] + b;
      QuietAppend(a[1..], b);
    } else {
      assert a + b == b;
    }
  }

  lemma {:induction false} QuietTag(p: Phase, es: seq<Event>)
    ensures Quiet(Tag(p, es)) == Tag(p, Unlogged(es))
    decreases |es|
  {
    if es != [] {
      QuietTag(p, es[1..]);
      if !es[0].ErrorLogged? {
        assert Tag(p, [es[0]] + Unlogged(es[1..])) == [Entry(p, es[0])] + Tag(p, Unlogged(es[1..]));
      }
    }
  }

  lemma {:induction false} ExecutedAppend(a: seq<Event>, b: seq<Event>)
    ensures Executed(a + b) == Executed(a) + Executed(b)
    decreases |a|
  {
    if a != [] {
      assert (a + b)[0] == a[0] && (a + b)[1..] == a[1..] + b;
      ExecutedAppend(a[1..], b);
    } else {
      assert a + b == b;
    }
  }

  lemma {:induction false} StatusReportsAppend(a: seq<Event>, b: seq<Event>)
    ensures StatusReports(a + b) == StatusReports(a) + StatusReports(b)
    decreases |a|
  {
    if a != [] {
      assert (a + b)[0] == a[0] && (a + b)[1..] == a[1..] + b;
      StatusReportsAppend(a[1..], b);
    } else {
      assert a + b == b;
    }
  }

  /** An event followed by an error log line filters like the event alone. */
  lemma EventThenLog(x: Event, msg: Msg)
    requires !x.ErrorLogged? && !x.CallExecute?
    ensures Unlogged([x, ErrorLogged(msg)]) == [x]
    ensures Executed([x, ErrorLogged(msg)]) == []
    ensures StatusReports([x, ErrorLogged(msg)]) == StatusReports([x])
  {
    var log := [ErrorLogged(msg)];
    assert log[1..] == [];
    assert Unlogged(log) == [] && Executed(log) == [] && StatusReports(log) == [];
    assert [x, ErrorLogged(msg)] == [x] + log;
    UnloggedAppend([x], log);
    ExecutedAppend([x], log);
    StatusReportsAppend([x], log);
  }

  /** An entry is in a tagged phase exactly when it carries that phase and one of its events. */
  lemma InTag(p: Phase, es: seq<Event>, x: Entry)
    ensures x in Tag(p, es) <==> x.phase == p && x.event in es
  {
    var t := Tag(p, es);
    if x in t {
      var i :| 0 <= i < |t| && t[i] == x;
      assert es[i] == x.event;
    }
    if x.phase == p && x.event in es {
      var i :| 0 <= i < |es| && es[i] == x.event;
      assert t[i] == x;
    }
  }

  /** With no executor call among them, events hand nothing to the executor. */
  lemma {:induction false} ExecutedNone(es: seq<Event>)
    requires forall e :: e in es ==> !e.CallExecute?
    ensures Executed(es) == []
    decreases |es|
  {
    if es != [] {
      assert es[0] in es;
      assert forall e :: e in es[1..] ==> e in es;
      ExecutedNone(es[1..]);
    }
  }
}
