# Recipe installer orchestration, modelled in Dafny

This project models the orchestrator behind `newrelic install`: the `recipeInstaller` of
`internal/install/recipe_installer.go`. A run goes through five phases in a fixed order:

1. Discovery (unless skipped).
2. Recipe acquisition, in exactly one of three modes:
   - load the given recipe paths (from a URL or from disk);
   - fetch the given recipe names;
   - fetch the recommendations and report them as available.
3. The infrastructure agent.
4. The logging recipe. It asks the operator about each log file found and injects the accepted
   ones as `DISCOVERED_LOG_FILES`.
5. The integrations.

A helper ending in "Fatal" aborts the run (`log.Fatalf`, or `log.Fatal` for the filter failure
in the logging phase), or panics when it executes a recipe without a discovery manifest (see
below). A "Warn" helper logs a warning and carries on. Status reporting is best-effort: a reporter error is only logged.

## How it is modelled

- **Collaborators.** The discoverer, file filterer, recipe fetcher, executor, validator, file
  fetcher, status reporter and the Yes/No prompt are the fields of `RecipeTypes.Collaborators`.
  Each field is a function from the call's inputs to its answer, an error or a value.
- **Messages.** The log lines, fatal messages and returned errors form the datatype
  `RecipeTypes.Msg`. `RecipeTypes.Text` renders each one with the wording the program uses.
- **Steps.** Every helper is a function returning a `Steps.Step`. A step holds the events it
  leaves (collaborator calls, status reports, warnings, logged errors) and its `Flow`. The flow
  either goes on with a value or stops the run. A stop is one of two things:
  - `Abort(msg)`, which is `log.Fatalf`;
  - `Panic(...)`, which is a nil-pointer dereference.
- **Loops.** Each of the four loops of the program is a method with a `for` loop. Its
  specification is `Steps.Fold`: the steps run in list order up to the first one that stops.
- **The run.** `RecipeInstaller.Install` is the method for `install()`. It is proved equal to
  `RecipeInstaller.InstallRun`, which returns a `Run`: a trace of
  `(phase, event)` entries and an outcome, either `Succeeded` or `Stopped(phase, stop)`.
- **Properties.** `InstallerProperties` states them about `InstallRun` and the phase functions.

Two nil dereferences are modelled as the code has them:

- In name mode, a recipe that is not found, or whose fetch fails, makes `fetchWarn` return nil.
  `install` then dereferences that nil at line 90, so the run panics. The warning text
  "Skipping installation." at line 235 says such a recipe is skipped; the model follows the code.
- With discovery skipped the manifest is nil. `executeAndValidate` dereferences it at line 256
  before calling anything. So every execution panics in that configuration, including the
  integrations that are otherwise "warn only".

## Model

| member | source | states |
|---|---|---|
| RecipeTypes.AddVar | internal/install/recipe_installer.go:196 | setting DISCOVERED_LOG_FILES gives the key that value and leaves the name, the query and every other variable unchanged |
| RecipeInstaller.ReportRecipesAvailable | internal/install/recipe_installer.go:284-288 | the availability report is always sent with the given recipes; a reporter error adds exactly one logged line and nothing else |
| RecipeInstaller.ReportRecipeInstalled | internal/install/recipe_installer.go:290-294 | the installed event is always sent; a reporter error only adds one logged line, so it executes nothing and reports nothing more |
| RecipeInstaller.ReportRecipeFailed | internal/install/recipe_installer.go:296-300 | the failed event is always sent; a reporter error only adds one logged line |
| RecipeInstaller.DiscoverFatal | internal/install/recipe_installer.go:126-145 | discovery goes on with the discovered manifest exactly when the discoverer succeeds, and otherwise aborts |
| RecipeInstaller.FinalizeRecipe | internal/install/recipe_installer.go:164-170 | the recipe file is converted; it goes on with the converted recipe exactly when conversion succeeds, and otherwise aborts |
| RecipeInstaller.RecipeFromPathFatal | internal/install/recipe_installer.go:147-162 | a path with a URL scheme is fetched and any other path is loaded from disk; a fetch or load error aborts without finalizing; otherwise the result is that of finalizing the file; it only ever stops by aborting |
| RecipeInstaller.FetchRecommendationsFatal | internal/install/recipe_installer.go:201-220 | goes on with the fetched recommendations exactly when the fetch succeeds, and otherwise aborts |
| RecipeInstaller.FetchWarn | internal/install/recipe_installer.go:227-239 | never stops the run; yields the recipe exactly when the fetch succeeded and found one; an error or a missing recipe adds one warning and yields nil |
| RecipeInstaller.FetchFatal | internal/install/recipe_installer.go:241-252 | goes on with the recipe exactly when the fetch succeeded and found one; a fetch error and a missing recipe both abort |
| RecipeInstaller.ValidateAndReport | internal/install/recipe_installer.go:263-279 | the validator is called exactly when the recipe has a query; with no query the result is (true, nil) and nothing is reported; for a validator error, an unconfirmed validation and a confirmed one, the verdict and the single status event (message and entity id) are those of the code |
| RecipeInstaller.ExecuteAndValidate | internal/install/recipe_installer.go:254-282 | the whole outcome table: a nil manifest panics before any call; otherwise the executor is called once, first; each of execute error, empty query, validator error, unconfirmed and confirmed gives the code's verdict and at most one status event; an error always comes with ok = false |
| RecipeInstaller.ExecuteAndValidateFatal | internal/install/recipe_installer.go:302-324 | leaves the events of execute-and-validate and goes on exactly when the verdict is (true, nil); it panics exactly when the manifest is nil and otherwise aborts |
| RecipeInstaller.VerdictWarnings | internal/install/recipe_installer.go:326-335 | one warning for an error plus one for ok = false, all of them warnings, nothing executed |
| RecipeInstaller.ExecuteAndValidateWarn | internal/install/recipe_installer.go:326-335 | never aborts: with a manifest it goes on, executes exactly its recipe, and adds only warnings after the events of execute-and-validate, at least one of them exactly when ok = false; with a nil manifest it panics before any call |
| RecipeInstaller.FetchExecuteAndValidateFatal | internal/install/recipe_installer.go:222-225 | fetches first; a failed fetch stops with the fetch's own stop and calls nothing else; going on implies the recipe was found and its verdict was (true, nil) |
| RecipeInstaller.FetchExecuteAndValidateIsFatal | internal/install/recipe_installer.go:222-225 | goes on exactly when the recipe is found and its verdict is (true, nil); with a manifest every stop is an abort (`log.Fatalf`), never a panic; a found recipe is executed once right after its fetch, whether or not it then passes |
| RecipeInstaller.InstallInfraAgentFatal | internal/install/recipe_installer.go:172-174 | fetches the infrastructure agent recipe by its name and, when it goes on, has executed exactly that recipe |
| RecipeInstaller.InfraAgentIsFatal | internal/install/recipe_installer.go:172-174 | the agent phase goes on exactly when the agent recipe is found and its verdict is (true, nil); with a manifest every stop is an abort; a found agent recipe is executed once right after its fetch, even when it fails |
| RecipeInstaller.UserAcceptLogFile | internal/install/recipe_installer.go:337-352 | prompts once and accepts exactly on a "Yes" answer; a prompt error is logged once and counts as "No" |
| RecipeInstaller.LoadRecipesFromPaths | internal/install/recipe_installer.go:81-85 | the path loop equals the fold of the per-path steps: recipes in path order, stopped by the first failing path |
| RecipeInstaller.FetchRecipesByName | internal/install/recipe_installer.go:86-91 | the name loop equals the fold of fetch-then-dereference steps, which panics at the first name without a recipe |
| RecipeInstaller.InstallIntegrations | internal/install/recipe_installer.go:109-113 | the integrations loop equals the fold of warn-only execute-and-validate steps, in recipe order |
| RecipeInstaller.ConsentLoopAccepts | internal/install/recipe_installer.go:185-190 | the consent loop never stops and keeps exactly the reference list of accepted matches |
| RecipeInstaller.InstallLoggingFatal | internal/install/recipe_installer.go:176-199 | the logging phase: fetch (fatal), filter (fatal), consent loop, injection of the accepted matches, then execute-and-validate (fatal), as `InstallLoggingRun` |
| RecipeInstaller.AcquireRecipes | internal/install/recipe_installer.go:80-96 | acquisition runs exactly one branch: paths if given, else names if given, else recommendations followed by their availability report |
| RecipeInstaller.Install | internal/install/recipe_installer.go:65-124 | the method's trace and outcome are those of the run function `InstallRun`: the phases in order, each skipped when disabled, ending at the first stop |
| InstallerProperties.EveryEventBelongsToItsPhase | internal/install/recipe_installer.go:74-113 | every entry of a run is in an enabled phase and of that phase's kind; acquisition shows only the calls of the selected mode |
| InstallerProperties.AcquisitionEventsFollowMode | internal/install/recipe_installer.go:80-96 | acquisition events are only those of the selected mode: loads of the given paths, fetches of the given names, or the recommendation fetch and report |
| InstallerProperties.InfraEventsAllowed | internal/install/recipe_installer.go:98-101 | the infrastructure phase has events only when enabled, and only the agent recipe's fetch and execution events |
| InstallerProperties.ConsentEvents | internal/install/recipe_installer.go:185-190 | the consent loop only prompts and logs prompt errors |
| InstallerProperties.LoggingEventsAllowed | internal/install/recipe_installer.go:103-106 | the logging phase has events only when enabled: the logging recipe's fetch, the filter, the prompts and execution events |
| InstallerProperties.IntegrationStepEvents | internal/install/recipe_installer.go:326-335 | one warn-only step only executes, validates, reports, logs reporter errors and warns |
| InstallerProperties.IntegrationsLoopEvents | internal/install/recipe_installer.go:110-112 | the integrations loop only executes, validates, reports, logs reporter errors and warns |
| InstallerProperties.IntegrationEventsAllowed | internal/install/recipe_installer.go:108-113 | the integrations phase has events only when enabled: execution events and warnings |
| InstallerProperties.AvailabilityReportedOnlyForRecommendations | internal/install/recipe_installer.go:92-96 | an availability report appears only in recommendation mode and only in the acquisition phase |
| InstallerProperties.PhasesRunInOrder | internal/install/recipe_installer.go:65-124 | entries never go back to an earlier phase, and a run that stops in a phase has no entry of any later one |
| InstallerProperties.NameModeGoesOnIffAllFound | internal/install/recipe_installer.go:86-91 | in name mode, acquisition goes on exactly when every name's fetch succeeds with a recipe |
| InstallerProperties.NameStepPanics | internal/install/recipe_installer.go:89-90 | one name stops exactly when it is not found, and then panics on its nil recipe after the fetch's events |
| InstallerProperties.NameModePanicsOnFirstMissingRecipe | internal/install/recipe_installer.go:86-91 | otherwise acquisition panics on the first name not found, after the steps of the names before it and that name's fetch and warning |
| InstallerProperties.PathFailureAborts | internal/install/recipe_installer.go:81-85 | if any path fails to load or finalize, the path loop stops with an abort |
| InstallerProperties.PathModeAcquisitionAborts | internal/install/recipe_installer.go:81-85 | in path mode a failing path makes acquisition stop with an abort, and acquisition never executes a recipe |
| InstallerProperties.PathFailureAbortsBeforeExecution | internal/install/recipe_installer.go:81-85 | in path mode such a failure stops the whole run with an abort in discovery or acquisition, and no recipe is executed |
| InstallerProperties.RecommendationsAreReportedAvailable | internal/install/recipe_installer.go:92-96 | in recommendation mode the recommendations are fetched first; a failed fetch aborts with only that call; a successful one is reported available exactly once with the fetched recipes, whatever the reporter answers |
| InstallerProperties.InfraWithoutManifest | internal/install/recipe_installer.go:172-174 | with no manifest the agent phase fetches and then stops, executing nothing |
| InstallerProperties.LoggingWithoutManifest | internal/install/recipe_installer.go:176-199 | with no manifest the logging phase stops and executes nothing |
| InstallerProperties.IntegrationsWithoutManifest | internal/install/recipe_installer.go:109-113 | with no manifest the integrations loop leaves no event, and with at least one recipe it stops with the nil-manifest panic |
| InstallerProperties.SkippedDiscoveryNeverExecutes | internal/install/recipe_installer.go:74-78 | with discovery skipped no recipe is ever executed, and a run that must install the agent or the logging recipe stops |
| InstallerProperties.IntegrationStepExecutes | internal/install/recipe_installer.go:110-111 | with a manifest, one integration step goes on and executes exactly its recipe |
| InstallerProperties.IntegrationsAttemptEveryRecipe | internal/install/recipe_installer.go:108-113 | with a manifest the integrations loop never stops and executes every recipe, in order, whatever each outcome |
| InstallerProperties.IntegrationsGoOn | internal/install/recipe_installer.go:108-113 | with a manifest the integrations phase goes on, enabled or not |
| InstallerProperties.IntegrationFailuresOnlyWarn | internal/install/recipe_installer.go:108-113 | with discovery run, a run never stops in the integrations phase (given the discoverer assumption under "Left out") |
| InstallerProperties.AcceptedMembership | internal/install/recipe_installer.go:185-190 | a match is accepted exactly when it is among the matches and answered "Yes" |
| InstallerProperties.AcceptedMatchesIsFilter | internal/install/recipe_installer.go:185-190 | accepting distributes over concatenation, so the accepted matches are the "Yes" ones in their original order |
| InstallerProperties.LoggingIsFatal | internal/install/recipe_installer.go:176-199 | with a manifest every stop of the logging phase is an abort, and it goes on exactly when the logging recipe is found, the filter succeeds and the recipe with the accepted matches injected gets the verdict (true, nil) |
| InstallerProperties.LoggingAbortsEndPhase | internal/install/recipe_installer.go:176-182 | a missing logging recipe leaves only its fetch, and a failing filter leaves only the fetch and the filter call: neither one prompts or executes |
| InstallerProperties.LoggingInjectsAcceptedMatches | internal/install/recipe_installer.go:176-199 | with a manifest, a found logging recipe and a successful filter, the logging phase executes exactly one recipe: the fetched one with DISCOVERED_LOG_FILES set to the accepted matches |
| InstallerProperties.ExecuteAndValidateIgnoresReporter | internal/install/recipe_installer.go:254-300 | collaborators that differ only in their reporters give the same verdict and the same events up to logged error lines |
| InstallerProperties.AcquisitionIgnoresReporter | internal/install/recipe_installer.go:92-96 | acquisition ends alike and agrees up to logged lines whatever the reporters answer |
| InstallerProperties.InfraIgnoresReporter | internal/install/recipe_installer.go:172-174 | the agent phase ends alike and agrees up to logged lines whatever the reporters answer |
| InstallerProperties.LoggingIgnoresReporter | internal/install/recipe_installer.go:176-199 | the logging phase ends alike and agrees up to logged lines whatever the reporters answer |
| InstallerProperties.IntegrationStepIgnoresReporter | internal/install/recipe_installer.go:326-335 | one warn-only step ends alike and agrees up to logged lines whatever the reporters answer |
| InstallerProperties.IntegrationsIgnoreReporter | internal/install/recipe_installer.go:108-113 | the integrations loop ends alike and agrees up to logged lines whatever the reporters answer |
| InstallerProperties.ReporterErrorsChangeNothing | internal/install/recipe_installer.go:284-300 | a whole run under reporters that fail differently has the same outcome and the same trace except for logged error lines |

## Left out

- Spinners, the welcome and success banners, and `fmt.Println` output: terminal presentation
  only. The success banner is the `Succeeded` outcome.
- The account id read from the default credentials profile for the success banner: it is only
  printed.
- The real behaviour of the collaborators (discovery, fetching, execution, validation, filtering,
  reporting, the log-file prompt). Each is an arbitrary deterministic function of its inputs, so
  the properties hold whatever they do. A collaborator that answers differently on two identical
  calls is not modelled; in particular the operator is taken to answer the same way for two equal
  log matches.
- A nil value with no error from the discoverer, the file fetcher, the file loader or the recipe
  conversion (`ToRecipe`). These four are modelled as returning a value or an error, so each of
  them is assumed to return a non-nil value whenever it returns no error. Go would pass such a nil
  on and dereference it later (the manifest at line 256, the recipe at line 84, the file at line
  165), which panics. Only the recipe fetcher's nil answer ("not found") is modelled.
- InstallerProperties.IntegrationFailuresOnlyWarn: holds under the assumption above. A discoverer
  that answers with neither a manifest nor an error would make the Go run panic in the
  integrations phase.
- `url.Parse` and its scheme check: the oracle `hasScheme` stands for "parses with a non-empty
  scheme".
- The promptui selection widget: the prompt is an oracle answering Yes, No or an error.
- Cancellation through the signal context: calls are modelled as returning normally.
- The logrus levels and formatting of log lines. A warning and a logged error are distinct
  events, and `Text` gives their wording. Debug lines ("Skipping validation ...") bring no event.
- `newRecipeInstaller`: it only copies its arguments into the struct, which `Installer` holds
  directly.
- The `installContext` predicates. install_context.go is not part of this model. The predicates
  are taken as the flags they are named after, and "paths/names provided" as non-empty lists.
- The YAML form of the logging configuration: `DISCOVERED_LOG_FILES` holds the accepted matches as
  a list value.
- Mutation of the recipe through the pointer in `AddVar` is modelled as a new recipe value that is
  then executed. Nothing else holds that pointer.
- RecipeTypes.AddVar: the body of `recipe.AddVar` is not part of this model (only its call at line
  196 is). Its meaning, storing the value under the key and leaving the rest of the recipe alone,
  is assumed from its name and use.
