# data-checks: suite runners and the execution recorder, in Dafny

This project models the orchestration core of the data-checks framework and
proves properties of that model. A *suite* groups *checks*; running a suite
calls `setup`, then, for every selected check, `before`, the check's
`run_all`, `on_success` or `on_failure`, and `after`, then `teardown`. Along
the way rows are created and updated in the suite, suite-execution,
check-execution and rule-execution tables. Three parts of the program are
modelled:

- `base_suite.dfy` (module `BaseSuite`) models the current suite runner,
  `data_checks/base/suite.py`. A suite is declared by class-level hooks
  (`checks()`, `checks_overrides()`, `dataset()`, `checks_config()`,
  `suite_config()`), and each hook either returns a value or raises.
  `before` calls `dataset()`, `checks_config()` and `suite_config()` again
  for every check, so those three are functions of the check's index in the
  episode and may give each check a different result or raise for some
  checks only. The spec
  functions (`SetupSpec`, `BeforeSpec`, `CheckStep`, `Loop`, `TeardownSpec`,
  `RunSpec`) describe one episode over a `State`. The class
  `BaseSuite.Suite` holds the same state in fields and performs each step in
  place, and every method is proved equal to its spec function.
- `legacy_suite.dfy` (module `LegacySuite`) models the older runner,
  `src/data_checks/suite.py`, with the same structure. It differs from the
  current runner in these ways:
  - checks are passed to the constructor;
  - `before` sits inside the `try`;
  - `teardown` does nothing;
  - a `dataset` property mirrors `_internal["dataset"]`.
- `execution_database_action.dfy` (module `ExecutionDatabaseAction`) models
  the recorder callbacks,
  `data_checks/base/actions/check/execution_database_action.py`. They act on
  a `World`:
  - the per-invocation `context` dictionary;
  - the check's `_internal` entries;
  - the two execution tables;
  - the current `sys.stdout` target (`Real` or `Buffer(id)`);
  - the capture buffers;
  - the text that reached the real stdout.

  The class `ExecutionDatabaseAction.Recorder` performs each callback in place.

`lifecycle.dfy` (module `Lifecycle`) holds what the three share:
- the exceptions (`KeyError`, `AttributeError`, user errors);
- `Result` and `Outcome`;
- check instances;
- the lifecycle trace `Event`;
- an abstract id-to-row `Store` that stands for the ORM managers;
- the tag filter and the metadata map.

The parts of `Check` that the runners only call are parameters. An `Oracles`
value gives the `run_all` outcome and the `_update_from_suite_internals`
outcome of each check from its position in the run and its value, so two
equal checks at different positions can behave differently. In the current
runner the definition's `construct` gives the outcome of a Check class's
constructor, so `get_checks` can raise from inside `__init__`. An exception
is either an `Exception` or a `BaseExn` (such as `KeyboardInterrupt` or
`SystemExit`); `except Exception` catches only the first kind, so a
`BaseExn` from `run_all`, or from `before` in the older runner, skips
`on_failure`, `after` and `teardown`. `on_failure` is a `FailurePolicy`:
`Reraise` is the source's default, and `Swallow` stands for a subclass that
overrides it to return. A `run` yields an `Episode`, which has three parts:
- the trace of hook calls;
- whether an exception escaped;
- the final state.

## Model

| member | source | states |
|---|---|---|
| Lifecycle.Store.Insert | data_checks/database/managers/suite_manager.py:11-31 | a create call stores the row under a fresh id (the next one, never 0); it keeps every existing row and the table invariant |
| Lifecycle.Store.Modify | data_checks/base/suite.py:228-231 | an update by id rewrites only that row and leaves the ids unchanged; an id naming no row changes nothing |
| Lifecycle.WithTags | data_checks/base/suite.py:108-112 | a check is in the result iff it is among the inputs and its tags meet the filter; the result is no longer than the input |
| Lifecycle.WithTagsAppend | src/data_checks/suite.py:44-46 | the filter distributes over concatenation, so it keeps the source order |
| Lifecycle.WithTagsAllMatch | data_checks/base/suite.py:108-112 | when every check carries a wanted tag, the filter returns the list unchanged |
| Lifecycle.SelectChecks | src/data_checks/suite.py:37-46 | no tags gives the check list itself; otherwise membership is exactly "tags intersect"; an empty tag set selects nothing |
| Lifecycle.RuleTagsFor | src/data_checks/suite.py:73 | the rule-tag filter handed to a check is `check_rule_tags[name]` iff that key exists, else None |
| Lifecycle.MetadataByName | src/data_checks/suite.py:131-139 | the map's keys are exactly the checks' names |
| Lifecycle.MetadataLastWins | src/data_checks/suite.py:137-138 | the value under a name is the metadata of the last check with that name |
| BaseSuite.OverridesFor | data_checks/base/suite.py:79-83 | overrides are `{}` when the hook returned None or the key is missing, else the entry for the key |
| BaseSuite.EntryCheck | data_checks/base/suite.py:79-97 | an entry raises iff it names an unregistered check (KeyError of the name) or its class's constructor raises (that exception); it yields a check iff it is registered or a Check subclass and the constructor returns; that check carries the class's name, the overrides for its name or `__name__` and the suite's should_schedule_runs |
| BaseSuite.Suite.MakeEntry | data_checks/base/suite.py:79-97 | one pass of the entry loop, equal to `EntryCheck` |
| BaseSuite.BuildFrom | data_checks/base/suite.py:76-99 | at most one check per entry; the build fails iff some entry names an unregistered check or has a constructor that raises |
| BaseSuite.BuildChecks | data_checks/base/suite.py:75-99 | an exception from `checks_overrides()`, then from `checks()`, propagates; otherwise at most one check per entry |
| BaseSuite.BuildFromErrPersists | data_checks/base/suite.py:84-90 | once an entry raises, the entries after it are never reached |
| BaseSuite.BuildFromFirstFailure | data_checks/base/suite.py:84-97 | the build's error is that of the first failing entry: the KeyError of an unregistered name, or the exception its constructor raised |
| BaseSuite.BuildFromAppend | data_checks/base/suite.py:78-99 | building distributes over concatenation, so checks come out in declaration order; an error comes from the first part when it has one, else from the second |
| BaseSuite.BuildFromAllResolvable | data_checks/base/suite.py:78-99 | when every entry resolves and its constructor returns, there is exactly one check per entry, at its position |
| BaseSuite.SkipsNonCheckClass | data_checks/base/suite.py:91-97 | a class that is not a Check subclass is skipped silently: the list, or the error, is as if it were absent |
| BaseSuite.ChecksWithTags | data_checks/base/suite.py:101-112 | no tags gives exactly `get_checks()`; otherwise the tag filter of it; its errors propagate unchanged |
| BaseSuite.PendingRuns | data_checks/base/suite.py:171-180 | one unstarted unit per selected check, in order; build errors propagate |
| BaseSuite.SetupSpec | data_checks/base/suite.py:114-130 | a suite row is always created and remembered; a "running" suite execution is created only when should_schedule_runs is false, otherwise the executions are untouched |
| BaseSuite.ScheduleFor | data_checks/base/suite.py:138-140 | the schedule override is `schedules[name]` when the `suite_config()` result has a "schedules" entry holding that name, else None |
| BaseSuite.BeforeWrites | data_checks/base/suite.py:132-141 | `BeforeSpec`: for the check at index i, the i-th results of `dataset()` and `checks_config()` are written into `_internal` in that order; an exception from either, or then from `suite_config()`, stops before the push with the earlier writes kept; otherwise the check receives the refreshed `_internal` and its schedule override, and the push's outcome is before's |
| BaseSuite.TeardownSpec | data_checks/base/suite.py:221-231 | the suite execution becomes "success" iff one exists; nothing else changes |
| BaseSuite.PushCarriesHooks | data_checks/base/suite.py:136-141 | what a check is handed is the suite's two models with the results of its own `dataset()` and `checks_config()` calls, and the override from its own `suite_config()` call; nothing an earlier check saw reaches it |
| BaseSuite.BlocksShape | data_checks/base/suite.py:147-155 | each completed check contributes five events: progress `[j+1/N]` first, then before with what check j is handed, and after last; there is no setup or teardown among them |
| BaseSuite.BlocksEvents | data_checks/base/suite.py:147-155 | the blocks of checks i..k-1 hold no setup or teardown, and only progress lines numbered i+1..k |
| BaseSuite.BlocksAllSucceeded | data_checks/base/suite.py:150-154 | when every run_all returns, no on_failure occurs |
| BaseSuite.LoopKeepsRecords | data_checks/base/suite.py:147-155 | the loop never writes the tables, the suite model or the suite execution model |
| BaseSuite.LoopRunsThrough | data_checks/base/suite.py:147-155 | when every check returns normally, the loop emits exactly one block per check and completes |
| BaseSuite.LoopStopsAt | data_checks/base/suite.py:147-155 | the loop stops at the first check whose step raises: earlier blocks, then that check's partial block, and that exception |
| BaseSuite.RunCompletesTrace | data_checks/base/suite.py:143-157 | when every check returns normally, the trace is setup, one block per check, teardown |
| BaseSuite.RunCompletes | data_checks/base/suite.py:143-157 | in such an episode check j of N has its progress line at position 1+5j, its before next and its after four events after the progress line; teardown happens exactly once, as the last event |
| BaseSuite.RunPushesOwnHookResults | data_checks/base/suite.py:136-149 | in such an episode check j is handed the suite row and execution this run created, the j-th results of `dataset()` and `checks_config()`, and its override from the j-th `suite_config()` |
| BaseSuite.RunAllSucceed | data_checks/base/suite.py:150-152 | with the default on_failure and no raising hook, the run completes with only success blocks |
| BaseSuite.RunAbortsAtFirstFailure | data_checks/base/suite.py:149-155 | the first exception that escapes a pass propagates out of run; that check gets no after; no later check and no teardown occur; on_failure is last iff the exception came from run_all and is an `Exception`, and is absent otherwise |
| BaseSuite.RunStops | data_checks/base/suite.py:143-155 | the episode that stops at check k is setup, the blocks of the checks before k, then k's partial block, and raises k's exception |
| BaseSuite.BaseExceptionEscapes | data_checks/base/suite.py:150-153 | a BaseException from run_all is not caught: it leaves run at once, run_all is the last event, and neither on_failure nor teardown is called |
| BaseSuite.BeforeFailureBypassesOnFailure | data_checks/base/suite.py:149-150 | an exception in before propagates without any on_failure call |
| BaseSuite.RunWithUnbuildableChecks | data_checks/base/suite.py:144-146 | when get_checks raises, run raises right after setup and nothing else happens |
| BaseSuite.RunMarksExecution | data_checks/base/suite.py:143-157 | without schedule-only mode the run's own execution ends "success" iff the run completes, and stays "running" if it raised |
| BaseSuite.ScheduleOnlyWritesNoExecution | data_checks/base/suite.py:123-124 | in schedule-only mode no suite execution is created or updated |
| BaseSuite.RunPreservesValid | data_checks/base/suite.py:143-157 | every episode keeps the state invariant: the models exist in their tables, and there is no execution model in schedule-only mode |
| BaseSuite.RunTwiceDistinctHandles | data_checks/base/suite.py:118-130 | two runs create distinct suite rows and distinct suite executions |
| BaseSuite.Suite.constructor | data_checks/base/suite.py:22-27 | every `_internal` entry starts as None |
| BaseSuite.Suite.GetChecks | data_checks/base/suite.py:75-99 | the append loop builds exactly `BuildChecks` |
| BaseSuite.Suite.GetChecksWithTags | data_checks/base/suite.py:101-112 | returns `ChecksWithTags` |
| BaseSuite.Suite.GenerateAsyncCheckRuns | data_checks/base/suite.py:171-180 | returns `PendingRuns` |
| BaseSuite.Suite.RunAsyncDeferred | data_checks/base/suite.py:191-192 | with should_run false: the pending units only; there is no setup, no teardown and no state change |
| BaseSuite.Suite.Setup | data_checks/base/suite.py:114-130 | the new fields are `SetupSpec` of the old ones |
| BaseSuite.Suite.Before | data_checks/base/suite.py:132-141 | the events, outcome and new fields are `BeforeSpec` of the old ones for the check's index |
| BaseSuite.Suite.OnFailure | data_checks/base/suite.py:215-219 | the default re-raises the exception; an override returns |
| BaseSuite.Suite.Teardown | data_checks/base/suite.py:221-231 | the new fields are `TeardownSpec` of the old ones |
| BaseSuite.Suite.RunCheck | data_checks/base/suite.py:147-155 | one loop pass, equal to `CheckStep` |
| BaseSuite.Suite.RunChecks | data_checks/base/suite.py:147-155 | the loop, equal to `Loop` from index 0 |
| BaseSuite.Suite.Run | data_checks/base/suite.py:143-157 | the whole episode, equal to `RunSpec` |
| BaseSuite.Suite.GetAllMetadata | data_checks/base/suite.py:233-241 | rebuilds the checks and maps each name to its metadata (`MetadataByName`); build errors propagate |
| LegacySuite.Configure | src/data_checks/suite.py:20-25 | the name defaults to the class name; the description is "" exactly when it was None or empty |
| LegacySuite.InitialState | src/data_checks/suite.py:23-26 | `_internal` holds the dataset given; the `_dataset` attribute exists iff a dataset was given |
| LegacySuite.GetDataset | src/data_checks/suite.py:28-30 | reading an unset attribute raises AttributeError; otherwise the value agrees with `_internal["dataset"]` |
| LegacySuite.SetDatasetSpec | src/data_checks/suite.py:32-35 | after the setter the property returns the new value; it equals `_internal["dataset"]`; nothing else changes |
| LegacySuite.ConstructedWithoutDataset | src/data_checks/suite.py:23-30 | without a dataset, `_internal` holds None but the property raises until the setter runs |
| LegacySuite.SetupSpec | src/data_checks/suite.py:48-57 | one suite row with the suite's name, description and module source, remembered in `_internal` |
| LegacySuite.DeferredRuns | src/data_checks/suite.py:90-96 | one rule-runs request per selected check, in order, each with that check's rule tags |
| LegacySuite.FailBlockShape | src/data_checks/suite.py:75-76 | the failing pass ends in on_failure with that exception and contains no after |
| LegacySuite.BlocksCounts | src/data_checks/suite.py:69-77 | each completed pass contains exactly one progress line, one before and one after, whether or not it failed |
| LegacySuite.LoopRunsThrough | src/data_checks/suite.py:69-77 | when every pass returns normally, the loop emits one block per check and completes |
| LegacySuite.LoopStopsAt | src/data_checks/suite.py:69-77 | the loop stops at the first pass whose on_failure raises |
| LegacySuite.RunCompletes | src/data_checks/suite.py:65-79 | trace = setup, blocks, teardown; before and after occur once per selected check; teardown occurs once, last |
| LegacySuite.SwallowedFailuresRunEveryCheck | src/data_checks/suite.py:65-79 | with an on_failure that returns, run completes iff no pass raises a BaseException, and then every selected check reaches after; otherwise it raises a BaseException and teardown is not reached |
| LegacySuite.RunAbortsAtFirstFailure | src/data_checks/suite.py:71-79 | the first exception from before or run_all that is not swallowed propagates: through on_failure (the last event) when it is an `Exception`, skipping on_failure when it is a BaseException; that check gets no after; no later check and no teardown occur |
| LegacySuite.RunStops | src/data_checks/suite.py:65-79 | the episode that stops at check k is setup, the blocks of the checks before k, then k's partial block, and raises k's exception |
| LegacySuite.RunOnlySetupChanges | src/data_checks/suite.py:107-129 | after, on_success and teardown change nothing: the state after run is the state after setup |
| LegacySuite.RunTwiceDistinctSuites | src/data_checks/suite.py:48-57 | each run records its own suite row |
| LegacySuite.Suite.constructor | src/data_checks/suite.py:12-26 | the fields are `Configure` and `InitialState` of the arguments |
| LegacySuite.Suite.SetDataset | src/data_checks/suite.py:32-35 | the new fields are `SetDatasetSpec` of the old ones |
| LegacySuite.Suite.Setup | src/data_checks/suite.py:48-57 | the new fields are `SetupSpec` of the old ones |
| LegacySuite.Suite.Before | src/data_checks/suite.py:59-63 | hands the check the current `_internal`; returns the update call's outcome |
| LegacySuite.Suite.OnFailure | src/data_checks/suite.py:119-123 | the default re-raises the exception; an override returns |
| LegacySuite.Suite.RunCheck | src/data_checks/suite.py:69-77 | one loop pass, equal to `PassSpec` |
| LegacySuite.Suite.RunChecks | src/data_checks/suite.py:69-77 | the loop, equal to `Loop` from index 0 |
| LegacySuite.Suite.Run | src/data_checks/suite.py:65-79 | the whole episode, equal to `RunSpec` |
| LegacySuite.Suite.GetAllMetadata | src/data_checks/suite.py:131-139 | the dict loop builds `MetadataByName` of the constructor's checks |
| ExecutionDatabaseAction.Touch | data_checks/base/actions/check/execution_database_action.py:23-26 | a manager update rewrites only the row with that id, field by field as passed |
| ExecutionDatabaseAction.UpdateSpec | data_checks/base/actions/check/execution_database_action.py:19-26 | the rule table changes only for "rule" with a truthy id, and the check table only for "check" with a truthy id; anything else is a no-op |
| ExecutionDatabaseAction.TrimStart | data_checks/base/actions/check/execution_database_action.py:119 | drops exactly the leading whitespace |
| ExecutionDatabaseAction.TrimEnd | data_checks/base/actions/check/execution_database_action.py:119 | drops exactly the trailing whitespace |
| ExecutionDatabaseAction.StripEmptyIffBlank | data_checks/base/actions/check/execution_database_action.py:119 | `logs.strip() != ""` iff the logs contain a character that is not whitespace |
| ExecutionDatabaseAction.SetupSpec | data_checks/base/actions/check/execution_database_action.py:29-37 | no check model: no change; otherwise a new "running" check execution for it becomes `check_execution_model` |
| ExecutionDatabaseAction.BeforeSpec | data_checks/base/actions/check/execution_database_action.py:40-57 | a missing `params` raises KeyError; a missing `rule_model` changes nothing; otherwise: a "running" rule execution with the serialized params, a fresh empty buffer as output and as stdout, and `exec_id` set to the new, truthy id |
| ExecutionDatabaseAction.OnSuccessSpec | data_checks/base/actions/check/execution_database_action.py:60-72 | no `exec_id`: no change; otherwise the rule execution becomes "success" with empty logs |
| ExecutionDatabaseAction.FailurePatch | data_checks/base/actions/check/execution_database_action.py:85-94 | status "failure", empty logs, the exception's JSON; a traceback only when an inner exception exists, else None |
| ExecutionDatabaseAction.OnFailureSpec | data_checks/base/actions/check/execution_database_action.py:75-101 | no `exec_id`: no change; a missing `exception` raises KeyError; otherwise the failure patch goes to the rule, then "failure" goes to the check execution if there is one |
| ExecutionDatabaseAction.Replay | data_checks/base/actions/check/execution_database_action.py:119-120 | the captured logs reach the real stdout, followed by a newline, iff they are not blank |
| ExecutionDatabaseAction.AfterSpec | data_checks/base/actions/check/execution_database_action.py:104-127 | no `exec_id`: stdout is restored and nothing else changes; a missing `params` (or a missing `output` with a truthy id) raises KeyError; a truthy id reads the buffer as logs, restores stdout and replays; params and logs are then recorded |
| ExecutionDatabaseAction.TeardownSpec | data_checks/base/actions/check/execution_database_action.py:130-140 | the check execution, when there is one, becomes "success"; nothing else changes |
| ExecutionDatabaseAction.WriteSpec | data_checks/base/actions/check/execution_database_action.py:56 | what the rule prints goes to the buffer stdout points to, or to the real stdout |
| ExecutionDatabaseAction.SuccessfulRuleRun | data_checks/base/actions/check/execution_database_action.py:40-127 | before, a print, on_success, after: stdout is Buffer during the rule and Real after; the new rule execution ends "success" with the params and exactly the printed text as logs; older rows and the check table are unchanged; the text is replayed iff not blank |
| ExecutionDatabaseAction.FailedRuleRun | data_checks/base/actions/check/execution_database_action.py:75-127 | setup, before, on_failure, after: the rule execution ends "failure" with the exception's JSON, a traceback only for an inner exception, and empty logs; the check execution is "failure"; stdout is real again |
| ExecutionDatabaseAction.TeardownOverridesFailure | data_checks/base/actions/check/execution_database_action.py:130-140 | teardown sets the check execution to "success" even after on_failure marked it "failure" |
| ExecutionDatabaseAction.UnrecordedRuleRun | data_checks/base/actions/check/execution_database_action.py:40-110 | without a rule model nothing is recorded, stdout is never redirected, and after only restores stdout |
| ExecutionDatabaseAction.Recorder.UpdateExecution | data_checks/base/actions/check/execution_database_action.py:19-26 | the new fields are `UpdateSpec` of the old ones |
| ExecutionDatabaseAction.Recorder.Setup | data_checks/base/actions/check/execution_database_action.py:29-37 | the new fields are `SetupSpec` of the old ones |
| ExecutionDatabaseAction.Recorder.Before | data_checks/base/actions/check/execution_database_action.py:40-57 | the outcome and new fields are `BeforeSpec` of the old ones |
| ExecutionDatabaseAction.Recorder.OnSuccess | data_checks/base/actions/check/execution_database_action.py:60-72 | the new fields are `OnSuccessSpec` of the old ones |
| ExecutionDatabaseAction.Recorder.OnFailure | data_checks/base/actions/check/execution_database_action.py:75-101 | the outcome and new fields are `OnFailureSpec` of the old ones |
| ExecutionDatabaseAction.Recorder.After | data_checks/base/actions/check/execution_database_action.py:104-127 | the outcome and new fields are `AfterSpec` of the old ones |
| ExecutionDatabaseAction.Recorder.Teardown | data_checks/base/actions/check/execution_database_action.py:130-140 | the new fields are `TeardownSpec` of the old ones |
| ExecutionDatabaseAction.Recorder.Write | data_checks/base/actions/check/execution_database_action.py:56 | the new fields are `WriteSpec` of the old ones |

## Left out

- `run_async` with `should_run=True` and `_exec_async_check` (data_checks/base/suite.py:159-169, 194-201; src/data_checks/suite.py:98-105): these are `asyncio.gather` scheduling. The model makes no claims about concurrency. Only the `should_run=False` branches are modelled.
- The ORM managers and `db.save()` are not part of this model. The tables are abstract `Store`s, and a created row gets the next id, starting at 1.
- Lifecycle.Store.Modify: an update writes only the fields passed by keyword. The current package's managers are not part of this model. The older manager in src/data_checks/database/managers/check_execution_manager.py:31-51 overwrites every field, and also sets `finished_at`; neither behaviour is modelled.
- ExecutionDatabaseAction.Touch: the same partial-update assumption as `Store.Modify`. `finished_at` timestamps are not modelled.
- These library calls become parameters whose results are only stored:
  - `json.dumps`, `traceback.format_tb` and `DataCheckException.toJSON` (the `Foreign` value);
  - `class_utils.get_class_code` and `file_utils.get_current_file_contents` (the `code` field of a definition).
- `Check.run_all`, `Check._update_from_suite_internals` and, in the current runner, the Check constructor are oracles. The first two are functions of the check's position in the run and its value; the constructor is a function of the class, the overrides and should_schedule_runs. Their internals and any mutation a check makes to the `_internal` dictionary it receives are left out, since a check may keep a reference to that dictionary.
- `data_check_registry` is assumed to behave as a dict: a name it lacks raises `KeyError(name)`. Its type is not part of this model.
- BaseSuite.Definition: `checks()` and `checks_overrides()` are one result each, the same on every call of `get_checks`. The three hooks `before` calls are indexed by the check's position in the episode, so a hook whose result depends on how many earlier runs called it is expressed only by giving each run its own definition.
- LegacySuite.Suite.GetAllMetadata: the metadata that `run_all` writes into the constructor's checks is not modelled. The model's checks are values that a run leaves unchanged, so the map holds the metadata the checks had when the suite was constructed; the source returns what the last run recorded. The current runner rebuilds its checks in `get_all_metadata`, so `BaseSuite.Suite.GetAllMetadata` is not affected.
- BaseSuite.Suite.constructor: the definition carries the suite's name and description already resolved. The class-name default for the name (data_checks/base/suite.py:19-20) is modelled only for the older runner, by `LegacySuite.Configure`.
- The progress line prints `str(check)`. The model records the check's name, index and total instead of the formatted text. Printing it to stdout is not modelled.
- Real stdout, `StringIO` and `print` are a target variable, a map of buffer contents and the text that reached the real stdout. The suites' progress lines are not appended to that text.
- ExecutionDatabaseAction.World: `check._internal` is assumed to hold the keys `check_model` and `check_execution_model`, None when unset. The `Check` class that initializes them is not part of this model. A `rule_model` key is assumed to hold a model, never None.
- Mutable default arguments (`checks=[]`, `check_rule_tags={}`) share state across instances. The model treats each suite's arguments as its own values.
- A `checks()` entry that is neither a string nor a class is not modelled: an entry is a registry name or a class. In the source such an entry fails in one of two ways. When `checks_overrides()` returned a dict, `check.__name__` is read first (data_checks/base/suite.py:82), which raises AttributeError for an object without that attribute. Otherwise, or for an object that has a `__name__`, `issubclass` raises TypeError.
- `on_success` and `after` in both suite runners, and `teardown` in the older one, do nothing in the source. They appear only as trace events, and `LegacySuite.RunOnlySetupChanges` states that they change nothing.
- Lifecycle.SelectChecks: with no tags, the older runner returns the `self.checks` list object itself (src/data_checks/suite.py:41-42), so a caller that mutates the result mutates the suite's checks. The model gives only the list's value, so that aliasing is not modelled. The current runner returns the list `get_checks()` just built, which nothing else holds.
- Exceptions are classified only as `Exception` or BaseException (`BaseExn`). The class hierarchy and `except` clauses that name other classes are not modelled.
