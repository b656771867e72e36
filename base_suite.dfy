/**
 The suite runner of the current package (data_checks/base/suite.py).

 A suite is defined by a subclass that overrides class-level hooks
 (`checks()`, `checks_overrides()`, `dataset()`, `checks_config()`,
 `suite_config()`); those hooks are values of a `Definition`, each either
 returning or raising. The suite's `_internal` dictionary and the two tables
 behind SuiteManager and SuiteExecutionManager form the mutable `State`.

 The functions below specify every step of an episode over that state; the
 class `Suite` performs them in place and is proved equal to them, and the
 lemmas state the lifecycle order and the abort rule over the emitted trace.
 */
module BaseSuite {
  import opened Lifecycle

  /** A class object listed by `checks()`. */
  datatype CheckClass = CheckClass(
    className: string,       // its __name__, the key for rule overrides
    isCheckSubclass: bool,   // issubclass(cls, Check)
    checkName: string,       // the `name` its instances carry
    tags: set<Tag>,
    metadata: Metadata)      // the metadata of a freshly constructed instance

  /** An entry of `checks()`: a registry name or a class. */
  datatype CheckRef = ByName(key: string) | ByClass(cls: CheckClass)

  /** A schedule override: one cron string for the whole check, or one per rule. */
  datatype Schedule = Cron(expression: string) | PerRule(rules: map<string, string>)

  /** What `checks_config()` returns: fields shared by all checks. */
  datatype SharedConfig = SharedConfig(fields: map<string, string>)

  /**
   Everything a Suite subclass declares, and the constructor's arguments.
   `before` calls `dataset()`, `checks_config()` and `suite_config()` afresh
   for every check, and each call may return something else or raise, so
   these three hooks are functions of the index of the check in the episode:
   the result of the call made for that check.
   */
  datatype Definition = Definition(
    name: string,
    description: string,
    code: string,                                   // class_utils.get_class_code(cls)
    checkRuleTags: map<string, set<Tag>>,
    shouldScheduleRuns: bool,
    checks: Result<seq<CheckRef>>,                   // checks()
    checksOverrides: Result<Option<map<string, RulesParams>>>,  // checks_overrides()
    construct: (CheckClass, RulesParams, bool) -> Outcome,  // a Check class's __init__(rules_params, should_schedule_runs)
    dataset: nat -> Result<Option<Dataset>>,         // dataset()
    checksConfig: nat -> Result<Option<SharedConfig>>,  // checks_config()
    schedules: nat -> Result<Option<map<string, Schedule>>>,  // suite_config(), then .get("schedules")
    registry: map<string, CheckClass>,               // data_check_registry, a dict
    onFailure: FailurePolicy)

  /** The suite's `_internal` dictionary (ids stand for the ORM models). */
  datatype Internal = Internal(
    suiteModel: Option<nat>,
    suiteExecutionModel: Option<nat>,
    dataset: Option<Dataset>,
    checksConfig: Option<SharedConfig>)

  /** The arguments of `check._update_from_suite_internals`. */
  datatype Push = Push(internal: Internal, schedule: Option<Schedule>)

  datatype SuiteRow = SuiteRow(name: string, description: string, code: string)
  datatype SuiteExecutionRow = SuiteExecutionRow(suite: nat, status: Status)

  datatype State = State(
    internal: Internal,
    suites: Store<SuiteRow>,
    executions: Store<SuiteExecutionRow>)

  /** One step of an episode: the events it emits, how it ends, the state after it. */
  datatype Step = Step(events: seq<Event<Push>>, outcome: Outcome, state: State)

  /** A whole episode, or the rest of one. */
  datatype Episode = Episode(trace: seq<Event<Push>>, outcome: Outcome, state: State)

  /** An unstarted `_exec_async_check(check)` coroutine. */
  datatype PendingCheckRun = PendingCheckRun(check: Check)

  ghost predicate StateValid(d: Definition, s: State) {
    && s.suites.Valid()
    && s.executions.Valid()
    && (s.internal.suiteModel.Some? ==> s.internal.suiteModel.value in s.suites.rows)
    && (s.internal.suiteExecutionModel.Some? ==>
          s.internal.suiteExecutionModel.value in s.executions.rows)
    && (d.shouldScheduleRuns ==> s.internal.suiteExecutionModel.None?)
  }

  // ---------------------------------------------------------------------
  // get_checks
  // ---------------------------------------------------------------------

  /** `checks_overrides.get(key, {})`, or `{}` when the hook returned None. */
  function OverridesFor(ov: Option<map<string, RulesParams>>, key: string): (r: RulesParams)
    ensures ov.None? ==> r == map[]
    ensures ov.Some? && key in ov.value ==> r == ov.value[key]
    ensures ov.Some? && key !in ov.value ==> r == map[]
  {
    if ov.None? then map[] else Get(ov.value, key, map[])
  }

  /** The override key of an entry: the string itself, or the class's __name__. */
  function KeyOf(entry: CheckRef): string {
    match entry
    case ByName(k) => k
    case ByClass(cls) => cls.className
  }

  function Instantiate(cls: CheckClass, overrides: RulesParams, shouldScheduleRuns: bool): Check {
    Check(cls.checkName, cls.tags, cls.metadata, overrides, shouldScheduleRuns)
  }

  predicate Unregistered(d: Definition, entry: CheckRef) {
    entry.ByName? && entry.key !in d.registry
  }

  /** The entry names a class that `get_checks` instantiates. */
  predicate Resolvable(d: Definition, entry: CheckRef) {
    (entry.ByName? && entry.key in d.registry) || (entry.ByClass? && entry.cls.isCheckSubclass)
  }

  /** The class a resolvable entry names. */
  function ClassOf(d: Definition, entry: CheckRef): CheckClass
    requires Resolvable(d, entry)
  {
    if entry.ByName? then d.registry[entry.key] else entry.cls
  }

  /** The constructor call `get_checks` makes for a resolvable entry. */
  function Construct(d: Definition, ov: Option<map<string, RulesParams>>, entry: CheckRef): Outcome
    requires Resolvable(d, entry)
  {
    d.construct(ClassOf(d, entry), OverridesFor(ov, KeyOf(entry)), d.shouldScheduleRuns)
  }

  /** The entry makes `get_checks` raise: an unregistered name, or a constructor that raises. */
  predicate Fails(d: Definition, ov: Option<map<string, RulesParams>>, entry: CheckRef) {
    Unregistered(d, entry) || (Resolvable(d, entry) && Construct(d, ov, entry).Raised?)
  }

  /** The entry yields a check. */
  predicate Builds(d: Definition, ov: Option<map<string, RulesParams>>, entry: CheckRef) {
    Resolvable(d, entry) && Construct(d, ov, entry).Completed?
  }

  /** What one entry of `checks()` contributes: a check, nothing, a KeyError, or the constructor's exception. */
  function EntryCheck(d: Definition, ov: Option<map<string, RulesParams>>, entry: CheckRef)
    : (r: Result<Option<Check>>)
    ensures r.Err? <==> Fails(d, ov, entry)
    ensures Unregistered(d, entry) ==> r == Err(KeyError(entry.key))
    ensures Resolvable(d, entry) && Construct(d, ov, entry).Raised? ==> r == Err(Construct(d, ov, entry).error)
    ensures r.Ok? && r.value.Some? <==> Builds(d, ov, entry)
    ensures r.Ok? && r.value.Some? ==>
      && r.value.value.rulesParams == OverridesFor(ov, KeyOf(entry))
      && r.value.value.shouldScheduleRuns == d.shouldScheduleRuns
      && r.value.value.name == ClassOf(d, entry).checkName
  {
    var overrides := OverridesFor(ov, KeyOf(entry));
    match entry
    case ByName(k) =>
      if k !in d.registry then Err(KeyError(k))
      else
        (match d.construct(d.registry[k], overrides, d.shouldScheduleRuns)
         case Raised(e) => Err(e)
         case Completed => Ok(Some(Instantiate(d.registry[k], overrides, d.shouldScheduleRuns))))
    case ByClass(cls) =>
      if !cls.isCheckSubclass then Ok(None)
      else
        match d.construct(cls, overrides, d.shouldScheduleRuns)
        case Raised(e) => Err(e)
        case Completed => Ok(Some(Instantiate(cls, overrides, d.shouldScheduleRuns)))
  }

  /** The list `get_checks` appends to, after the given entries. */
  function BuildFrom(d: Definition, ov: Option<map<string, RulesParams>>, entries: seq<CheckRef>)
    : (r: Result<seq<Check>>)
    ensures r.Ok? ==> |r.value| <= |entries|
    ensures r.Err? <==> exists i :: 0 <= i < |entries| && Fails(d, ov, entries[i])
    decreases |entries|
  {
    if entries == [] then Ok([])
    else
      var init := entries[..|entries| - 1];
      assert forall i :: 0 <= i < |init| ==> init[i] == entries[i];
      match BuildFrom(d, ov, init)
      case Err(e) => Err(e)
      case Ok(prefix) =>
        match EntryCheck(d, ov, entries[|entries| - 1])
        case Err(e) => Err(e)
        case Ok(None) => Ok(prefix)
        case Ok(Some(c)) => Ok(prefix + [c])
  }

  /** `get_checks()`: overrides hook first, then the declared list. */
  function BuildChecks(d: Definition): (r: Result<seq<Check>>)
    ensures d.checksOverrides.Err? ==> r == Err(d.checksOverrides.error)
    ensures d.checksOverrides.Ok? && d.checks.Err? ==> r == Err(d.checks.error)
    ensures r.Ok? ==> |r.value| <= |d.checks.value|
  {
    match d.checksOverrides
    case Err(e) => Err(e)
    case Ok(ov) =>
      match d.checks
      case Err(e) => Err(e)
      case Ok(entries) => BuildFrom(d, ov, entries)
  }

  /** Once an entry fails, the rest of the list is never reached. */
  lemma {:induction false} BuildFromErrPersists(
    d: Definition, ov: Option<map<string, RulesParams>>, entries: seq<CheckRef>, n: nat)
    requires n <= |entries|
    requires BuildFrom(d, ov, entries[..n]).Err?
    ensures BuildFrom(d, ov, entries) == BuildFrom(d, ov, entries[..n])
    decreases |entries|
  {
    if n < |entries| {
      var init := entries[..|entries| - 1];
      assert init[..n] == entries[..n];
      BuildFromErrPersists(d, ov, init, n);
    } else {
      assert entries[..n] == entries;
    }
  }

  /**
   The error is that of the first entry that fails: the KeyError of an
   unregistered name, or the exception its constructor raised.
   */
  lemma BuildFromFirstFailure(
    d: Definition, ov: Option<map<string, RulesParams>>, entries: seq<CheckRef>, k: nat)
    requires k < |entries| && Fails(d, ov, entries[k])
    requires forall j :: 0 <= j < k ==> !Fails(d, ov, entries[j])
    ensures BuildFrom(d, ov, entries) == Err(EntryCheck(d, ov, entries[k]).error)
    ensures Unregistered(d, entries[k]) ==> BuildFrom(d, ov, entries) == Err(KeyError(entries[k].key))
  {
    var before := entries[..k];
    assert forall j :: 0 <= j < |before| ==> before[j] == entries[j];
    assert BuildFrom(d, ov, before).Ok?;
    var upto := entries[..k + 1];
    assert upto[..k] == before;
    assert BuildFrom(d, ov, upto) == Err(EntryCheck(d, ov, entries[k]).error);
    BuildFromErrPersists(d, ov, entries, k + 1);
  }

  /** Building one more entry: the last entry's check, nothing, or its error. */
  lemma BuildFromSnoc(d: Definition, ov: Option<map<string, RulesParams>>, entries: seq<CheckRef>, i: nat)
    requires i < |entries| && BuildFrom(d, ov, entries[..i]).Ok?
    ensures EntryCheck(d, ov, entries[i]).Err? ==>
      BuildFrom(d, ov, entries[..i + 1]) == Err(EntryCheck(d, ov, entries[i]).error)
    ensures EntryCheck(d, ov, entries[i]) == Ok(None) ==>
      BuildFrom(d, ov, entries[..i + 1]) == BuildFrom(d, ov, entries[..i])
    ensures EntryCheck(d, ov, entries[i]).Ok? && EntryCheck(d, ov, entries[i]).value.Some? ==>
      BuildFrom(d, ov, entries[..i + 1])
        == Ok(BuildFrom(d, ov, entries[..i]).value + [EntryCheck(d, ov, entries[i]).value.value])
  {
    assert entries[..i + 1][..i] == entries[..i];
  }

  /**
   Checks come out in declaration order: building distributes over
   concatenation, and an error comes from the first half when it has one,
   else from the second.
   */
  lemma {:induction false} BuildFromAppend(
    d: Definition, ov: Option<map<string, RulesParams>>, a: seq<CheckRef>, b: seq<CheckRef>)
    ensures BuildFrom(d, ov, a).Err? ==> BuildFrom(d, ov, a + b) == BuildFrom(d, ov, a)
    ensures BuildFrom(d, ov, a).Ok? && BuildFrom(d, ov, b).Err? ==>
      BuildFrom(d, ov, a + b) == BuildFrom(d, ov, b)
    ensures BuildFrom(d, ov, a).Ok? && BuildFrom(d, ov, b).Ok? ==>
      BuildFrom(d, ov, a + b) == Ok(BuildFrom(d, ov, a).value + BuildFrom(d, ov, b).value)
    decreases |b|
  {
    if BuildFrom(d, ov, a).Err? {
      assert (a + b)[..|a|] == a;
      BuildFromErrPersists(d, ov, a + b, |a|);
    } else if b == [] {
      assert a + b == a;
      assert BuildFrom(d, ov, a).value + [] == BuildFrom(d, ov, a).value;
    } else {
      var init := b[..|b| - 1];
      var last := b[|b| - 1];
      assert (a + b)[..|a + b| - 1] == a + init;
      assert (a + b)[|a + b| - 1] == last;
      BuildFromAppend(d, ov, a, init);
      if BuildFrom(d, ov, init).Ok? {
        var la, li := BuildFrom(d, ov, a).value, BuildFrom(d, ov, init).value;
        assert BuildFrom(d, ov, a + init) == Ok(la + li);
        match EntryCheck(d, ov, last)
        case Err(e) =>
          assert BuildFrom(d, ov, b) == Err(e);
        case Ok(None) =>
          assert BuildFrom(d, ov, b) == Ok(li);
        case Ok(Some(c)) =>
          assert BuildFrom(d, ov, b) == Ok(li + [c]);
          assert la + li + [c] == la + (li + [c]);
      }
    }
  }

  /** When every entry yields a check, there is exactly one check per entry, at its position. */
  lemma {:induction false} BuildFromAllResolvable(
    d: Definition, ov: Option<map<string, RulesParams>>, entries: seq<CheckRef>)
    requires forall i :: 0 <= i < |entries| ==> Builds(d, ov, entries[i])
    ensures BuildFrom(d, ov, entries).Ok?
    ensures |BuildFrom(d, ov, entries).value| == |entries|
    ensures forall i :: 0 <= i < |entries| ==>
      BuildFrom(d, ov, entries).value[i] == EntryCheck(d, ov, entries[i]).value.value
    decreases |entries|
  {
    if entries != [] {
      var init := entries[..|entries| - 1];
      assert forall i :: 0 <= i < |init| ==> init[i] == entries[i];
      BuildFromAllResolvable(d, ov, init);
    }
  }

  /** A class that is not a Check subclass is skipped silently: the build, or its error, is as if it were absent. */
  lemma SkipsNonCheckClass(
    d: Definition, ov: Option<map<string, RulesParams>>,
    a: seq<CheckRef>, cls: CheckClass, b: seq<CheckRef>)
    requires !cls.isCheckSubclass
    ensures BuildFrom(d, ov, a + [ByClass(cls)] + b) == BuildFrom(d, ov, a + b)
  {
    var x := [ByClass(cls)];
    assert x[..0] == [];
    assert BuildFrom(d, ov, x) == Ok([]);
    assert BuildFrom(d, ov, a).Ok? ==> BuildFrom(d, ov, a).value + [] == BuildFrom(d, ov, a).value;
    BuildFromAppend(d, ov, a, x);
    BuildFromAppend(d, ov, a + x, b);
    BuildFromAppend(d, ov, a, b);
  }

  // ---------------------------------------------------------------------
  // get_checks_with_tags, _generate_async_check_runs
  // ---------------------------------------------------------------------

  /** `get_checks_with_tags(tags)`. */
  function ChecksWithTags(d: Definition, tags: Option<set<Tag>>): (r: Result<seq<Check>>)
    ensures tags.None? ==> r == BuildChecks(d)
    ensures r.Err? <==> BuildChecks(d).Err?
    ensures r.Err? ==> r.error == BuildChecks(d).error
    ensures r.Ok? && tags.Some? ==> r.value == WithTags(BuildChecks(d).value, tags.value)
  {
    match BuildChecks(d)
    case Err(e) => Err(e)
    case Ok(all) => Ok(SelectChecks(all, tags))
  }

  /** `_generate_async_check_runs(tags)`: one unstarted unit per selected check, in order. */
  function PendingRuns(d: Definition, tags: Option<set<Tag>>): (r: Result<seq<PendingCheckRun>>)
    ensures r.Err? <==> ChecksWithTags(d, tags).Err?
    ensures r.Err? ==> r.error == ChecksWithTags(d, tags).error
    ensures r.Ok? ==> |r.value| == |ChecksWithTags(d, tags).value|
    ensures r.Ok? ==> forall i :: 0 <= i < |r.value| ==>
      r.value[i] == PendingCheckRun(ChecksWithTags(d, tags).value[i])
  {
    match ChecksWithTags(d, tags)
    case Err(e) => Err(e)
    case Ok(checks) => Ok(seq(|checks|, i requires 0 <= i < |checks| => PendingCheckRun(checks[i])))
  }

  // ---------------------------------------------------------------------
  // setup, before, teardown
  // ---------------------------------------------------------------------

  /** `setup()`. */
  function SetupSpec(d: Definition, s: State): (r: State)
    ensures StateValid(d, s) ==> StateValid(d, r)
    ensures r.internal.suiteModel == Some(s.suites.next)
    ensures r.suites.rows == s.suites.rows[s.suites.next := SuiteRow(d.name, d.description, d.code)]
    ensures d.shouldScheduleRuns ==>
      r.executions == s.executions && r.internal.suiteExecutionModel == s.internal.suiteExecutionModel
    ensures !d.shouldScheduleRuns ==>
      && r.internal.suiteExecutionModel == Some(s.executions.next)
      && r.executions.rows == s.executions.rows[s.executions.next := SuiteExecutionRow(s.suites.next, Running)]
    ensures r.internal.dataset == s.internal.dataset && r.internal.checksConfig == s.internal.checksConfig
  {
    var (suites, suiteId) := s.suites.Insert(SuiteRow(d.name, d.description, d.code));
    var s1 := s.(suites := suites, internal := s.internal.(suiteModel := Some(suiteId)));
    if d.shouldScheduleRuns then s1
    else
      var (executions, executionId) := s1.executions.Insert(SuiteExecutionRow(suiteId, Running));
      s1.(executions := executions, internal := s1.internal.(suiteExecutionModel := Some(executionId)))
  }

  /** `.get(name, None)` on the schedules a `suite_config()` call returned (None: no "schedules" key). */
  function ScheduleFor(schedules: Option<map<string, Schedule>>, name: string): (r: Option<Schedule>)
    ensures r.Some? <==> schedules.Some? && name in schedules.value
    ensures r.Some? ==> r.value == schedules.value[name]
  {
    if schedules.Some? && name in schedules.value then Some(schedules.value[name]) else None
  }

  /** The three hooks `before` calls for the check at index `i` all return. */
  predicate HooksReturn(d: Definition, i: nat) {
    d.dataset(i).Ok? && d.checksConfig(i).Ok? && d.schedules(i).Ok?
  }

  /** `_internal` after the two writes of a `before` for the check at index `i`. */
  function Refresh(d: Definition, i: nat, internal: Internal): Internal {
    internal.(
      dataset := if d.dataset(i).Ok? then d.dataset(i).value else internal.dataset,
      checksConfig := if d.checksConfig(i).Ok? then d.checksConfig(i).value else internal.checksConfig)
  }

  /** The schedule override handed to the check at index `i`. */
  function Scheduled(d: Definition, i: nat, name: string): Option<Schedule> {
    if d.schedules(i).Ok? then ScheduleFor(d.schedules(i).value, name) else None
  }

  /** The arguments of the push call in a `before` for the check at index `i`. */
  function PushFor(d: Definition, i: nat, name: string, internal: Internal): Push {
    Push(Refresh(d, i, internal), Scheduled(d, i, name))
  }

  /** The two entries of `_internal` that only `setup` writes. */
  function Models(internal: Internal): Internal {
    Internal(internal.suiteModel, internal.suiteExecutionModel, None, None)
  }

  /**
   `before(check)` for the check at index `i`: write `dataset()` and
   `checks_config()` into `_internal`, look up the schedule override in
   `suite_config()`, then push `_internal` into the check. BeforeWrites
   states what it does.
   */
  function BeforeSpec(d: Definition, s: State, c: Check, i: nat, o: Oracles): Step {
    match d.dataset(i)
    case Err(e) => Step([], Raised(e), s)
    case Ok(ds) =>
      var s1 := s.(internal := s.internal.(dataset := ds));
      match d.checksConfig(i)
      case Err(e) => Step([], Raised(e), s1)
      case Ok(cc) =>
        var s2 := s1.(internal := s1.internal.(checksConfig := cc));
        match d.schedules(i)
        case Err(e) => Step([], Raised(e), s2)
        case Ok(schedules) =>
          Step([Event.Before(c.name, Push(s2.internal, ScheduleFor(schedules, c.name)))], o.update(i, c), s2)
  }

  /**
   A before writes the i-th results of `dataset()` and `checks_config()`
   into `_internal`, in that order, stopping at the first hook that raises;
   when all three hooks return it pushes the refreshed `_internal` with the
   check's schedule override, and ends as the check's update does. It
   never touches the tables or the two models.
   */
  lemma BeforeWrites(d: Definition, s: State, c: Check, i: nat, o: Oracles)
    ensures var r := BeforeSpec(d, s, c, i, o);
      && r.state.suites == s.suites && r.state.executions == s.executions
      && Models(r.state.internal) == Models(s.internal)
    ensures var r := BeforeSpec(d, s, c, i, o);
      d.dataset(i).Err? ==> r == Step([], Raised(d.dataset(i).error), s)
    ensures var r := BeforeSpec(d, s, c, i, o);
      d.dataset(i).Ok? && d.checksConfig(i).Err? ==>
        && r.events == [] && r.outcome == Raised(d.checksConfig(i).error)
        && r.state.internal == s.internal.(dataset := d.dataset(i).value)
    ensures var r := BeforeSpec(d, s, c, i, o);
      d.dataset(i).Ok? && d.checksConfig(i).Ok? && d.schedules(i).Err? ==>
        && r.events == [] && r.outcome == Raised(d.schedules(i).error)
        && r.state.internal == s.internal.(dataset := d.dataset(i).value, checksConfig := d.checksConfig(i).value)
    ensures var r := BeforeSpec(d, s, c, i, o);
      HooksReturn(d, i) ==>
        && r.state.internal == s.internal.(dataset := d.dataset(i).value, checksConfig := d.checksConfig(i).value)
        && r.events == [Event.Before(c.name, Push(r.state.internal, ScheduleFor(d.schedules(i).value, c.name)))]
        && r.outcome == o.update(i, c)
  {
  }

  /**
   What a check is handed depends only on the suite's two models and on the
   results of its own calls of the hooks: nothing an earlier check saw
   reaches it.
   */
  lemma PushCarriesHooks(d: Definition, i: nat, name: string, x: Internal)
    requires HooksReturn(d, i)
    ensures PushFor(d, i, name, x) == PushFor(d, i, name, Models(x))
    ensures PushFor(d, i, name, x).internal ==
      Internal(x.suiteModel, x.suiteExecutionModel, d.dataset(i).value, d.checksConfig(i).value)
    ensures PushFor(d, i, name, x).schedule == ScheduleFor(d.schedules(i).value, name)
  {
  }

  /** `teardown()`: mark the suite execution "success" when there is one. */
  function TeardownSpec(s: State): (r: State)
    ensures r.internal == s.internal && r.suites == s.suites
    ensures s.internal.suiteExecutionModel.None? ==> r == s
    ensures s.internal.suiteExecutionModel.Some? ==>
      var id := s.internal.suiteExecutionModel.value;
      && r.executions.rows.Keys == s.executions.rows.Keys
      && (id in s.executions.rows ==> r.executions.rows[id].status == Success
                                        && r.executions.rows[id].suite == s.executions.rows[id].suite)
      && (forall k :: k in s.executions.rows && k != id ==> r.executions.rows[k] == s.executions.rows[k])
    ensures forall d :: StateValid(d, s) ==> StateValid(d, r)
  {
    match s.internal.suiteExecutionModel
    case None => s
    case Some(id) =>
      s.(executions := s.executions.Modify(id, (row: SuiteExecutionRow) => row.(status := Success)))
  }

  // ---------------------------------------------------------------------
  // run
  // ---------------------------------------------------------------------

  /** The body of `run`'s loop for the check at index `i` of `checks`. */
  function CheckStep(d: Definition, s: State, checks: seq<Check>, i: nat, o: Oracles): Step
    requires i < |checks|
  {
    var c := checks[i];
    var progress := [Progress(i + 1, |checks|, c.name)];
    var b := BeforeSpec(d, s, c, i, o);
    if b.outcome.Raised? then Step(progress + b.events, b.outcome, b.state)
    else
      var ruleTags := RuleTagsFor(d.checkRuleTags, c.name);
      var ran := o.runAll(i, c, ruleTags);
      var called := progress + b.events + [RunAll(c.name, ruleTags)];
      if ran.Completed? then Step(called + [OnSuccess(c.name)] + [After(c.name)], Completed, b.state)
      else if !ran.error.IsException() then Step(called, ran, b.state)   // escapes `except Exception`
      else if d.onFailure == Reraise then Step(called + [OnFailure(c.name, ran.error)], ran, b.state)
      else Step(called + [OnFailure(c.name, ran.error)] + [After(c.name)], Completed, b.state)
  }

  function Prepend(events: seq<Event<Push>>, e: Episode): Episode {
    Episode(events + e.trace, e.outcome, e.state)
  }

  /** `run`'s loop from index `i` on; it stops at the first step that raises. */
  function Loop(d: Definition, s: State, checks: seq<Check>, i: nat, o: Oracles): Episode
    requires i <= |checks|
    decreases |checks| - i
  {
    if i == |checks| then Episode([], Completed, s)
    else
      var step := CheckStep(d, s, checks, i, o);
      if step.outcome.Raised? then Episode(step.events, step.outcome, step.state)
      else Prepend(step.events, Loop(d, step.state, checks, i + 1, o))
  }

  /** One unfolding of the loop, in terms of the pass at index `i`. */
  lemma LoopUnfold(d: Definition, s: State, checks: seq<Check>, i: nat, o: Oracles)
    requires i < |checks|
    ensures var st := CheckStep(d, s, checks, i, o);
      Loop(d, s, checks, i, o) ==
        if st.outcome.Raised? then Episode(st.events, st.outcome, st.state)
        else Prepend(st.events, Loop(d, st.state, checks, i + 1, o))
  {
  }

  lemma PrependNothing(e: Episode)
    ensures Prepend([], e) == e
    ensures Prepend(e.trace, Episode([], e.outcome, e.state)) == e
  {
    assert [] + e.trace == e.trace;
    assert e.trace + [] == e.trace;
  }

  lemma PrependTwice(a: seq<Event<Push>>, b: seq<Event<Push>>, e: Episode)
    ensures Prepend(a, Prepend(b, e)) == Prepend(a + b, e)
  {
    assert a + (b + e.trace) == (a + b) + e.trace;
  }

  /** What is left of the loop after the events `steps`, once the pass at index `i` is known. */
  lemma LoopAdvance(d: Definition, s: State, checks: seq<Check>, i: nat, o: Oracles, steps: seq<Event<Push>>,
                    events: seq<Event<Push>>, outcome: Outcome, after: State)
    requires i < |checks| && Step(events, outcome, after) == CheckStep(d, s, checks, i, o)
    ensures outcome.Raised? ==>
      Prepend(steps, Loop(d, s, checks, i, o)) == Episode(steps + events, outcome, after)
    ensures outcome.Completed? ==>
      Prepend(steps, Loop(d, s, checks, i, o)) == Prepend(steps + events, Loop(d, after, checks, i + 1, o))
  {
    LoopUnfold(d, s, checks, i, o);
    PrependTwice(steps, events, Loop(d, after, checks, i + 1, o));
  }

  /** `run(check_tags)`: setup, the loop, then teardown unless something raised. */
  function RunSpec(d: Definition, s: State, tags: Option<set<Tag>>, o: Oracles): Episode {
    var s1 := SetupSpec(d, s);
    match ChecksWithTags(d, tags)
    case Err(e) => Episode([Event.Setup], Raised(e), s1)
    case Ok(checks) =>
      var e := Loop(d, s1, checks, 0, o);
      if e.outcome.Raised? then Episode([Event.Setup] + e.trace, e.outcome, e.state)
      else Episode([Event.Setup] + e.trace + [Event.Teardown], Completed, TeardownSpec(e.state))
  }

  // ---------------------------------------------------------------------
  // The expected traces
  // ---------------------------------------------------------------------

  predicate BeforeOk(d: Definition, o: Oracles, i: nat, c: Check) {
    HooksReturn(d, i) && o.update(i, c).Completed?
  }

  /** The outcome of `run_all` for `c`, at index `i`. */
  function Ran(d: Definition, o: Oracles, i: nat, c: Check): Outcome {
    o.runAll(i, c, RuleTagsFor(d.checkRuleTags, c.name))
  }

  predicate RunAllOk(d: Definition, o: Oracles, i: nat, c: Check) {
    Ran(d, o, i, c).Completed?
  }

  /**
   Processing `c`, at index `i`, returns normally, so the loop goes on to the
   next check: before returns, and run_all returns or raises an `Exception`
   that an overriding on_failure swallows.
   */
  predicate Continues(d: Definition, o: Oracles, i: nat, c: Check) {
    && BeforeOk(d, o, i, c)
    && (RunAllOk(d, o, i, c) || (d.onFailure == Swallow && Ran(d, o, i, c).error.IsException()))
  }

  /** The exception that stops the episode at check `c`, at index `i`. */
  function FailError(d: Definition, o: Oracles, i: nat, c: Check): Exn
    requires !Continues(d, o, i, c)
  {
    if d.dataset(i).Err? then d.dataset(i).error
    else if d.checksConfig(i).Err? then d.checksConfig(i).error
    else if d.schedules(i).Err? then d.schedules(i).error
    else if o.update(i, c).Raised? then o.update(i, c).error
    else Ran(d, o, i, c).error
  }

  /** The five events of a check that is processed to the end, given the suite's two models. */
  function Block(d: Definition, o: Oracles, checks: seq<Check>, i: nat, models: Internal)
    : seq<Event<Push>>
    requires i < |checks|
  {
    var c := checks[i];
    var ruleTags := RuleTagsFor(d.checkRuleTags, c.name);
    var ran := o.runAll(i, c, ruleTags);
    [ Progress(i + 1, |checks|, c.name),
      Event.Before(c.name, PushFor(d, i, c.name, models)),
      RunAll(c.name, ruleTags),
      if ran.Completed? then OnSuccess(c.name) else OnFailure(c.name, ran.error),
      After(c.name) ]
  }

  function Blocks(d: Definition, o: Oracles, checks: seq<Check>, i: nat, k: nat, models: Internal)
    : seq<Event<Push>>
    requires i <= k <= |checks|
    decreases k - i
  {
    if i == k then [] else Block(d, o, checks, i, models) + Blocks(d, o, checks, i + 1, k, models)
  }

  /** The events of the check at which the episode stops. */
  function FailBlock(d: Definition, o: Oracles, checks: seq<Check>, k: nat, models: Internal)
    : seq<Event<Push>>
    requires k < |checks| && !Continues(d, o, k, checks[k])
  {
    var c := checks[k];
    var progress := [Progress(k + 1, |checks|, c.name)];
    if !HooksReturn(d, k) then progress
    else
      var called := progress + [Event.Before(c.name, PushFor(d, k, c.name, models))];
      if o.update(k, c).Raised? then called
      else
        var ruleTags := RuleTagsFor(d.checkRuleTags, c.name);
        var ran := o.runAll(k, c, ruleTags);
        called + [RunAll(c.name, ruleTags)] + (if ran.error.IsException() then [OnFailure(c.name, ran.error)] else [])
  }

  /** The exception that stops the episode at check `k` came from run_all and reached on_failure. */
  predicate HandedToOnFailure(d: Definition, o: Oracles, k: nat, c: Check)
    requires !Continues(d, o, k, c)
  {
    BeforeOk(d, o, k, c) && FailError(d, o, k, c).IsException()
  }

  /** The partial block of the check at which the episode stops: no after, no teardown, its own progress line. */
  lemma FailBlockShape(d: Definition, o: Oracles, checks: seq<Check>, k: nat, models: Internal)
    requires k < |checks| && !Continues(d, o, k, checks[k])
    ensures var fail := FailBlock(d, o, checks, k, models);
      && |fail| > 0
      && (forall ev :: ev in fail ==> !ev.Teardown? && !ev.After? && (ev.Progress? ==> ev.index == k + 1))
      && (HandedToOnFailure(d, o, k, checks[k]) ==>
            fail[|fail| - 1] == OnFailure(checks[k].name, FailError(d, o, k, checks[k])))
      && (!HandedToOnFailure(d, o, k, checks[k]) ==> forall ev :: ev in fail ==> !ev.OnFailure?)
  {
  }

  /**
   Each completed check contributes five events: its progress line first,
   then before with what it is handed, and after last; blocks hold no setup
   or teardown.
   */
  lemma {:induction false} BlocksShape(
    d: Definition, o: Oracles, checks: seq<Check>, i: nat, k: nat, models: Internal)
    requires i <= k <= |checks|
    ensures |Blocks(d, o, checks, i, k, models)| == 5 * (k - i)
    ensures forall j :: i <= j < k ==>
      && Blocks(d, o, checks, i, k, models)[5 * (j - i)] == Progress(j + 1, |checks|, checks[j].name)
      && Blocks(d, o, checks, i, k, models)[5 * (j - i) + 1] ==
           Event.Before(checks[j].name, PushFor(d, j, checks[j].name, models))
      && Blocks(d, o, checks, i, k, models)[5 * (j - i) + 4] == After(checks[j].name)
    ensures forall e :: e in Blocks(d, o, checks, i, k, models) ==> !e.Setup? && !e.Teardown?
    decreases k - i
  {
    if i < k {
      BlocksShape(d, o, checks, i + 1, k, models);
      var block := Block(d, o, checks, i, models);
      var rest := Blocks(d, o, checks, i + 1, k, models);
      var all := Blocks(d, o, checks, i, k, models);
      assert all == block + rest;
      assert |block| == 5;
      assert |all| == 5 + |rest|;
      forall j | i <= j < k
        ensures all[5 * (j - i)] == Progress(j + 1, |checks|, checks[j].name)
        ensures all[5 * (j - i) + 1] == Event.Before(checks[j].name, PushFor(d, j, checks[j].name, models))
        ensures all[5 * (j - i) + 4] == After(checks[j].name)
      {
        if j == i {
          assert all[0] == block[0] && all[1] == block[1] && all[4] == block[4];
        } else {
          ShiftedBlock(block, rest, j - (i + 1));
        }
      }
    }
    BlocksEvents(d, o, checks, i, k, models);
  }

  /** Positions in the blocks after a first five-event block are shifted by five. */
  lemma ShiftedBlock(block: seq<Event<Push>>, rest: seq<Event<Push>>, n: nat)
    requires |block| == 5 && 5 * n + 4 < |rest|
    ensures (block + rest)[5 * (n + 1)] == rest[5 * n]
    ensures (block + rest)[5 * (n + 1) + 1] == rest[5 * n + 1]
    ensures (block + rest)[5 * (n + 1) + 4] == rest[5 * n + 4]
  {
  }

  /** Blocks contain no setup or teardown, and only the progress lines of their own checks. */
  lemma {:induction false} BlocksEvents(
    d: Definition, o: Oracles, checks: seq<Check>, i: nat, k: nat, models: Internal)
    requires i <= k <= |checks|
    ensures forall e :: e in Blocks(d, o, checks, i, k, models) ==>
      !e.Setup? && !e.Teardown? && (e.Progress? ==> i + 1 <= e.index <= k)
    decreases k - i
  {
    if i < k {
      BlocksEvents(d, o, checks, i + 1, k, models);
    }
  }

  /** Blocks report a failure only for checks whose run_all raised. */
  lemma {:induction false} BlocksAllSucceeded(
    d: Definition, o: Oracles, checks: seq<Check>, i: nat, k: nat, models: Internal)
    requires i <= k <= |checks|
    requires forall j :: i <= j < k ==> RunAllOk(d, o, j, checks[j])
    ensures forall e :: e in Blocks(d, o, checks, i, k, models) ==> !e.OnFailure?
    decreases k - i
  {
    if i < k {
      BlocksAllSucceeded(d, o, checks, i + 1, k, models);
    }
  }

  /** A check that continues produces its whole block and keeps the suite's two models. */
  lemma StepContinues(d: Definition, s: State, checks: seq<Check>, i: nat, o: Oracles)
    requires i < |checks| && Continues(d, o, i, checks[i])
    ensures var st := CheckStep(d, s, checks, i, o);
      && st.outcome == Completed
      && st.events == Block(d, o, checks, i, Models(s.internal))
      && Models(st.state.internal) == Models(s.internal)
  {
    PushCarriesHooks(d, i, checks[i].name, s.internal);
  }

  /** A check that does not continue produces its partial block and raises the failing call's exception. */
  lemma StepStops(d: Definition, s: State, checks: seq<Check>, k: nat, o: Oracles)
    requires k < |checks| && !Continues(d, o, k, checks[k])
    ensures var st := CheckStep(d, s, checks, k, o);
      && st.outcome == Raised(FailError(d, o, k, checks[k]))
      && st.events == FailBlock(d, o, checks, k, Models(s.internal))
  {
    if HooksReturn(d, k) {
      PushCarriesHooks(d, k, checks[k].name, s.internal);
    }
  }

  /** The loop never touches the tables or the suite and execution models. */
  lemma {:induction false} LoopKeepsRecords(d: Definition, s: State, checks: seq<Check>, i: nat, o: Oracles)
    requires i <= |checks|
    ensures var e := Loop(d, s, checks, i, o);
      && e.state.suites == s.suites && e.state.executions == s.executions
      && e.state.internal.suiteModel == s.internal.suiteModel
      && e.state.internal.suiteExecutionModel == s.internal.suiteExecutionModel
    decreases |checks| - i
  {
    if i < |checks| {
      var step := CheckStep(d, s, checks, i, o);
      if step.outcome.Completed? {
        LoopKeepsRecords(d, step.state, checks, i + 1, o);
      }
    }
  }

  /** When every check from `i` on returns normally, the loop emits one block per check. */
  lemma {:induction false} LoopRunsThrough(d: Definition, s: State, checks: seq<Check>, i: nat, o: Oracles)
    requires i <= |checks|
    requires forall j :: i <= j < |checks| ==> Continues(d, o, j, checks[j])
    ensures Loop(d, s, checks, i, o).outcome == Completed
    ensures Loop(d, s, checks, i, o).trace == Blocks(d, o, checks, i, |checks|, Models(s.internal))
    decreases |checks| - i
  {
    if i < |checks| {
      var step := CheckStep(d, s, checks, i, o);
      LoopUnfold(d, s, checks, i, o);
      StepContinues(d, s, checks, i, o);
      LoopRunsThrough(d, step.state, checks, i + 1, o);
    }
  }

  /** When check `k` is the first that raises out of its step, the loop ends there. */
  lemma {:induction false} LoopStopsAt(d: Definition, s: State, checks: seq<Check>, i: nat, k: nat, o: Oracles)
    requires i <= k < |checks|
    requires forall j :: i <= j < k ==> Continues(d, o, j, checks[j])
    requires !Continues(d, o, k, checks[k])
    ensures Loop(d, s, checks, i, o).outcome == Raised(FailError(d, o, k, checks[k]))
    ensures Loop(d, s, checks, i, o).trace ==
      Blocks(d, o, checks, i, k, Models(s.internal)) + FailBlock(d, o, checks, k, Models(s.internal))
    decreases k - i
  {
    var models := Models(s.internal);
    if i < k {
      var next := CheckStep(d, s, checks, i, o).state;
      LoopPassesOne(d, s, checks, i, o);
      LoopStopsAt(d, next, checks, i + 1, k, o);
      var block := Block(d, o, checks, i, models);
      var rest := Blocks(d, o, checks, i + 1, k, models);
      var fail := FailBlock(d, o, checks, k, models);
      assert Blocks(d, o, checks, i, k, models) == block + rest;
      ConcatAssoc(block, rest, fail);
    } else {
      LoopStopsHere(d, s, checks, k, o);
      assert Blocks(d, o, checks, k, k, models) + FailBlock(d, o, checks, k, models)
        == FailBlock(d, o, checks, k, models);
    }
  }

  /** A check that continues contributes its block and hands the rest of the loop the same two models. */
  lemma LoopPassesOne(d: Definition, s: State, checks: seq<Check>, i: nat, o: Oracles)
    requires i < |checks| && Continues(d, o, i, checks[i])
    ensures var next := CheckStep(d, s, checks, i, o).state;
      && Loop(d, s, checks, i, o) == Prepend(Block(d, o, checks, i, Models(s.internal)), Loop(d, next, checks, i + 1, o))
      && Models(next.internal) == Models(s.internal)
  {
    LoopUnfold(d, s, checks, i, o);
    StepContinues(d, s, checks, i, o);
  }

  /** The loop at the check that does not continue: its partial block, and that check's exception. */
  lemma LoopStopsHere(d: Definition, s: State, checks: seq<Check>, k: nat, o: Oracles)
    requires k < |checks| && !Continues(d, o, k, checks[k])
    ensures Loop(d, s, checks, k, o).outcome == Raised(FailError(d, o, k, checks[k]))
    ensures Loop(d, s, checks, k, o).trace == FailBlock(d, o, checks, k, Models(s.internal))
  {
    LoopUnfold(d, s, checks, k, o);
    StepStops(d, s, checks, k, o);
  }

  // ---------------------------------------------------------------------
  // Properties of an episode
  // ---------------------------------------------------------------------

  /** The selected checks all return normally from their passes. */
  predicate AllContinue(d: Definition, o: Oracles, checks: seq<Check>) {
    forall j :: 0 <= j < |checks| ==> Continues(d, o, j, checks[j])
  }

  /**
   When every selected check returns normally, `run` emits setup, one block
   per check, then teardown, and ends normally.
   */
  lemma RunCompletesTrace(d: Definition, s: State, tags: Option<set<Tag>>, o: Oracles)
    requires ChecksWithTags(d, tags).Ok?
    requires AllContinue(d, o, ChecksWithTags(d, tags).value)
    ensures RunSpec(d, s, tags, o).outcome == Completed
    ensures RunSpec(d, s, tags, o).trace ==
      [Event.Setup]
      + Blocks(d, o, ChecksWithTags(d, tags).value, 0, |ChecksWithTags(d, tags).value|,
               Models(SetupSpec(d, s).internal))
      + [Event.Teardown]
  {
    LoopRunsThrough(d, SetupSpec(d, s), ChecksWithTags(d, tags).value, 0, o);
  }

  /** The blocks of a whole list, indexed from its first check. */
  lemma BlocksShapeFromStart(d: Definition, o: Oracles, checks: seq<Check>, models: Internal)
    ensures var blocks := Blocks(d, o, checks, 0, |checks|, models);
      && |blocks| == 5 * |checks|
      && (forall j :: 0 <= j < |checks| ==>
            && blocks[5 * j] == Progress(j + 1, |checks|, checks[j].name)
            && blocks[5 * j + 1] == Event.Before(checks[j].name, PushFor(d, j, checks[j].name, models))
            && blocks[5 * j + 4] == After(checks[j].name))
      && (forall e :: e in blocks ==> !e.Teardown?)
  {
    BlocksShape(d, o, checks, 0, |checks|, models);
    var blocks := Blocks(d, o, checks, 0, |checks|, models);
    forall j | 0 <= j < |checks|
      ensures blocks[5 * j] == Progress(j + 1, |checks|, checks[j].name)
      ensures blocks[5 * j + 1] == Event.Before(checks[j].name, PushFor(d, j, checks[j].name, models))
      ensures blocks[5 * j + 4] == After(checks[j].name)
    {
      assert 5 * (j - 0) == 5 * j;
    }
  }

  /** Setup and teardown around the blocks shift every position by one. */
  lemma FramedPositions(trace: seq<Event<Push>>, blocks: seq<Event<Push>>, d: Definition, checks: seq<Check>, models: Internal)
    requires trace == [Event.Setup] + blocks + [Event.Teardown]
    requires |blocks| == 5 * |checks|
    requires forall j :: 0 <= j < |checks| ==>
      && blocks[5 * j] == Progress(j + 1, |checks|, checks[j].name)
      && blocks[5 * j + 1] == Event.Before(checks[j].name, PushFor(d, j, checks[j].name, models))
      && blocks[5 * j + 4] == After(checks[j].name)
    requires forall e :: e in blocks ==> !e.Teardown?
    ensures |trace| == 5 * |checks| + 2
    ensures trace[0] == Event.Setup
    ensures trace[|trace| - 1] == Event.Teardown
    ensures Event.Teardown !in trace[..|trace| - 1]
    ensures forall j :: 0 <= j < |checks| ==>
      && trace[1 + 5 * j] == Progress(j + 1, |checks|, checks[j].name)
      && trace[1 + 5 * j + 1] == Event.Before(checks[j].name, PushFor(d, j, checks[j].name, models))
      && trace[1 + 5 * j + 4] == After(checks[j].name)
  {
    assert trace[..|trace| - 1] == [Event.Setup] + blocks;
    forall j | 0 <= j < |checks|
      ensures trace[1 + 5 * j] == Progress(j + 1, |checks|, checks[j].name)
      ensures trace[1 + 5 * j + 1] == Event.Before(checks[j].name, PushFor(d, j, checks[j].name, models))
      ensures trace[1 + 5 * j + 4] == After(checks[j].name)
    {
      assert trace[1 + 5 * j] == blocks[5 * j];
      assert trace[1 + 5 * j + 1] == blocks[5 * j + 1];
      assert trace[1 + 5 * j + 4] == blocks[5 * j + 4];
    }
  }

  /**
   In such an episode the check at index j of N gets its progress line
   "[j+1/N]" at position 1 + 5j, its before call next and its after call
   four events after the progress line, so before and after happen once per
   check, in order; teardown happens exactly once, as the last event.
   */
  lemma RunCompletes(d: Definition, s: State, tags: Option<set<Tag>>, o: Oracles)
    requires ChecksWithTags(d, tags).Ok?
    requires AllContinue(d, o, ChecksWithTags(d, tags).value)
    ensures var checks := ChecksWithTags(d, tags).value;
      var trace := RunSpec(d, s, tags, o).trace;
      var models := Models(SetupSpec(d, s).internal);
      && |trace| == 5 * |checks| + 2
      && trace[0] == Event.Setup
      && trace[|trace| - 1] == Event.Teardown
      && Event.Teardown !in trace[..|trace| - 1]
      && (forall j :: 0 <= j < |checks| ==>
            && trace[1 + 5 * j] == Progress(j + 1, |checks|, checks[j].name)
            && trace[1 + 5 * j + 1] == Event.Before(checks[j].name, PushFor(d, j, checks[j].name, models))
            && trace[1 + 5 * j + 4] == After(checks[j].name))
  {
    var checks := ChecksWithTags(d, tags).value;
    var models := Models(SetupSpec(d, s).internal);
    RunCompletesTrace(d, s, tags, o);
    BlocksShapeFromStart(d, o, checks, models);
    FramedPositions(RunSpec(d, s, tags, o).trace, Blocks(d, o, checks, 0, |checks|, models), d, checks, models);
  }

  /**
   In such an episode the check at index j is handed the suite model this
   run created, the results of the j-th calls of `dataset()` and
   `checks_config()`, and its override from the j-th `suite_config()`.
   */
  lemma RunPushesOwnHookResults(d: Definition, s: State, tags: Option<set<Tag>>, o: Oracles, j: nat)
    requires ChecksWithTags(d, tags).Ok?
    requires AllContinue(d, o, ChecksWithTags(d, tags).value)
    requires j < |ChecksWithTags(d, tags).value|
    ensures 2 + 5 * j < |RunSpec(d, s, tags, o).trace|
    ensures var c := ChecksWithTags(d, tags).value[j];
      var ev := RunSpec(d, s, tags, o).trace[2 + 5 * j];
      && ev.Before? && ev.check == c.name
      && ev.pushed.internal.suiteModel == Some(s.suites.next)
      && ev.pushed.internal.suiteExecutionModel == SetupSpec(d, s).internal.suiteExecutionModel
      && ev.pushed.internal.dataset == d.dataset(j).value
      && ev.pushed.internal.checksConfig == d.checksConfig(j).value
      && ev.pushed.schedule == ScheduleFor(d.schedules(j).value, c.name)
  {
    var checks := ChecksWithTags(d, tags).value;
    var models := Models(SetupSpec(d, s).internal);
    RunCompletes(d, s, tags, o);
    assert 1 + 5 * j + 1 == 2 + 5 * j;
    PushCarriesHooks(d, j, checks[j].name, models);
  }

  /** With the default on_failure, when no run_all and no before raises, every block is a success block. */
  lemma RunAllSucceed(d: Definition, s: State, tags: Option<set<Tag>>, o: Oracles)
    requires d.onFailure == Reraise
    requires ChecksWithTags(d, tags).Ok?
    requires forall j :: 0 <= j < |ChecksWithTags(d, tags).value| ==>
      BeforeOk(d, o, j, ChecksWithTags(d, tags).value[j]) && RunAllOk(d, o, j, ChecksWithTags(d, tags).value[j])
    ensures RunSpec(d, s, tags, o).outcome == Completed
    ensures forall e :: e in RunSpec(d, s, tags, o).trace ==> !e.OnFailure?
  {
    var checks := ChecksWithTags(d, tags).value;
    var s1 := SetupSpec(d, s);
    RunCompletesTrace(d, s, tags, o);
    BlocksAllSucceeded(d, o, checks, 0, |checks|, Models(s1.internal));
  }

  /**
   With check k the first whose before or run_all raises (and on_failure
   re-raising, or the raise coming from before), `run` raises that exception; the
   trace ends inside check k: no after for it, no later check, no teardown.
   An exception from before never reaches on_failure.
   */
  lemma RunAbortsAtFirstFailure(d: Definition, s: State, tags: Option<set<Tag>>, o: Oracles, k: nat)
    requires ChecksWithTags(d, tags).Ok?
    requires k < |ChecksWithTags(d, tags).value|
    requires forall j :: 0 <= j < k ==> Continues(d, o, j, ChecksWithTags(d, tags).value[j])
    requires !Continues(d, o, k, ChecksWithTags(d, tags).value[k])
    ensures var checks := ChecksWithTags(d, tags).value;
      var e := RunSpec(d, s, tags, o);
      var models := Models(SetupSpec(d, s).internal);
      && e.outcome == Raised(FailError(d, o, k, checks[k]))
      && e.trace == [Event.Setup] + Blocks(d, o, checks, 0, k, models) + FailBlock(d, o, checks, k, models)
      && Event.Teardown !in e.trace
      && (forall ev :: ev in e.trace && ev.Progress? ==> ev.index <= k + 1)
      && e.trace[|e.trace| - 1] != After(checks[k].name)
      && (HandedToOnFailure(d, o, k, checks[k]) ==>
            e.trace[|e.trace| - 1] == OnFailure(checks[k].name, FailError(d, o, k, checks[k])))
      && (!HandedToOnFailure(d, o, k, checks[k]) ==> !e.trace[|e.trace| - 1].OnFailure?)
  {
    var checks := ChecksWithTags(d, tags).value;
    var models := Models(SetupSpec(d, s).internal);
    var blocks := Blocks(d, o, checks, 0, k, models);
    var fail := FailBlock(d, o, checks, k, models);
    RunStops(d, s, tags, o, k);
    BlocksEvents(d, o, checks, 0, k, models);
    FailBlockShape(d, o, checks, k, models);
    StoppedTrace(blocks, fail, k);
  }

  /** The episode that stops at check k: the earlier blocks, then the partial block of k. */
  lemma RunStops(d: Definition, s: State, tags: Option<set<Tag>>, o: Oracles, k: nat)
    requires ChecksWithTags(d, tags).Ok?
    requires k < |ChecksWithTags(d, tags).value|
    requires forall j :: 0 <= j < k ==> Continues(d, o, j, ChecksWithTags(d, tags).value[j])
    requires !Continues(d, o, k, ChecksWithTags(d, tags).value[k])
    ensures var checks := ChecksWithTags(d, tags).value;
      var e := RunSpec(d, s, tags, o);
      var models := Models(SetupSpec(d, s).internal);
      && e.outcome == Raised(FailError(d, o, k, checks[k]))
      && e.trace == [Event.Setup] + Blocks(d, o, checks, 0, k, models) + FailBlock(d, o, checks, k, models)
  {
    var checks := ChecksWithTags(d, tags).value;
    var s1 := SetupSpec(d, s);
    var e := Loop(d, s1, checks, 0, o);
    var models := Models(s1.internal);
    LoopStopsAt(d, s1, checks, 0, k, o);
    assert e.outcome.Raised?;
    assert RunSpec(d, s, tags, o) == Episode([Event.Setup] + e.trace, e.outcome, e.state);
    ConcatAssoc([Event.Setup], Blocks(d, o, checks, 0, k, models), FailBlock(d, o, checks, k, models));
  }

  /** With the default on_failure, an exception in before aborts with no on_failure call at all. */
  lemma BeforeFailureBypassesOnFailure(d: Definition, s: State, tags: Option<set<Tag>>, o: Oracles, k: nat)
    requires d.onFailure == Reraise
    requires ChecksWithTags(d, tags).Ok?
    requires k < |ChecksWithTags(d, tags).value|
    requires forall j :: 0 <= j < k ==> Continues(d, o, j, ChecksWithTags(d, tags).value[j])
    requires !BeforeOk(d, o, k, ChecksWithTags(d, tags).value[k])
    ensures RunSpec(d, s, tags, o).outcome.Raised?
    ensures forall ev :: ev in RunSpec(d, s, tags, o).trace ==> !ev.OnFailure?
  {
    var checks := ChecksWithTags(d, tags).value;
    var models := Models(SetupSpec(d, s).internal);
    RunAbortsAtFirstFailure(d, s, tags, o, k);
    BlocksAllSucceeded(d, o, checks, 0, k, models);
    FailBlockShape(d, o, checks, k, models);
    var blocks := Blocks(d, o, checks, 0, k, models);
    var fail := FailBlock(d, o, checks, k, models);
    forall ev | ev in [Event.Setup] + blocks + fail
      ensures !ev.OnFailure?
    {
      assert ev == Event.Setup || ev in blocks || ev in fail;
    }
  }

  /**
   A BaseException from run_all is not caught by `except Exception`: even an
   on_failure that returns never sees it, and run raises it right after the
   run_all call, with no after for that check and no teardown.
   */
  lemma BaseExceptionEscapes(d: Definition, s: State, tags: Option<set<Tag>>, o: Oracles, k: nat)
    requires ChecksWithTags(d, tags).Ok?
    requires k < |ChecksWithTags(d, tags).value|
    requires forall j :: 0 <= j < k ==> Continues(d, o, j, ChecksWithTags(d, tags).value[j])
    requires BeforeOk(d, o, k, ChecksWithTags(d, tags).value[k])
    requires Ran(d, o, k, ChecksWithTags(d, tags).value[k]).Raised?
    requires !Ran(d, o, k, ChecksWithTags(d, tags).value[k]).error.IsException()
    ensures var c := ChecksWithTags(d, tags).value[k];
      var e := RunSpec(d, s, tags, o);
      && e.outcome == Ran(d, o, k, c)
      && |e.trace| > 0
      && e.trace[|e.trace| - 1] == RunAll(c.name, RuleTagsFor(d.checkRuleTags, c.name))
      && Event.Teardown !in e.trace
  {
    var checks := ChecksWithTags(d, tags).value;
    var models := Models(SetupSpec(d, s).internal);
    RunAbortsAtFirstFailure(d, s, tags, o, k);
    var fail := FailBlock(d, o, checks, k, models);
    var trace := RunSpec(d, s, tags, o).trace;
    assert trace[|trace| - 1] == fail[|fail| - 1];
  }

  /** A get_checks failure raises right after setup: nothing else happens. */
  lemma RunWithUnbuildableChecks(d: Definition, s: State, tags: Option<set<Tag>>, o: Oracles)
    requires BuildChecks(d).Err?
    ensures RunSpec(d, s, tags, o) == Episode([Event.Setup], Raised(BuildChecks(d).error), SetupSpec(d, s))
  {
  }

  /** Without schedule-only mode, a completed episode leaves its own suite execution marked "success". */
  lemma RunMarksExecution(d: Definition, s: State, tags: Option<set<Tag>>, o: Oracles)
    requires StateValid(d, s) && !d.shouldScheduleRuns
    ensures var e := RunSpec(d, s, tags, o);
      && StateValid(d, e.state)
      && e.state.internal.suiteExecutionModel == Some(s.executions.next)
      && s.executions.next in e.state.executions.rows
      && e.state.executions.rows[s.executions.next].status == (if e.outcome.Completed? then Success else Running)
  {
    var s1 := SetupSpec(d, s);
    if ChecksWithTags(d, tags).Ok? {
      LoopKeepsRecords(d, s1, ChecksWithTags(d, tags).value, 0, o);
    }
  }

  /** In schedule-only mode no suite execution is ever created or updated. */
  lemma ScheduleOnlyWritesNoExecution(d: Definition, s: State, tags: Option<set<Tag>>, o: Oracles)
    requires StateValid(d, s) && d.shouldScheduleRuns
    ensures RunSpec(d, s, tags, o).state.executions == s.executions
    ensures RunSpec(d, s, tags, o).state.internal.suiteExecutionModel.None?
    ensures StateValid(d, RunSpec(d, s, tags, o).state)
  {
    var s1 := SetupSpec(d, s);
    if ChecksWithTags(d, tags).Ok? {
      LoopKeepsRecords(d, s1, ChecksWithTags(d, tags).value, 0, o);
    }
  }

  /** Any episode keeps the state invariant. */
  lemma RunPreservesValid(d: Definition, s: State, tags: Option<set<Tag>>, o: Oracles)
    requires StateValid(d, s)
    ensures StateValid(d, RunSpec(d, s, tags, o).state)
  {
    var s1 := SetupSpec(d, s);
    if ChecksWithTags(d, tags).Ok? {
      LoopKeepsRecords(d, s1, ChecksWithTags(d, tags).value, 0, o);
    }
  }

  /** Two runs of the same suite are two episodes with distinct execution handles. */
  lemma RunTwiceDistinctHandles(d: Definition, s: State, tags: Option<set<Tag>>, o: Oracles)
    requires StateValid(d, s) && !d.shouldScheduleRuns
    ensures var first := RunSpec(d, s, tags, o);
      var second := RunSpec(d, first.state, tags, o);
      && first.state.internal.suiteExecutionModel.Some?
      && second.state.internal.suiteExecutionModel.Some?
      && first.state.internal.suiteExecutionModel != second.state.internal.suiteExecutionModel
      && first.state.internal.suiteModel != second.state.internal.suiteModel
  {
    var first := RunSpec(d, s, tags, o);
    RunMarksExecution(d, s, tags, o);
    RunMarksExecution(d, first.state, tags, o);
    var s1 := SetupSpec(d, s);
    if ChecksWithTags(d, tags).Ok? {
      LoopKeepsRecords(d, s1, ChecksWithTags(d, tags).value, 0, o);
    }
    var t1 := SetupSpec(d, first.state);
    if ChecksWithTags(d, tags).Ok? {
      LoopKeepsRecords(d, t1, ChecksWithTags(d, tags).value, 0, o);
    }
  }

  // ---------------------------------------------------------------------
  // The Suite object
  // ---------------------------------------------------------------------

  class Suite {
    const def: Definition
    var internal: Internal
    var suites: Store<SuiteRow>
    var executions: Store<SuiteExecutionRow>

    function Snapshot(): State
      reads this
    {
      State(internal, suites, executions)
    }

    ghost predicate Valid()
      reads this
    {
      StateValid(def, Snapshot())
    }

    /** A fresh suite: every `_internal` entry is None. */
    constructor (def: Definition, suites: Store<SuiteRow>, executions: Store<SuiteExecutionRow>)
      requires suites.Valid() && executions.Valid()
      ensures Valid()
      ensures this.def == def && this.suites == suites && this.executions == executions
      ensures internal == Internal(None, None, None, None)
    {
      this.def := def;
      this.suites := suites;
      this.executions := executions;
      this.internal := Internal(None, None, None, None);
    }

    /** One entry of `checks()`: look the name up, or test the class, then call the constructor. */
    method MakeEntry(ov: Option<map<string, RulesParams>>, entry: CheckRef) returns (r: Result<Option<Check>>)
      ensures r == EntryCheck(def, ov, entry)
    {
      var overrides: RulesParams := map[];
      if ov.Some? {
        overrides := Get(ov.value, KeyOf(entry), map[]);
      }
      var cls: CheckClass;
      match entry {
        case ByName(k) =>
          if k !in def.registry {
            return Err(KeyError(k));
          }
          cls := def.registry[k];
        case ByClass(c) =>
          if !c.isCheckSubclass {
            return Ok(None);
          }
          cls := c;
      }
      var made := def.construct(cls, overrides, def.shouldScheduleRuns);
      if made.Raised? {
        return Err(made.error);
      }
      return Ok(Some(Instantiate(cls, overrides, def.shouldScheduleRuns)));
    }

    /** `get_checks()`: append one instance per resolvable entry, in order. */
    method GetChecks() returns (r: Result<seq<Check>>)
      ensures r == BuildChecks(def)
    {
      if def.checksOverrides.Err? {
        return Err(def.checksOverrides.error);
      }
      var ov := def.checksOverrides.value;
      if def.checks.Err? {
        return Err(def.checks.error);
      }
      var entries := def.checks.value;
      var checks: seq<Check> := [];
      for i := 0 to |entries|
        invariant BuildFrom(def, ov, entries[..i]) == Ok(checks)
      {
        var made := MakeEntry(ov, entries[i]);
        BuildFromSnoc(def, ov, entries, i);
        match made {
          case Err(e) =>
            BuildFromErrPersists(def, ov, entries, i + 1);
            return Err(e);
          case Ok(None) =>
          case Ok(Some(c)) =>
            checks := checks + [c];
        }
      }
      assert entries[..|entries|] == entries;
      return Ok(checks);
    }

    /** `get_checks_with_tags(tags)`. */
    method GetChecksWithTags(tags: Option<set<Tag>>) returns (r: Result<seq<Check>>)
      ensures r == ChecksWithTags(def, tags)
    {
      var all := GetChecks();
      if all.Err? {
        return all;
      }
      if tags.None? {
        return all;
      }
      return Ok(WithTags(all.value, tags.value));
    }

    /** `_generate_async_check_runs(tags)`. */
    method GenerateAsyncCheckRuns(tags: Option<set<Tag>>) returns (r: Result<seq<PendingCheckRun>>)
      ensures r == PendingRuns(def, tags)
    {
      var checks := GetChecksWithTags(tags);
      if checks.Err? {
        return Err(checks.error);
      }
      var selected := checks.value;
      return Ok(seq(|selected|, i requires 0 <= i < |selected| => PendingCheckRun(selected[i])));
    }

    /** `run_async(tags, should_run=False)`: the unstarted units; no setup, no teardown, no state change. */
    method RunAsyncDeferred(tags: Option<set<Tag>>) returns (r: Result<seq<PendingCheckRun>>)
      ensures r == PendingRuns(def, tags)
    {
      r := GenerateAsyncCheckRuns(tags);
    }

    /** `setup()`. */
    method Setup()
      requires Valid()
      modifies this
      ensures Valid()
      ensures Snapshot() == SetupSpec(def, old(Snapshot()))
    {
      var suiteId := suites.next;
      suites := suites.Insert(SuiteRow(def.name, def.description, def.code)).0;
      internal := internal.(suiteModel := Some(suiteId));
      if def.shouldScheduleRuns {
        return;
      }
      var executionId := executions.next;
      executions := executions.Insert(SuiteExecutionRow(suiteId, Running)).0;
      internal := internal.(suiteExecutionModel := Some(executionId));
    }

    /** `before(check)` for the check at index `i`: returns the push call it made (if any) and how it ended. */
    method Before(c: Check, i: nat, o: Oracles) returns (events: seq<Event<Push>>, outcome: Outcome)
      requires Valid()
      modifies this
      ensures Valid()
      ensures Step(events, outcome, Snapshot()) == BeforeSpec(def, old(Snapshot()), c, i, o)
    {
      events := [];
      var ds := def.dataset(i);
      if ds.Err? {
        return events, Raised(ds.error);
      }
      internal := internal.(dataset := ds.value);
      var cc := def.checksConfig(i);
      if cc.Err? {
        return events, Raised(cc.error);
      }
      internal := internal.(checksConfig := cc.value);
      var config := def.schedules(i);
      if config.Err? {
        return events, Raised(config.error);
      }
      var scheduleOverrides := ScheduleFor(config.value, c.name);
      events := [Event.Before(c.name, Push(internal, scheduleOverrides))];
      outcome := o.update(i, c);
    }

    /** `on_failure(exception)`: the default re-raises; an override may return. */
    method OnFailure(e: Exn) returns (outcome: Outcome)
      ensures def.onFailure == Reraise ==> outcome == Raised(e)
      ensures def.onFailure == Swallow ==> outcome == Completed
    {
      if def.onFailure == Reraise {
        return Raised(e);
      }
      return Completed;
    }

    /** `teardown()`. */
    method Teardown()
      requires Valid()
      modifies this
      ensures Valid()
      ensures Snapshot() == TeardownSpec(old(Snapshot()))
    {
      if internal.suiteExecutionModel.Some? {
        var id := internal.suiteExecutionModel.value;
        executions := executions.Modify(id, (row: SuiteExecutionRow) => row.(status := Success));
      }
    }

    /** One pass of `run`'s loop: progress line, before, run_all, on_success or on_failure, after. */
    method RunCheck(checks: seq<Check>, i: nat, o: Oracles) returns (events: seq<Event<Push>>, outcome: Outcome)
      requires i < |checks| && Valid()
      modifies this
      ensures Valid()
      ensures Step(events, outcome, Snapshot()) == CheckStep(def, old(Snapshot()), checks, i, o)
    {
      var c := checks[i];
      var progress := [Progress(i + 1, |checks|, c.name)];
      var pushed, beforeOutcome := Before(c, i, o);
      if beforeOutcome.Raised? {
        return progress + pushed, beforeOutcome;
      }
      var ruleTags := RuleTagsFor(def.checkRuleTags, c.name);
      events := progress + pushed + [RunAll(c.name, ruleTags)];
      var ran := o.runAll(i, c, ruleTags);
      if ran.Completed? {
        events := events + [OnSuccess(c.name)];
      } else {
        if !ran.error.IsException() {
          return events, ran;
        }
        events := events + [Event.OnFailure(c.name, ran.error)];
        var handled := OnFailure(ran.error);
        if handled.Raised? {
          return events, handled;
        }
      }
      events := events + [After(c.name)];
      outcome := Completed;
    }

    /** `run`'s loop over the selected checks; it stops at the first exception that escapes a pass. */
    method RunChecks(checks: seq<Check>, o: Oracles) returns (steps: seq<Event<Push>>, outcome: Outcome)
      requires Valid()
      modifies this
      ensures Valid()
      ensures Episode(steps, outcome, Snapshot()) == Loop(def, old(Snapshot()), checks, 0, o)
    {
      ghost var s1 := Snapshot();
      ghost var cur := s1;
      steps := [];
      PrependNothing(Loop(def, s1, checks, 0, o));
      var i := 0;
      while i < |checks|
        invariant 0 <= i <= |checks|
        invariant Valid() && cur == Snapshot()
        invariant Loop(def, s1, checks, 0, o) == Prepend(steps, Loop(def, cur, checks, i, o))
        decreases |checks| - i
      {
        var events, checkOutcome := RunCheck(checks, i, o);
        LoopAdvance(def, cur, checks, i, o, steps, events, checkOutcome, Snapshot());
        if checkOutcome.Raised? {
          return steps + events, checkOutcome;
        }
        steps := steps + events;
        cur := Snapshot();
        i := i + 1;
      }
      PrependNothing(Episode(steps, Completed, cur));
      outcome := Completed;
    }

    /** `run(check_tags)`: returns the lifecycle trace and whether an exception escaped. */
    method Run(tags: Option<set<Tag>>, o: Oracles) returns (trace: seq<Event<Push>>, outcome: Outcome)
      requires Valid()
      modifies this
      ensures Valid()
      ensures Episode(trace, outcome, Snapshot()) == RunSpec(def, old(Snapshot()), tags, o)
    {
      Setup();
      var selected := GetChecksWithTags(tags);
      if selected.Err? {
        return [Event.Setup], Raised(selected.error);
      }
      var steps, loopOutcome := RunChecks(selected.value, o);
      if loopOutcome.Raised? {
        return [Event.Setup] + steps, loopOutcome;
      }
      Teardown();
      return [Event.Setup] + steps + [Event.Teardown], Completed;
    }

    /** `get_all_metadata()`: rebuilds the checks, then maps each name to its metadata. */
    method GetAllMetadata() returns (r: Result<map<string, Metadata>>)
      ensures BuildChecks(def).Err? ==> r == Err(BuildChecks(def).error)
      ensures BuildChecks(def).Ok? ==> r == Ok(MetadataByName(BuildChecks(def).value))
    {
      var built := GetChecks();
      if built.Err? {
        return Err(built.error);
      }
      var checks := built.value;
      var suiteMetadata: map<string, Metadata> := map[];
      for i := 0 to |checks|
        invariant suiteMetadata == MetadataByName(checks[..i])
      {
        assert checks[..i + 1][..i] == checks[..i];
        suiteMetadata := suiteMetadata[checks[i].name := checks[i].metadata];
      }
      assert checks[..|checks|] == checks;
      return Ok(suiteMetadata);
    }
  }
}
