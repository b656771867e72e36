/**
 The suite runner of the older package (src/data_checks/suite.py).

 Here a suite is configured through its constructor: a name, a description,
 a list of check instances, per-check rule tags and an optional dataset. Its
 mutable state is the `_internal` dictionary, the `_dataset` attribute (which
 the constructor only sets for a dataset that is not None) and the table behind
 SuiteManager. Only `setup` changes that state; before, after, on_success and
 teardown change nothing, and on_failure re-raises unless a subclass overrides it.
 */
module LegacySuite {
  import opened Lifecycle

  /** The suite's `_internal` dictionary (the suite model is a row id). */
  datatype Internal = Internal(suiteModel: Option<nat>, dataset: Option<Dataset>)

  /** The `_dataset` instance attribute: never assigned, or assigned a value that may be None. */
  datatype DatasetAttr = Unset | Assigned(value: Option<Dataset>)

  /** A row of the suites table. */
  datatype SuiteRow = SuiteRow(name: string, description: string, code: string)

  /** What a constructed suite holds fixed, plus the behaviour of its on_failure. */
  datatype Definition = Definition(
    name: string,
    description: string,
    checks: seq<Check>,
    checkRuleTags: map<string, set<Tag>>,
    code: string,                 // the contents of the suite module's own file
    onFailure: FailurePolicy)

  datatype State = State(internal: Internal, datasetAttr: DatasetAttr, suites: Store<SuiteRow>)

  /** A pass, or the rest of the loop: the events it emits and how it ends. */
  datatype Pass = Pass(events: seq<Event<Internal>>, outcome: Outcome)

  /** A whole `run`: its trace, how it ends, and the state after it. */
  datatype Episode = Episode(trace: seq<Event<Internal>>, outcome: Outcome, state: State)

  /** `check._generate_async_rule_runs(tags=...)`, not yet awaited. */
  datatype RuleRunsRequest = RuleRunsRequest(check: Check, ruleTags: Option<set<Tag>>)

  /**
   The property getter and `_internal["dataset"]` agree whenever the attribute
   exists; when it does not, `_internal` holds None.
   */
  ghost predicate StateValid(s: State) {
    && s.suites.Valid()
    && (s.internal.suiteModel.Some? ==> s.internal.suiteModel.value in s.suites.rows)
    && (s.datasetAttr.Assigned? ==> s.internal.dataset == s.datasetAttr.value)
    && (s.datasetAttr.Unset? ==> s.internal.dataset.None?)
  }

  // ---------------------------------------------------------------------
  // Construction and the dataset property
  // ---------------------------------------------------------------------

  /** The fixed part of `__init__`: the class name stands in for a missing name, "" for a falsy description. */
  function Configure(
    className: string, name: Option<string>, description: Option<string>, checks: seq<Check>,
    checkRuleTags: map<string, set<Tag>>, code: string, onFailure: FailurePolicy): (d: Definition)
    ensures name.Some? ==> d.name == name.value
    ensures name.None? ==> d.name == className
    ensures d.description == "" <==> description.None? || description.value == ""
    ensures description.Some? && description.value != "" ==> d.description == description.value
    ensures d.checks == checks && d.checkRuleTags == checkRuleTags
  {
    Definition(
      if name.None? then className else name.value,
      if description.Some? then description.value else "",
      checks, checkRuleTags, code, onFailure)
  }

  /** The mutable part of `__init__`: `_dataset` only when one was given, `_internal` always. */
  function InitialState(dataset: Option<Dataset>, suites: Store<SuiteRow>): (s: State)
    ensures suites.Valid() ==> StateValid(s)
    ensures s.internal == Internal(None, dataset) && s.suites == suites
    ensures s.datasetAttr.Unset? <==> dataset.None?
  {
    State(Internal(None, dataset), if dataset.Some? then Assigned(dataset) else Unset, suites)
  }

  /** The `dataset` property: reading an attribute that was never assigned raises AttributeError. */
  function GetDataset(s: State): (r: Result<Option<Dataset>>)
    ensures r.Err? <==> s.datasetAttr.Unset?
    ensures r.Err? ==> r.error == AttributeError("_dataset")
    ensures StateValid(s) && r.Ok? ==> r.value == s.internal.dataset
  {
    match s.datasetAttr
    case Unset => Err(AttributeError("_dataset"))
    case Assigned(v) => Ok(v)
  }

  /** The `dataset` setter: writes `_internal["dataset"]` and the attribute. */
  function SetDatasetSpec(s: State, v: Option<Dataset>): (r: State)
    ensures GetDataset(r) == Ok(v) && r.internal.dataset == v
    ensures r.suites == s.suites && r.internal.suiteModel == s.internal.suiteModel
    ensures StateValid(s) ==> StateValid(r)
  {
    s.(internal := s.internal.(dataset := v), datasetAttr := Assigned(v))
  }

  /**
   A suite constructed without a dataset has None in `_internal` but no
   `_dataset` attribute, so reading the property raises until the setter runs.
   */
  lemma ConstructedWithoutDataset(suites: Store<SuiteRow>, v: Option<Dataset>)
    ensures GetDataset(InitialState(None, suites)) == Err(AttributeError("_dataset"))
    ensures InitialState(None, suites).internal.dataset.None?
    ensures GetDataset(SetDatasetSpec(InitialState(None, suites), v)) == Ok(v)
  {
  }

  // ---------------------------------------------------------------------
  // setup, before, the loop and run
  // ---------------------------------------------------------------------

  /** `setup()`: create the suite row and remember it in `_internal`. */
  function SetupSpec(d: Definition, s: State): (r: State)
    ensures StateValid(s) ==> StateValid(r)
    ensures r.internal.suiteModel == Some(s.suites.next)
    ensures r.suites.rows == s.suites.rows[s.suites.next := SuiteRow(d.name, d.description, d.code)]
    ensures r.suites.next == s.suites.next + 1
    ensures r.internal.dataset == s.internal.dataset && r.datasetAttr == s.datasetAttr
  {
    var (suites, id) := s.suites.Insert(SuiteRow(d.name, d.description, d.code));
    s.(suites := suites, internal := s.internal.(suiteModel := Some(id)))
  }

  /** The body of the loop's `try` for check `c`, at index `i`: before, run_all, on_success. */
  function TryPart(d: Definition, pushed: Internal, c: Check, i: nat, progress: seq<Event<Internal>>, o: Oracles): Pass {
    var called := progress + [Event.Before(c.name, pushed)];
    var updated := o.update(i, c);
    if updated.Raised? then Pass(called, updated)
    else
      var ruleTags := RuleTagsFor(d.checkRuleTags, c.name);
      var ran := o.runAll(i, c, ruleTags);
      if ran.Completed? then Pass(called + [RunAll(c.name, ruleTags), OnSuccess(c.name)], Completed)
      else Pass(called + [RunAll(c.name, ruleTags)], ran)
  }

  /** One pass of `run`'s loop for the check at index `i`, with `_internal` equal to `pushed`. */
  function PassSpec(d: Definition, pushed: Internal, checks: seq<Check>, i: nat, o: Oracles): Pass
    requires i < |checks|
  {
    var c := checks[i];
    var tried := TryPart(d, pushed, c, i, [Progress(i + 1, |checks|, c.name)], o);
    if tried.outcome.Completed? then Pass(tried.events + [After(c.name)], Completed)
    else if !tried.outcome.error.IsException() then tried   // escapes `except Exception`
    else if d.onFailure == Reraise then Pass(tried.events + [OnFailure(c.name, tried.outcome.error)], tried.outcome)
    else Pass(tried.events + [OnFailure(c.name, tried.outcome.error), After(c.name)], Completed)
  }

  /** `run`'s loop from index `i` on; it stops at the first pass that raises. */
  function Loop(d: Definition, pushed: Internal, checks: seq<Check>, i: nat, o: Oracles): Pass
    requires i <= |checks|
    decreases |checks| - i
  {
    if i == |checks| then Pass([], Completed)
    else
      var p := PassSpec(d, pushed, checks, i, o);
      if p.outcome.Raised? then p
      else
        var rest := Loop(d, pushed, checks, i + 1, o);
        Pass(p.events + rest.events, rest.outcome)
  }

  lemma LoopUnfold(d: Definition, pushed: Internal, checks: seq<Check>, i: nat, o: Oracles)
    requires i < |checks|
    ensures var p := PassSpec(d, pushed, checks, i, o);
      var rest := Loop(d, pushed, checks, i + 1, o);
      Loop(d, pushed, checks, i, o) ==
        if p.outcome.Raised? then p else Pass(p.events + rest.events, rest.outcome)
  {
  }

  /** What is left of the loop after the events `steps`, once pass `i` is known. */
  lemma LoopAdvance(d: Definition, pushed: Internal, checks: seq<Check>, i: nat, o: Oracles, steps: seq<Event<Internal>>)
    requires i < |checks|
    ensures var p := PassSpec(d, pushed, checks, i, o);
      var rest := Loop(d, pushed, checks, i, o);
      var next := Loop(d, pushed, checks, i + 1, o);
      && (p.outcome.Raised? ==> Pass(steps + rest.events, rest.outcome) == Pass(steps + p.events, p.outcome))
      && (p.outcome.Completed? ==>
            Pass(steps + rest.events, rest.outcome) == Pass((steps + p.events) + next.events, next.outcome))
  {
    var p := PassSpec(d, pushed, checks, i, o);
    var next := Loop(d, pushed, checks, i + 1, o);
    LoopUnfold(d, pushed, checks, i, o);
    assert steps + (p.events + next.events) == (steps + p.events) + next.events;
  }

  /** `run(check_tags)`: setup, the loop, then teardown unless an exception escaped. */
  function RunSpec(d: Definition, s: State, tags: Option<set<Tag>>, o: Oracles): Episode {
    var s1 := SetupSpec(d, s);
    var p := Loop(d, s1.internal, SelectChecks(d.checks, tags), 0, o);
    if p.outcome.Raised? then Episode([Event.Setup] + p.events, p.outcome, s1)
    else Episode([Event.Setup] + p.events + [Event.Teardown], Completed, s1)
  }

  /** `run_async(check_tags, should_run=False)`: one unawaited rule-run request per selected check. */
  function DeferredRuns(d: Definition, tags: Option<set<Tag>>): (r: seq<RuleRunsRequest>)
    ensures |r| == |SelectChecks(d.checks, tags)|
    ensures forall i :: 0 <= i < |r| ==>
      var c := SelectChecks(d.checks, tags)[i];
      r[i] == RuleRunsRequest(c, RuleTagsFor(d.checkRuleTags, c.name))
  {
    var selected := SelectChecks(d.checks, tags);
    seq(|selected|, i requires 0 <= i < |selected| =>
      RuleRunsRequest(selected[i], RuleTagsFor(d.checkRuleTags, selected[i].name)))
  }

  // ---------------------------------------------------------------------
  // The expected traces
  // ---------------------------------------------------------------------

  predicate UpdateOk(o: Oracles, i: nat, c: Check) {
    o.update(i, c).Completed?
  }

  predicate RunAllOk(d: Definition, o: Oracles, i: nat, c: Check) {
    o.runAll(i, c, RuleTagsFor(d.checkRuleTags, c.name)).Completed?
  }

  /** Nothing inside the `try` for `c`, at index `i`, raises. */
  predicate TryOk(d: Definition, o: Oracles, i: nat, c: Check) {
    UpdateOk(o, i, c) && RunAllOk(d, o, i, c)
  }

  /** The exception raised inside the `try` for `c`, at index `i`. */
  function TryError(d: Definition, o: Oracles, i: nat, c: Check): Exn
    requires !TryOk(d, o, i, c)
  {
    if o.update(i, c).Raised? then o.update(i, c).error
    else o.runAll(i, c, RuleTagsFor(d.checkRuleTags, c.name)).error
  }

  /**
   The pass for `c`, at index `i`, returns normally, so the loop goes on:
   the `try` completes, or it raises an `Exception` that an overriding
   on_failure swallows.
   */
  predicate Continues(d: Definition, o: Oracles, i: nat, c: Check) {
    TryOk(d, o, i, c) || (d.onFailure == Swallow && TryError(d, o, i, c).IsException())
  }

  /** What a normally returning pass emits between before and after. */
  function Middle(d: Definition, o: Oracles, i: nat, c: Check): seq<Event<Internal>> {
    var ruleTags := RuleTagsFor(d.checkRuleTags, c.name);
    var ran := o.runAll(i, c, ruleTags);
    if o.update(i, c).Raised? then [OnFailure(c.name, o.update(i, c).error)]
    else if ran.Completed? then [RunAll(c.name, ruleTags), OnSuccess(c.name)]
    else [RunAll(c.name, ruleTags), OnFailure(c.name, ran.error)]
  }

  /** A pass that returns normally: progress, before, then run_all and its hook, then after. */
  function Block(d: Definition, o: Oracles, checks: seq<Check>, i: nat, pushed: Internal)
    : seq<Event<Internal>>
    requires i < |checks|
  {
    var c := checks[i];
    [Progress(i + 1, |checks|, c.name)] + [Event.Before(c.name, pushed)] + Middle(d, o, i, c) + [After(c.name)]
  }

  function Blocks(d: Definition, o: Oracles, checks: seq<Check>, i: nat, k: nat, pushed: Internal)
    : seq<Event<Internal>>
    requires i <= k <= |checks|
    decreases k - i
  {
    if i == k then [] else Block(d, o, checks, i, pushed) + Blocks(d, o, checks, i + 1, k, pushed)
  }

  /**
   The pass at which the loop stops: it has no after, and it ends in
   on_failure unless the exception is a BaseException, which skips it.
   */
  function FailBlock(d: Definition, o: Oracles, checks: seq<Check>, k: nat, pushed: Internal)
    : seq<Event<Internal>>
    requires k < |checks| && !TryOk(d, o, k, checks[k])
  {
    var c := checks[k];
    [Progress(k + 1, |checks|, c.name), Event.Before(c.name, pushed)]
    + (if o.update(k, c).Raised? then [] else [RunAll(c.name, RuleTagsFor(d.checkRuleTags, c.name))])
    + (if TryError(d, o, k, c).IsException() then [OnFailure(c.name, TryError(d, o, k, c))] else [])
  }

  lemma BlockHookCount(d: Definition, o: Oracles, checks: seq<Check>, i: nat, pushed: Internal, h: Hook)
    requires i < |checks|
    ensures HookCount(Block(d, o, checks, i, pushed), h) == 1
  {
    var c := checks[i];
    var p: Event<Internal> := Progress(i + 1, |checks|, c.name);
    var b: Event<Internal> := Event.Before(c.name, pushed);
    var a: Event<Internal> := After(c.name);
    var mid := Middle(d, o, i, c);
    HookCountAppend([p] + [b] + mid, [a], h);
    HookCountAppend([p] + [b], mid, h);
    HookCountAppend([p], [b], h);
    HookCountSingle(p, h);
    HookCountSingle(b, h);
    HookCountSingle(a, h);
    HookCountZero(mid, h);
  }

  /** Setup and teardown are none of the counted calls. */
  lemma FramedHookCount(blocks: seq<Event<Internal>>, h: Hook)
    ensures HookCount([Event.Setup] + blocks + [Event.Teardown], h) == HookCount(blocks, h)
    ensures HookCount([Event.Setup] + blocks, h) == HookCount(blocks, h)
  {
    HookCountAppend([Event.Setup] + blocks, [Event.Teardown], h);
    HookCountAppend([Event.Setup], blocks, h);
    HookCountSingle<Internal>(Event.Setup, h);
    HookCountSingle<Internal>(Event.Teardown, h);
  }

  lemma FailBlockShape(d: Definition, o: Oracles, checks: seq<Check>, k: nat, pushed: Internal)
    requires k < |checks| && !TryOk(d, o, k, checks[k])
    ensures var fail := FailBlock(d, o, checks, k, pushed);
      && (TryError(d, o, k, checks[k]).IsException() ==>
            fail[|fail| - 1] == OnFailure(checks[k].name, TryError(d, o, k, checks[k])))
      && (!TryError(d, o, k, checks[k]).IsException() ==> forall ev :: ev in fail ==> !ev.OnFailure?)
      && HookCount(fail, AfterCall) == 0
      && forall ev :: ev in fail ==> !ev.Teardown? && (ev.Progress? ==> ev.index == k + 1)
  {
    var fail := FailBlock(d, o, checks, k, pushed);
    assert forall ev :: ev in fail ==> !ev.Teardown? && !ev.After? && (ev.Progress? ==> ev.index == k + 1);
    HookCountZero(fail, AfterCall);
  }

  /** What comes between before and after is run_all, on_success or on_failure. */
  lemma MiddleEvents(d: Definition, o: Oracles, i: nat, c: Check)
    ensures forall e :: e in Middle(d, o, i, c) ==> e.RunAll? || e.OnSuccess? || e.OnFailure?
  {
  }

  lemma BlockEvents(d: Definition, o: Oracles, checks: seq<Check>, i: nat, pushed: Internal)
    requires i < |checks|
    ensures forall e :: e in Block(d, o, checks, i, pushed) ==>
      !e.Setup? && !e.Teardown? && (e.Progress? ==> e.index == i + 1)
  {
    MiddleEvents(d, o, i, checks[i]);
  }

  /** Each block holds one progress line, one before and one after. */
  lemma {:induction false} BlocksCounts(
    d: Definition, o: Oracles, checks: seq<Check>, i: nat, k: nat, pushed: Internal)
    requires i <= k <= |checks|
    ensures HookCount(Blocks(d, o, checks, i, k, pushed), ProgressLine) == k - i
    ensures HookCount(Blocks(d, o, checks, i, k, pushed), BeforeCall) == k - i
    ensures HookCount(Blocks(d, o, checks, i, k, pushed), AfterCall) == k - i
    decreases k - i
  {
    if i < k {
      var block := Block(d, o, checks, i, pushed);
      var rest := Blocks(d, o, checks, i + 1, k, pushed);
      BlocksCounts(d, o, checks, i + 1, k, pushed);
      BlockHookCount(d, o, checks, i, pushed, ProgressLine);
      BlockHookCount(d, o, checks, i, pushed, BeforeCall);
      BlockHookCount(d, o, checks, i, pushed, AfterCall);
      HookCountAppend(block, rest, ProgressLine);
      HookCountAppend(block, rest, BeforeCall);
      HookCountAppend(block, rest, AfterCall);
    }
  }

  /** Blocks contain no setup or teardown, and only the progress lines of their own checks. */
  lemma {:induction false} BlocksEvents(
    d: Definition, o: Oracles, checks: seq<Check>, i: nat, k: nat, pushed: Internal)
    requires i <= k <= |checks|
    ensures forall e :: e in Blocks(d, o, checks, i, k, pushed) ==>
      !e.Setup? && !e.Teardown? && (e.Progress? ==> i + 1 <= e.index <= k)
    decreases k - i
  {
    if i < k {
      BlocksEvents(d, o, checks, i + 1, k, pushed);
      BlockEvents(d, o, checks, i, pushed);
    }
  }

  lemma {:induction false} LoopRunsThrough(d: Definition, pushed: Internal, checks: seq<Check>, i: nat, o: Oracles)
    requires i <= |checks|
    requires forall j :: i <= j < |checks| ==> Continues(d, o, j, checks[j])
    ensures Loop(d, pushed, checks, i, o) == Pass(Blocks(d, o, checks, i, |checks|, pushed), Completed)
    decreases |checks| - i
  {
    if i < |checks| {
      assert PassSpec(d, pushed, checks, i, o).events == Block(d, o, checks, i, pushed);
      LoopRunsThrough(d, pushed, checks, i + 1, o);
    }
  }

  lemma {:induction false} LoopStopsAt(d: Definition, pushed: Internal, checks: seq<Check>, i: nat, k: nat, o: Oracles)
    requires i <= k < |checks|
    requires forall j :: i <= j < k ==> Continues(d, o, j, checks[j])
    requires !Continues(d, o, k, checks[k])
    ensures Loop(d, pushed, checks, i, o) ==
      Pass(Blocks(d, o, checks, i, k, pushed) + FailBlock(d, o, checks, k, pushed),
           Raised(TryError(d, o, k, checks[k])))
    decreases k - i
  {
    LoopUnfold(d, pushed, checks, i, o);
    if i < k {
      PassContinues(d, pushed, checks, i, o);
      LoopStopsAt(d, pushed, checks, i + 1, k, o);
      var b := Block(d, o, checks, i, pushed);
      var rest := Blocks(d, o, checks, i + 1, k, pushed);
      var fail := FailBlock(d, o, checks, k, pushed);
      assert Blocks(d, o, checks, i, k, pushed) == b + rest;
      assert b + (rest + fail) == (b + rest) + fail;
    } else {
      PassStops(d, pushed, checks, k, o);
      assert Blocks(d, o, checks, k, k, pushed) + FailBlock(d, o, checks, k, pushed)
        == FailBlock(d, o, checks, k, pushed);
    }
  }

  /** A pass that returns normally emits its whole block. */
  lemma PassContinues(d: Definition, pushed: Internal, checks: seq<Check>, i: nat, o: Oracles)
    requires i < |checks| && Continues(d, o, i, checks[i])
    ensures PassSpec(d, pushed, checks, i, o) == Pass(Block(d, o, checks, i, pushed), Completed)
  {
  }

  /** A pass that does not return normally emits its partial block and raises the exception from its `try`. */
  lemma PassStops(d: Definition, pushed: Internal, checks: seq<Check>, k: nat, o: Oracles)
    requires k < |checks| && !Continues(d, o, k, checks[k])
    ensures PassSpec(d, pushed, checks, k, o) == Pass(FailBlock(d, o, checks, k, pushed), Raised(TryError(d, o, k, checks[k])))
  {
  }

  // ---------------------------------------------------------------------
  // Properties of an episode
  // ---------------------------------------------------------------------

  /** Every selected check's pass returns normally. */
  predicate AllContinue(d: Definition, o: Oracles, checks: seq<Check>) {
    forall j :: 0 <= j < |checks| ==> Continues(d, o, j, checks[j])
  }

  /** When some pass does not return normally, there is a first one. */
  lemma FirstStop(d: Definition, o: Oracles, checks: seq<Check>) returns (k: nat)
    requires !AllContinue(d, o, checks)
    ensures k < |checks| && !Continues(d, o, k, checks[k])
    ensures forall j :: 0 <= j < k ==> Continues(d, o, j, checks[j])
  {
    k := 0;
    while Continues(d, o, k, checks[k])
      invariant k < |checks|
      invariant forall j :: 0 <= j < k ==> Continues(d, o, j, checks[j])
      invariant exists j :: k <= j < |checks| && !Continues(d, o, j, checks[j])
      decreases |checks| - k
    {
      k := k + 1;
    }
  }

  /**
   When every selected check passes or on_failure returns, `run` emits setup,
   one block per check and teardown: before and after run exactly once per
   check, whether or not its rules failed.
   */
  lemma RunCompletes(d: Definition, s: State, tags: Option<set<Tag>>, o: Oracles)
    requires AllContinue(d, o, SelectChecks(d.checks, tags))
    ensures var checks := SelectChecks(d.checks, tags);
      var e := RunSpec(d, s, tags, o);
      && e.outcome == Completed
      && e.trace == [Event.Setup] + Blocks(d, o, checks, 0, |checks|, SetupSpec(d, s).internal) + [Event.Teardown]
      && HookCount(e.trace, ProgressLine) == |checks|
      && HookCount(e.trace, BeforeCall) == |checks|
      && HookCount(e.trace, AfterCall) == |checks|
      && Event.Teardown !in e.trace[..|e.trace| - 1]
  {
    var checks := SelectChecks(d.checks, tags);
    var pushed := SetupSpec(d, s).internal;
    LoopRunsThrough(d, pushed, checks, 0, o);
    var blocks := Blocks(d, o, checks, 0, |checks|, pushed);
    BlocksCounts(d, o, checks, 0, |checks|, pushed);
    BlocksEvents(d, o, checks, 0, |checks|, pushed);
    var trace := RunSpec(d, s, tags, o).trace;
    assert trace == [Event.Setup] + blocks + [Event.Teardown];
    assert trace[..|trace| - 1] == [Event.Setup] + blocks;
    FramedHookCount(blocks, ProgressLine);
    FramedHookCount(blocks, BeforeCall);
    FramedHookCount(blocks, AfterCall);
  }

  /**
   With check k the first pass that does not return normally, `run` raises the
   exception from its `try`; an `Exception` goes through on_failure first, a
   BaseException skips it; check k gets no after, no later check runs and
   there is no teardown.
   */
  lemma RunAbortsAtFirstFailure(d: Definition, s: State, tags: Option<set<Tag>>, o: Oracles, k: nat)
    requires k < |SelectChecks(d.checks, tags)|
    requires forall j :: 0 <= j < k ==> Continues(d, o, j, SelectChecks(d.checks, tags)[j])
    requires !Continues(d, o, k, SelectChecks(d.checks, tags)[k])
    ensures var checks := SelectChecks(d.checks, tags);
      var e := RunSpec(d, s, tags, o);
      var pushed := SetupSpec(d, s).internal;
      && e.outcome == Raised(TryError(d, o, k, checks[k]))
      && e.trace == [Event.Setup] + Blocks(d, o, checks, 0, k, pushed) + FailBlock(d, o, checks, k, pushed)
      && (TryError(d, o, k, checks[k]).IsException() ==>
            e.trace[|e.trace| - 1] == OnFailure(checks[k].name, TryError(d, o, k, checks[k])))
      && (!TryError(d, o, k, checks[k]).IsException() ==> !e.trace[|e.trace| - 1].OnFailure?)
      && Event.Teardown !in e.trace
      && HookCount(e.trace, AfterCall) == k
      && (forall ev :: ev in e.trace && ev.Progress? ==> ev.index <= k + 1)
  {
    var checks := SelectChecks(d.checks, tags);
    var pushed := SetupSpec(d, s).internal;
    var blocks := Blocks(d, o, checks, 0, k, pushed);
    var fail := FailBlock(d, o, checks, k, pushed);
    RunStops(d, s, tags, o, k);
    BlocksCounts(d, o, checks, 0, k, pushed);
    BlocksEvents(d, o, checks, 0, k, pushed);
    FailBlockShape(d, o, checks, k, pushed);
    StoppedTrace(blocks, fail, k);
    assert fail[|fail| - 1] in fail;
    HookCountAppend([Event.Setup] + blocks, fail, AfterCall);
    FramedHookCount(blocks, AfterCall);
  }

  /** The episode that stops at check k: setup, the earlier blocks, then the partial block of k. */
  lemma RunStops(d: Definition, s: State, tags: Option<set<Tag>>, o: Oracles, k: nat)
    requires k < |SelectChecks(d.checks, tags)|
    requires forall j :: 0 <= j < k ==> Continues(d, o, j, SelectChecks(d.checks, tags)[j])
    requires !Continues(d, o, k, SelectChecks(d.checks, tags)[k])
    ensures var checks := SelectChecks(d.checks, tags);
      var e := RunSpec(d, s, tags, o);
      var pushed := SetupSpec(d, s).internal;
      && e.outcome == Raised(TryError(d, o, k, checks[k]))
      && e.trace == [Event.Setup] + Blocks(d, o, checks, 0, k, pushed) + FailBlock(d, o, checks, k, pushed)
  {
    var checks := SelectChecks(d.checks, tags);
    var pushed := SetupSpec(d, s).internal;
    LoopStopsAt(d, pushed, checks, 0, k, o);
  }

  /** No BaseException leaves the `try` of this pass. */
  predicate NoBaseException(d: Definition, o: Oracles, i: nat, c: Check) {
    TryOk(d, o, i, c) || TryError(d, o, i, c).IsException()
  }

  /**
   With an on_failure that returns, `run` completes, with every selected check
   reaching after, exactly when no pass raises a BaseException; otherwise it
   raises the first such BaseException and there is no teardown.
   */
  lemma SwallowedFailuresRunEveryCheck(d: Definition, s: State, tags: Option<set<Tag>>, o: Oracles)
    requires d.onFailure == Swallow
    ensures var checks := SelectChecks(d.checks, tags);
      RunSpec(d, s, tags, o).outcome == Completed <==>
        forall j :: 0 <= j < |checks| ==> NoBaseException(d, o, j, checks[j])
    ensures RunSpec(d, s, tags, o).outcome == Completed ==>
      HookCount(RunSpec(d, s, tags, o).trace, AfterCall) == |SelectChecks(d.checks, tags)|
    ensures RunSpec(d, s, tags, o).outcome.Raised? ==>
      && !RunSpec(d, s, tags, o).outcome.error.IsException()
      && Event.Teardown !in RunSpec(d, s, tags, o).trace
  {
    var checks := SelectChecks(d.checks, tags);
    if AllContinue(d, o, checks) {
      RunCompletes(d, s, tags, o);
    } else {
      var k := FirstStop(d, o, checks);
      RunAbortsAtFirstFailure(d, s, tags, o, k);
    }
  }

  /** Only setup writes: a run leaves exactly the state setup left, whatever the checks do. */
  lemma RunOnlySetupChanges(d: Definition, s: State, tags: Option<set<Tag>>, o: Oracles)
    requires StateValid(s)
    ensures var r := RunSpec(d, s, tags, o).state;
      && r == SetupSpec(d, s)
      && StateValid(r)
      && GetDataset(r) == GetDataset(s)
      && r.suites.rows.Keys == s.suites.rows.Keys + {s.suites.next}
  {
  }

  /** Every run creates its own suite row, so two runs record two distinct suites. */
  lemma RunTwiceDistinctSuites(d: Definition, s: State, tags: Option<set<Tag>>, o: Oracles)
    requires StateValid(s)
    ensures var first := RunSpec(d, s, tags, o).state;
      var second := RunSpec(d, first, tags, o).state;
      && first.internal.suiteModel.Some? && second.internal.suiteModel.Some?
      && first.internal.suiteModel != second.internal.suiteModel
      && first.internal.suiteModel.value in second.suites.rows
  {
    RunOnlySetupChanges(d, s, tags, o);
    RunOnlySetupChanges(d, RunSpec(d, s, tags, o).state, tags, o);
  }

  // ---------------------------------------------------------------------
  // The class
  // ---------------------------------------------------------------------

  class Suite {
    const def: Definition
    var internal: Internal
    var datasetAttr: DatasetAttr
    var suites: Store<SuiteRow>

    function Snapshot(): State
      reads this
    {
      State(internal, datasetAttr, suites)
    }

    ghost predicate Valid()
      reads this
    {
      StateValid(Snapshot())
    }

    /** `__init__`. */
    constructor (
      className: string, name: Option<string>, description: Option<string>, checks: seq<Check>,
      checkRuleTags: map<string, set<Tag>>, dataset: Option<Dataset>, code: string,
      onFailure: FailurePolicy, suites: Store<SuiteRow>)
      requires suites.Valid()
      ensures Valid()
      ensures def == Configure(className, name, description, checks, checkRuleTags, code, onFailure)
      ensures Snapshot() == InitialState(dataset, suites)
    {
      def := Configure(className, name, description, checks, checkRuleTags, code, onFailure);
      if dataset.Some? {
        datasetAttr := Assigned(dataset);
      } else {
        datasetAttr := Unset;
      }
      internal := Internal(None, dataset);
      this.suites := suites;
    }

    /** The `dataset` property. */
    function DatasetProperty(): Result<Option<Dataset>>
      reads this
    {
      GetDataset(Snapshot())
    }

    /** The `dataset` setter. */
    method SetDataset(v: Option<Dataset>)
      requires Valid()
      modifies this
      ensures Valid()
      ensures Snapshot() == SetDatasetSpec(old(Snapshot()), v)
    {
      internal := internal.(dataset := v);
      datasetAttr := Assigned(v);
    }

    /** `setup()`. */
    method Setup()
      requires Valid()
      modifies this
      ensures Valid()
      ensures Snapshot() == SetupSpec(def, old(Snapshot()))
    {
      var id := suites.next;
      suites := suites.Insert(SuiteRow(def.name, def.description, def.code)).0;
      internal := internal.(suiteModel := Some(id));
    }

    /** `before(check)` for the check at index `i`: hands the check the suite's `_internal`. */
    method Before(c: Check, i: nat, o: Oracles) returns (events: seq<Event<Internal>>, outcome: Outcome)
      ensures events == [Event.Before(c.name, internal)]
      ensures outcome == o.update(i, c)
    {
      events := [Event.Before(c.name, internal)];
      outcome := o.update(i, c);
    }

    /** `on_failure(exception)`: the default re-raises; an override may return. */
    method OnFailure(e: Exn) returns (outcome: Outcome)
      ensures def.onFailure == Reraise ==> outcome == Raised(e)
      ensures def.onFailure == Swallow ==> outcome == Completed
    {
      if def.onFailure == Reraise {
        return Raised(e);
      }
      return Completed;
    }

    /** One pass of `run`'s loop: progress line, the `try`, on_failure on an exception, then after. */
    method RunCheck(checks: seq<Check>, i: nat, o: Oracles) returns (events: seq<Event<Internal>>, outcome: Outcome)
      requires i < |checks|
      ensures Pass(events, outcome) == PassSpec(def, internal, checks, i, o)
    {
      var c := checks[i];
      events := [Progress(i + 1, |checks|, c.name)];
      var called, caught := Before(c, i, o);
      events := events + called;
      if caught.Completed? {
        var ruleTags := RuleTagsFor(def.checkRuleTags, c.name);
        events := events + [RunAll(c.name, ruleTags)];
        caught := o.runAll(i, c, ruleTags);
        if caught.Completed? {
          events := events + [OnSuccess(c.name)];
        }
      }
      if caught.Raised? {
        if !caught.error.IsException() {
          return events, caught;
        }
        events := events + [Event.OnFailure(c.name, caught.error)];
        var handled := OnFailure(caught.error);
        if handled.Raised? {
          return events, handled;
        }
      }
      events := events + [After(c.name)];
      outcome := Completed;
    }

    /** `run`'s loop over the selected checks; nothing in it changes the suite. */
    method RunChecks(checks: seq<Check>, o: Oracles) returns (steps: seq<Event<Internal>>, outcome: Outcome)
      ensures Pass(steps, outcome) == Loop(def, internal, checks, 0, o)
    {
      steps := [];
      var i := 0;
      while i < |checks|
        invariant 0 <= i <= |checks|
        invariant Loop(def, internal, checks, 0, o) ==
          var rest := Loop(def, internal, checks, i, o); Pass(steps + rest.events, rest.outcome)
        decreases |checks| - i
      {
        var events, passOutcome := RunCheck(checks, i, o);
        LoopAdvance(def, internal, checks, i, o, steps);
        if passOutcome.Raised? {
          return steps + events, passOutcome;
        }
        steps := steps + events;
        i := i + 1;
      }
      outcome := Completed;
    }

    /** `run(check_tags)`: returns the lifecycle trace and whether an exception escaped. */
    method Run(tags: Option<set<Tag>>, o: Oracles) returns (trace: seq<Event<Internal>>, outcome: Outcome)
      requires Valid()
      modifies this
      ensures Valid()
      ensures Episode(trace, outcome, Snapshot()) == RunSpec(def, old(Snapshot()), tags, o)
    {
      Setup();
      var checksToRun := SelectChecks(def.checks, tags);
      var steps, loopOutcome := RunChecks(checksToRun, o);
      if loopOutcome.Raised? {
        return [Event.Setup] + steps, loopOutcome;
      }
      return [Event.Setup] + steps + [Event.Teardown], Completed;
    }

    /** `get_all_metadata()`: each constructed check's name to its metadata. */
    method GetAllMetadata() returns (r: map<string, Metadata>)
      ensures r == MetadataByName(def.checks)
    {
      var checks := def.checks;
      r := map[];
      for i := 0 to |checks|
        invariant r == MetadataByName(checks[..i])
      {
        assert checks[..i + 1][..i] == checks[..i];
        r := r[checks[i].name := checks[i].metadata];
      }
      assert checks[..|checks|] == checks;
    }
  }
}
