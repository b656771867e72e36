/**
 The execution recorder (data_checks/base/actions/check/execution_database_action.py):
 the callbacks a check calls around its own run and around each rule run,
 which record executions in the rule and check execution tables and capture
 what a rule prints.

 The callbacks are static methods that act on three kinds of state: the
 per-invocation `context` dictionary, the check's `_internal` dictionary, and
 the process-wide `sys.stdout`; through the two managers they also create and
 update rows. The `World` datatype holds all of it, and the class `Recorder`
 holds the same fields and performs the callbacks in place.
 */
module ExecutionDatabaseAction {
  import opened Lifecycle

  /** Where `sys.stdout` points: the real stream, or an in-memory buffer. */
  datatype Target = Real | Buffer(id: nat)

  /** A DataCheckException: it may wrap the exception the rule raised. */
  datatype DataCheckException = DataCheckException(inner: Option<Exn>)

  /**
   The invocation's `context` dictionary; None stands for a key that is
   absent. `output` names the buffer stored under "output".
   */
  datatype Context = Context(
    params: Option<Params>,
    ruleModel: Option<nat>,
    execId: Option<int>,
    output: Option<nat>,
    exception: Option<DataCheckException>)

  /** A row of either execution table. */
  datatype ExecutionRow = ExecutionRow(
    main: nat,                           // the rule or check model it belongs to
    status: Status,
    params: Option<string>,
    logs: Option<string>,
    traceback: Option<seq<string>>,
    exception: Option<string>)

  /** The keyword arguments of an update call: a field is written only when it is passed. */
  datatype Patch = Patch(
    status: Option<Status>,
    params: Option<string>,
    logs: Option<string>,
    traceback: Option<Option<seq<string>>>,
    exception: Option<string>)

  /** The library calls the callbacks make and whose results they only store. */
  datatype Foreign = Foreign(
    dumps: Params -> string,                    // json.dumps(params, default=str)
    formatTb: Exn -> seq<string>,               // traceback.format_tb(e.__traceback__)
    toJson: DataCheckException -> string)       // DataCheckException.toJSON()

  /** Everything the callbacks read or write. */
  datatype World = World(
    context: Context,
    checkModel: Option<nat>,                    // check._internal["check_model"]
    checkExecutionModel: Option<nat>,           // check._internal["check_execution_model"]
    rules: Store<ExecutionRow>,                 // behind RuleExecutionManager
    checks: Store<ExecutionRow>,                // behind CheckExecutionManager
    stdout: Target,
    buffers: map<nat, string>,                  // the StringIO objects, by id
    nextBuffer: nat,
    console: string)                            // what reached the real stdout

  /** A callback's effect: the world after it, and whether it raised. */
  datatype Effect = Effect(world: World, outcome: Outcome)

  ghost predicate WorldValid(w: World) {
    && w.rules.Valid()
    && w.checks.Valid()
    && (forall b :: b in w.buffers ==> b < w.nextBuffer)
    && (w.stdout.Buffer? ==> w.stdout.id in w.buffers)
    && (w.context.output.Some? ==> w.context.output.value in w.buffers)
  }

  /** Python truthiness of an optional id: present and not zero. */
  predicate Truthy(id: Option<int>) {
    id.Some? && id.value != 0
  }

  function Apply(row: ExecutionRow, p: Patch): ExecutionRow {
    ExecutionRow(
      row.main,
      if p.status.Some? then p.status.value else row.status,
      if p.params.Some? then p.params else row.params,
      if p.logs.Some? then p.logs else row.logs,
      if p.traceback.Some? then p.traceback.value else row.traceback,
      if p.exception.Some? then p.exception else row.exception)
  }

  /** A manager's `update_execution(id, **kwargs)`; an id that names no row changes nothing. */
  function Touch(store: Store<ExecutionRow>, id: int, p: Patch): (r: Store<ExecutionRow>)
    ensures r.next == store.next && r.rows.Keys == store.rows.Keys
    ensures id >= 0 && id as nat in store.rows ==> r.rows[id as nat] == Apply(store.rows[id as nat], p)
    ensures forall k :: k in store.rows && k as int != id ==> r.rows[k] == store.rows[k]
    ensures store.Valid() ==> r.Valid()
  {
    if id >= 0 then store.Modify(id as nat, (row: ExecutionRow) => Apply(row, p)) else store
  }

  function StatusPatch(s: Status): Patch {
    Patch(Some(s), None, None, None, None)
  }

  // ---------------------------------------------------------------------
  // str.strip
  // ---------------------------------------------------------------------

  /** `str.isspace` for one character: the characters Python treats as whitespace. */
  predicate IsSpace(c: char) {
    || ('\t' <= c <= '\r')                      // tab, line feed, vertical tab, form feed, carriage return
    || ('\U{1c}' <= c <= '\U{1f}')              // the four information separators
    || c == ' ' || c == '\U{85}' || c == '\U{a0}' || c == '\U{1680}'
    || ('\U{2000}' <= c <= '\U{200a}')
    || c == '\U{2028}' || c == '\U{2029}' || c == '\U{202f}' || c == '\U{205f}' || c == '\U{3000}'
  }

  function TrimStart(s: string): (r: string)
    ensures |r| <= |s| && r == s[|s| - |r|..]
    ensures forall i :: 0 <= i < |s| - |r| ==> IsSpace(s[i])
    ensures r != [] ==> !IsSpace(r[0])
  {
    if s == [] || !IsSpace(s[0]) then s else TrimStart(s[1..])
  }

  function TrimEnd(s: string): (r: string)
    ensures |r| <= |s| && r == s[..|r|]
    ensures forall i :: |r| <= i < |s| ==> IsSpace(s[i])
    ensures r != [] ==> !IsSpace(r[|r| - 1])
  {
    if s == [] || !IsSpace(s[|s| - 1]) then s else TrimEnd(s[..|s| - 1])
  }

  /** `s.strip()`. */
  function Strip(s: string): string {
    TrimEnd(TrimStart(s))
  }

  /** `s.strip() != ""` exactly when `s` holds a character that is not whitespace. */
  lemma StripEmptyIffBlank(s: string)
    ensures Strip(s) == "" <==> forall i :: 0 <= i < |s| ==> IsSpace(s[i])
  {
    var t := TrimStart(s);
    if Strip(s) == "" {
      forall i | 0 <= i < |s|
        ensures IsSpace(s[i])
      {
        if i >= |s| - |t| {
          assert s[i] == t[i - (|s| - |t|)];
        }
      }
    } else {
      var r := Strip(s);
      assert !IsSpace(r[0]);
      assert r[0] == t[0] == s[|s| - |t|];
    }
  }

  // ---------------------------------------------------------------------
  // The callbacks
  // ---------------------------------------------------------------------

  /** `update_execution(type, execution_id, **kwargs)`: only "rule" or "check" with a truthy id writes. */
  function UpdateSpec(w: World, kind: string, id: Option<int>, p: Patch): (r: World)
    ensures r.(rules := w.rules, checks := w.checks) == w
    ensures !(kind == "rule" && Truthy(id)) ==> r.rules == w.rules
    ensures !(kind == "check" && Truthy(id)) ==> r.checks == w.checks
    ensures kind == "rule" && Truthy(id) ==> r.rules == Touch(w.rules, id.value, p)
    ensures kind == "check" && Truthy(id) ==> r.checks == Touch(w.checks, id.value, p)
    ensures WorldValid(w) ==> WorldValid(r)
  {
    var w1 := if kind == "rule" && Truthy(id) then w.(rules := Touch(w.rules, id.value, p)) else w;
    if kind == "check" && Truthy(id) then w1.(checks := Touch(w1.checks, id.value, p)) else w1
  }

  /** `setup(check, context)`: a "running" check execution, when the check has a model. */
  function SetupSpec(w: World): (r: World)
    ensures w.checkModel.None? ==> r == w
    ensures w.checkModel.Some? ==>
      && r == w.(checks := r.checks, checkExecutionModel := Some(w.checks.next))
      && r.checks.rows == w.checks.rows[w.checks.next := ExecutionRow(w.checkModel.value, Running, None, None, None, None)]
      && r.checks.next == w.checks.next + 1
    ensures WorldValid(w) ==> WorldValid(r)
  {
    match w.checkModel
    case None => w
    case Some(model) =>
      var (checks, id) := w.checks.Insert(ExecutionRow(model, Running, None, None, None, None));
      w.(checks := checks, checkExecutionModel := Some(id))
  }

  /** `before(check, context)`: open a "running" rule execution and redirect stdout to a fresh buffer. */
  function BeforeSpec(w: World, f: Foreign): (r: Effect)
    ensures w.context.params.None? ==> r == Effect(w, Raised(KeyError("params")))
    ensures w.context.params.Some? && w.context.ruleModel.None? ==> r == Effect(w, Completed)
    ensures w.context.params.Some? && w.context.ruleModel.Some? ==>
      var id := w.rules.next;
      var b := w.nextBuffer;
      && r.outcome == Completed
      && r.world.rules.rows == w.rules.rows[id :=
           ExecutionRow(w.context.ruleModel.value, Running, Some(f.dumps(w.context.params.value)), None, None, None)]
      && r.world.rules.next == id + 1
      && r.world.buffers == w.buffers[b := ""] && r.world.nextBuffer == b + 1
      && r.world.stdout == Buffer(b)
      && r.world.context == w.context.(output := Some(b), execId := Some(id as int))
      && r.world.checks == w.checks && r.world.console == w.console
      && r.world.checkExecutionModel == w.checkExecutionModel && r.world.checkModel == w.checkModel
    ensures WorldValid(w) ==> WorldValid(r.world)
    ensures WorldValid(w) && r.world.context.execId.Some? && r.world.context.execId != w.context.execId ==>
      Truthy(r.world.context.execId) && r.world.context.execId.value !in w.rules.rows
  {
    match w.context.params
    case None => Effect(w, Raised(KeyError("params")))
    case Some(params) =>
      match w.context.ruleModel
      case None => Effect(w, Completed)
      case Some(model) =>
        var (rules, id) := w.rules.Insert(ExecutionRow(model, Running, Some(f.dumps(params)), None, None, None));
        var b := w.nextBuffer;
        Effect(
          w.(rules := rules, buffers := w.buffers[b := ""], nextBuffer := b + 1, stdout := Buffer(b),
             context := w.context.(output := Some(b), execId := Some(id as int))),
          Completed)
  }

  /** `on_success(check, context)`: the rule execution becomes "success" with empty logs. */
  function OnSuccessSpec(w: World): (r: World)
    ensures w.context.execId.None? ==> r == w
    ensures w.context.execId.Some? ==>
      r == UpdateSpec(w, "rule", w.context.execId, Patch(Some(Success), None, Some(""), None, None))
  {
    match w.context.execId
    case None => w
    case Some(id) => UpdateSpec(w, "rule", Some(id), Patch(Some(Success), None, Some(""), None, None))
  }

  /** The patch `on_failure` writes into the rule execution. */
  function FailurePatch(e: DataCheckException, f: Foreign): (p: Patch)
    ensures p.status == Some(Failure) && p.logs == Some("") && p.params.None?
    ensures p.traceback == Some(if e.inner.Some? then Some(f.formatTb(e.inner.value)) else None)
    ensures p.exception == Some(f.toJson(e))
  {
    Patch(Some(Failure), None, Some(""),
          Some(if e.inner.Some? then Some(f.formatTb(e.inner.value)) else None),
          Some(f.toJson(e)))
  }

  /**
   `on_failure(check, context)`: the rule execution becomes "failure" with the
   exception recorded, then the check execution, if any, becomes "failure".
   */
  function OnFailureSpec(w: World, f: Foreign): (r: Effect)
    ensures w.context.execId.None? ==> r == Effect(w, Completed)
    ensures w.context.execId.Some? && w.context.exception.None? ==> r == Effect(w, Raised(KeyError("exception")))
    ensures w.context.execId.Some? && w.context.exception.Some? ==>
      var w1 := UpdateSpec(w, "rule", w.context.execId, FailurePatch(w.context.exception.value, f));
      && r.outcome == Completed
      && r.world == (if w.checkExecutionModel.Some?
                     then UpdateSpec(w1, "check", Some(w.checkExecutionModel.value as int), StatusPatch(Failure))
                     else w1)
    ensures WorldValid(w) ==> WorldValid(r.world)
  {
    match w.context.execId
    case None => Effect(w, Completed)
    case Some(id) =>
      match w.context.exception
      case None => Effect(w, Raised(KeyError("exception")))
      case Some(e) =>
        var w1 := UpdateSpec(w, "rule", Some(id), FailurePatch(e, f));
        match w.checkExecutionModel
        case None => Effect(w1, Completed)
        case Some(checkExecution) =>
          Effect(UpdateSpec(w1, "check", Some(checkExecution as int), StatusPatch(Failure)), Completed)
  }

  /** The real stdout after `print(logs)` when logs are not blank. */
  function Replay(console: string, logs: string): (r: string)
    ensures Strip(logs) == "" ==> r == console
    ensures Strip(logs) != "" ==> r == console + logs + "\n"
  {
    if Strip(logs) != "" then console + logs + "\n" else console
  }

  /**
   `after(check, context)`: take the captured output as logs, restore stdout,
   replay non-blank logs to the real stdout, and record params and logs.
   */
  function AfterSpec(w: World, f: Foreign): (r: Effect)
    ensures w.context.execId.None? ==> r == Effect(w.(stdout := Real), Completed)
    ensures w.context.execId.Some? && w.context.params.None? ==> r == Effect(w, Raised(KeyError("params")))
    ensures (w.context.execId.Some? && w.context.params.Some? && Truthy(w.context.execId)
             && w.context.output.None?) ==> r == Effect(w, Raised(KeyError("output")))
    ensures w.context.execId.Some? && w.context.params.Some? && !Truthy(w.context.execId) ==>
      r == Effect(UpdateSpec(w, "rule", w.context.execId, Patch(None, Some(f.dumps(w.context.params.value)), Some(""), None, None)), Completed)
    ensures (w.context.execId.Some? && w.context.params.Some? && Truthy(w.context.execId)
             && w.context.output.Some?) ==>
      var logs := Get(w.buffers, w.context.output.value, "");
      var restored := w.(stdout := Real, console := Replay(w.console, logs));
      r == Effect(UpdateSpec(restored, "rule", w.context.execId,
                             Patch(None, Some(f.dumps(w.context.params.value)), Some(logs), None, None)),
                  Completed)
    ensures WorldValid(w) ==> WorldValid(r.world)
  {
    match w.context.execId
    case None => Effect(w.(stdout := Real), Completed)
    case Some(id) =>
      match w.context.params
      case None => Effect(w, Raised(KeyError("params")))
      case Some(params) =>
        if id != 0 && w.context.output.None? then Effect(w, Raised(KeyError("output")))
        else
          var logs := if id != 0 then Get(w.buffers, w.context.output.value, "") else "";
          var w1 := if id != 0 then w.(stdout := Real, console := Replay(w.console, logs)) else w;
          Effect(UpdateSpec(w1, "rule", Some(id), Patch(None, Some(f.dumps(params)), Some(logs), None, None)), Completed)
  }

  /** `teardown(check, context)`: the check execution, if any, becomes "success". */
  function TeardownSpec(w: World): (r: World)
    ensures w.checkExecutionModel.None? ==> r == w
    ensures w.checkExecutionModel.Some? ==>
      r == w.(checks := Touch(w.checks, w.checkExecutionModel.value as int, StatusPatch(Success)))
    ensures WorldValid(w) ==> WorldValid(r)
  {
    match w.checkExecutionModel
    case None => w
    case Some(id) => w.(checks := Touch(w.checks, id as int, StatusPatch(Success)))
  }

  /** A rule writing `text` to whatever `sys.stdout` is at that moment. */
  function WriteSpec(w: World, text: string): (r: World)
    ensures w.stdout.Real? ==> r == w.(console := w.console + text)
    ensures w.stdout.Buffer? ==>
      r == w.(buffers := w.buffers[w.stdout.id := Get(w.buffers, w.stdout.id, "") + text])
    ensures WorldValid(w) ==> WorldValid(r)
  {
    match w.stdout
    case Real => w.(console := w.console + text)
    case Buffer(b) => w.(buffers := w.buffers[b := Get(w.buffers, b, "") + text])
  }

  // ---------------------------------------------------------------------
  // Properties of the callbacks together
  // ---------------------------------------------------------------------

  /** A rule invocation recorded from a context that has params and a rule model. */
  predicate Recordable(w: World) {
    w.context.params.Some? && w.context.ruleModel.Some?
  }

  /**
   One successful rule run: before, the rule printing `text`, on_success,
   after. Stdout points to the fresh buffer during the rule and is real again
   afterwards; the new rule execution ends "success" with the serialized
   params and exactly the printed text as logs; the text reaches the real
   stdout once, followed by a newline, unless it is blank.
   */
  lemma SuccessfulRuleRun(w: World, f: Foreign, text: string)
    requires WorldValid(w) && Recordable(w)
    ensures var b := BeforeSpec(w, f);
      var printed := WriteSpec(b.world, text);
      var a := AfterSpec(OnSuccessSpec(printed), f);
      var id := w.rules.next;
      && b.outcome == Completed && b.world.stdout == Buffer(w.nextBuffer)
      && printed.console == w.console
      && a.outcome == Completed && a.world.stdout == Real
      && id in a.world.rules.rows
      && a.world.rules.rows[id] == ExecutionRow(w.context.ruleModel.value, Success,
           Some(f.dumps(w.context.params.value)), Some(text), None, None)
      && (forall k :: k in w.rules.rows ==> a.world.rules.rows[k] == w.rules.rows[k])
      && a.world.checks == w.checks
      && a.world.console == Replay(w.console, text)
  {
    var b := BeforeSpec(w, f);
    var id := w.rules.next;
    assert b.world.context.execId == Some(id as int) && id >= 1;
    var printed := WriteSpec(b.world, text);
    assert printed.buffers[w.nextBuffer] == text;
    var s := OnSuccessSpec(printed);
    assert s.rules.rows[id] == ExecutionRow(w.context.ruleModel.value, Success,
      Some(f.dumps(w.context.params.value)), Some(""), None, None);
  }

  /** A rule execution row closed by on_failure and after: the exception's JSON, its traceback, empty logs. */
  predicate FailedRow(row: ExecutionRow, f: Foreign, e: DataCheckException) {
    && row.status == Failure
    && row.exception == Some(f.toJson(e))
    && row.traceback == (if e.inner.Some? then Some(f.formatTb(e.inner.value)) else None)
    && row.logs == Some("")
  }

  /**
   One failing rule run after the check's setup: before, on_failure, after.
   The rule execution ends "failure" with the exception's JSON, the traceback
   only when an inner exception exists, and empty logs; the check execution
   is "failure".
   */
  lemma FailedRuleRun(w: World, f: Foreign, e: DataCheckException)
    requires WorldValid(w) && Recordable(w) && w.checkModel.Some?
    ensures var started := SetupSpec(w);
      var failing := started.(context := started.context.(exception := Some(e)));
      var b := BeforeSpec(failing, f);
      var failed := OnFailureSpec(b.world, f);
      var a := AfterSpec(failed.world, f);
      var ruleId := w.rules.next;
      && failed.outcome == Completed && a.outcome == Completed && a.world.stdout == Real
      && ruleId in a.world.rules.rows
      && FailedRow(a.world.rules.rows[ruleId], f, e)
      && a.world.checkExecutionModel == Some(w.checks.next)
      && w.checks.next in a.world.checks.rows
      && a.world.checks.rows[w.checks.next].status == Failure
  {
    var started := SetupSpec(w);
    var failing := started.(context := started.context.(exception := Some(e)));
    var b := BeforeSpec(failing, f);
    SetupThenBefore(w, f, e);
    FailureThenAfter(b.world, f, w.rules.next, w.checks.next, e);
  }

  /** setup, then before with an exception in the context: the rule execution is open, the buffer empty. */
  lemma SetupThenBefore(w: World, f: Foreign, e: DataCheckException)
    requires WorldValid(w) && Recordable(w) && w.checkModel.Some?
    ensures var started := SetupSpec(w);
      var failing := started.(context := started.context.(exception := Some(e)));
      var x := BeforeSpec(failing, f).world;
      var ruleId := w.rules.next;
      && WorldValid(x) && ruleId >= 1 && ruleId in x.rules.rows
      && x.context.execId == Some(ruleId as int) && x.context.exception == Some(e)
      && x.context.params.Some? && x.context.output.Some? && x.buffers[x.context.output.value] == ""
      && x.checkExecutionModel == Some(w.checks.next) && w.checks.next in x.checks.rows
  {
    var started := SetupSpec(w);
    assert started.rules == w.rules && started.context == w.context && started.nextBuffer == w.nextBuffer;
    assert started.checkExecutionModel == Some(w.checks.next) && w.checks.next in started.checks.rows;
    var failing := started.(context := started.context.(exception := Some(e)));
    assert WorldValid(failing);
    var b := BeforeSpec(failing, f);
    assert b.world.context.execId == Some(w.rules.next as int) && w.rules.next >= 1;
    assert b.world.buffers[w.nextBuffer] == "";
  }

  /** on_failure then after, from a world whose rule execution is open and whose buffer is empty. */
  lemma FailureThenAfter(x: World, f: Foreign, ruleId: nat, checkId: nat, e: DataCheckException)
    requires WorldValid(x) && ruleId >= 1 && ruleId in x.rules.rows
    requires x.context.execId == Some(ruleId as int) && x.context.exception == Some(e)
    requires x.context.params.Some? && x.context.output.Some? && x.buffers[x.context.output.value] == ""
    requires x.checkExecutionModel == Some(checkId) && checkId in x.checks.rows
    ensures var failed := OnFailureSpec(x, f);
      var a := AfterSpec(failed.world, f);
      && failed.outcome == Completed && a.outcome == Completed && a.world.stdout == Real
      && ruleId in a.world.rules.rows
      && a.world.rules.rows[ruleId].status == Failure
      && a.world.rules.rows[ruleId].exception == Some(f.toJson(e))
      && a.world.rules.rows[ruleId].traceback == (if e.inner.Some? then Some(f.formatTb(e.inner.value)) else None)
      && a.world.rules.rows[ruleId].logs == Some("")
      && a.world.checkExecutionModel == Some(checkId)
      && checkId in a.world.checks.rows
      && a.world.checks.rows[checkId].status == Failure
  {
    var failed := OnFailureSpec(x, f);
    assert failed.world.context == x.context && failed.world.buffers == x.buffers;
    assert failed.world.checkExecutionModel == Some(checkId);
    assert failed.world.rules.rows[ruleId].status == Failure;
    assert failed.world.checks.rows[checkId].status == Failure;
    assert Strip("") == "";
  }

  /** Teardown marks the check execution "success" even after on_failure marked it "failure". */
  lemma TeardownOverridesFailure(w: World)
    requires w.checkExecutionModel.Some? && w.checkExecutionModel.value in w.checks.rows
    requires w.checks.rows[w.checkExecutionModel.value].status == Failure
    ensures TeardownSpec(w).checks.rows[w.checkExecutionModel.value].status == Success
    ensures TeardownSpec(w).rules == w.rules
  {
  }

  /** Without a rule model nothing is recorded and stdout is never redirected. */
  lemma UnrecordedRuleRun(w: World, f: Foreign, text: string)
    requires w.context.params.Some? && w.context.ruleModel.None? && w.context.execId.None?
    ensures var b := BeforeSpec(w, f);
      var printed := WriteSpec(b.world, text);
      var a := AfterSpec(OnSuccessSpec(printed), f);
      && b == Effect(w, Completed)
      && a.outcome == Completed
      && a.world == printed.(stdout := Real)
      && a.world.rules == w.rules && a.world.checks == w.checks
      && (w.stdout.Real? ==> a.world.console == w.console + text)
  {
  }

  // ---------------------------------------------------------------------
  // The class
  // ---------------------------------------------------------------------

  /** The state the callbacks act on, with one method per callback. */
  class Recorder {
    const foreign: Foreign
    var context: Context
    var checkModel: Option<nat>
    var checkExecutionModel: Option<nat>
    var rules: Store<ExecutionRow>
    var checks: Store<ExecutionRow>
    var stdout: Target
    var buffers: map<nat, string>
    var nextBuffer: nat
    var console: string

    function Snapshot(): World
      reads this
    {
      World(context, checkModel, checkExecutionModel, rules, checks, stdout, buffers, nextBuffer, console)
    }

    ghost predicate Valid()
      reads this
    {
      WorldValid(Snapshot())
    }

    constructor (foreign: Foreign, w: World)
      requires WorldValid(w)
      ensures Valid() && Snapshot() == w && this.foreign == foreign
    {
      this.foreign := foreign;
      context := w.context;
      checkModel := w.checkModel;
      checkExecutionModel := w.checkExecutionModel;
      rules := w.rules;
      checks := w.checks;
      stdout := w.stdout;
      buffers := w.buffers;
      nextBuffer := w.nextBuffer;
      console := w.console;
    }

    /** `update_execution(type, execution_id, **kwargs)`. */
    method UpdateExecution(kind: string, id: Option<int>, p: Patch)
      requires Valid()
      modifies this
      ensures Valid()
      ensures Snapshot() == UpdateSpec(old(Snapshot()), kind, id, p)
    {
      if kind == "rule" && Truthy(id) {
        rules := Touch(rules, id.value, p);
      }
      if kind == "check" && Truthy(id) {
        checks := Touch(checks, id.value, p);
      }
    }

    /** `setup(check, context)`. */
    method Setup()
      requires Valid()
      modifies this
      ensures Valid()
      ensures Snapshot() == SetupSpec(old(Snapshot()))
    {
      if checkModel.None? {
        return;
      }
      var id := checks.next;
      checks := checks.Insert(ExecutionRow(checkModel.value, Running, None, None, None, None)).0;
      checkExecutionModel := Some(id);
    }

    /** `before(check, context)`. */
    method Before() returns (outcome: Outcome)
      requires Valid()
      modifies this
      ensures Valid()
      ensures Effect(Snapshot(), outcome) == BeforeSpec(old(Snapshot()), foreign)
    {
      if context.params.None? {
        return Raised(KeyError("params"));
      }
      var params := context.params.value;
      if context.ruleModel.None? {
        return Completed;
      }
      var id := rules.next;
      rules := rules.Insert(ExecutionRow(context.ruleModel.value, Running, Some(foreign.dumps(params)), None, None, None)).0;
      var ruleOutput := nextBuffer;
      buffers := buffers[ruleOutput := ""];
      nextBuffer := nextBuffer + 1;
      context := context.(output := Some(ruleOutput));
      stdout := Buffer(ruleOutput);
      context := context.(execId := Some(id as int));
      outcome := Completed;
    }

    /** `on_success(check, context)`. */
    method OnSuccess()
      requires Valid()
      modifies this
      ensures Valid()
      ensures Snapshot() == OnSuccessSpec(old(Snapshot()))
    {
      if context.execId.None? {
        return;
      }
      UpdateExecution("rule", context.execId, Patch(Some(Success), None, Some(""), None, None));
    }

    /** `on_failure(check, context)`. */
    method OnFailure() returns (outcome: Outcome)
      requires Valid()
      modifies this
      ensures Valid()
      ensures Effect(Snapshot(), outcome) == OnFailureSpec(old(Snapshot()), foreign)
    {
      if context.execId.None? {
        return Completed;
      }
      var execId := context.execId;
      if context.exception.None? {
        return Raised(KeyError("exception"));
      }
      var exception := context.exception.value;
      UpdateExecution("rule", execId, FailurePatch(exception, foreign));
      if checkExecutionModel.Some? {
        UpdateExecution("check", Some(checkExecutionModel.value as int), StatusPatch(Failure));
      }
      outcome := Completed;
    }

    /** `after(check, context)`. */
    method After() returns (outcome: Outcome)
      requires Valid()
      modifies this
      ensures Valid()
      ensures Effect(Snapshot(), outcome) == AfterSpec(old(Snapshot()), foreign)
    {
      if context.execId.None? {
        stdout := Real;
        return Completed;
      }
      var logs := "";
      var execId := context.execId;
      if context.params.None? {
        return Raised(KeyError("params"));
      }
      var params := context.params.value;
      if Truthy(execId) {
        if context.output.None? {
          return Raised(KeyError("output"));
        }
        logs := Get(buffers, context.output.value, "");
        stdout := Real;
        if Strip(logs) != "" {
          console := console + logs + "\n";
        }
      }
      UpdateExecution("rule", execId, Patch(None, Some(foreign.dumps(params)), Some(logs), None, None));
      outcome := Completed;
    }

    /** `teardown(check, context)`. */
    method Teardown()
      requires Valid()
      modifies this
      ensures Valid()
      ensures Snapshot() == TeardownSpec(old(Snapshot()))
    {
      if checkExecutionModel.Some? {
        checks := Touch(checks, checkExecutionModel.value as int, StatusPatch(Success));
      }
    }

    /** The running rule prints `text`. */
    method Write(text: string)
      requires Valid()
      modifies this
      ensures Valid()
      ensures Snapshot() == WriteSpec(old(Snapshot()), text)
    {
      match stdout
      case Real =>
        console := console + text;
      case Buffer(b) =>
        buffers := buffers[b := Get(buffers, b, "") + text];
    }
  }
}
