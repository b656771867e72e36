/**
 Values shared by both suite runners and the execution recorder of the
 data-checks framework: the exceptions the orchestration code can see, the
 outcome of a call into a collaborator, check instances, the lifecycle trace,
 and the abstract id-to-row stores that stand for the database managers.
 */
module Lifecycle {

  type Tag = string

  datatype Option<T> = None | Some(value: T)

  /**
   The exceptions the orchestration code raises or forwards. The first three
   are `Exception` subclasses; `BaseExn` is a `BaseException` that is not one
   (KeyboardInterrupt, SystemExit, asyncio.CancelledError), which no
   `except Exception` clause catches.
   */
  datatype Exn =
    | KeyError(key: string)          // a dict lookup of a missing key
    | AttributeError(name: string)   // an instance attribute that was never set
    | UserError(message: string)     // an Exception raised by user code or a collaborator
    | BaseExn(name: string)          // a BaseException outside Exception
  {
    /** `except Exception` catches it. */
    predicate IsException() {
      !BaseExn?
    }
  }

  /** A call that returns a value or raises. */
  datatype Result<T> = Ok(value: T) | Err(error: Exn)

  /** A call that returns nothing or raises. */
  datatype Outcome = Completed | Raised(error: Exn)

  /** The status column of every execution row: "running", "success", "failure". */
  datatype Status = Running | Success | Failure

  /** An opaque handle on the user's dataset object. */
  datatype Dataset = Dataset(handle: nat)

  /** One parameter set of a rule: positional and keyword arguments. */
  datatype Params = Params(args: seq<string>, kwargs: map<string, string>)

  /** Per-rule parameter overrides of a check (rule name to its parameter sets). */
  type RulesParams = map<string, seq<Params>>

  /** Per-rule outcomes a check accumulates while it runs. */
  type Metadata = map<string, string>

  /** A check instance, as far as the suite runners look into it. */
  datatype Check = Check(
    name: string,
    tags: set<Tag>,
    metadata: Metadata,
    rulesParams: RulesParams,
    shouldScheduleRuns: bool)

  /**
   What the suite's on_failure hook does with the exception it is given:
   the source's default re-raises it; a subclass may override the hook so
   that it returns normally.
   */
  datatype FailurePolicy = Reraise | Swallow

  /**
   The check's own behaviour, which the suite runners only call:
   `runAll(i, c, ruleTags)` is Check.run_all and `update(i, c)` is
   Check._update_from_suite_internals, each for the check at index `i` of
   the episode's selected checks; each returns or raises. The index lets the
   same check listed twice behave differently each time, and lets a check
   react to what it was handed, which is itself a function of its index.
   */
  datatype Oracles = Oracles(
    runAll: (nat, Check, Option<set<Tag>>) -> Outcome,
    update: (nat, Check) -> Outcome)

  /**
   One entry of a suite episode's lifecycle trace. `Before` is the call that
   pushes the suite's shared context (payload P) into the check.
   */
  datatype Event<P> =
    | Setup
    | Progress(index: nat, total: nat, check: string)
    | Before(check: string, pushed: P)
    | RunAll(check: string, ruleTags: Option<set<Tag>>)
    | OnSuccess(check: string)
    | OnFailure(check: string, error: Exn)
    | After(check: string)
    | Teardown

  /** The calls whose occurrences in a trace are counted. */
  datatype Hook = ProgressLine | BeforeCall | AfterCall

  predicate IsHook<P>(e: Event<P>, h: Hook) {
    match h
    case ProgressLine => e.Progress?
    case BeforeCall => e.Before?
    case AfterCall => e.After?
  }

  /** How many events of the trace are calls of `h`. */
  function HookCount<P>(t: seq<Event<P>>, h: Hook): (n: nat)
    ensures n <= |t|
  {
    if t == [] then 0
    else (if IsHook(t[0], h) then 1 else 0) + HookCount(t[1..], h)
  }

  lemma HookCountSingle<P>(e: Event<P>, h: Hook)
    ensures HookCount([e], h) == if IsHook(e, h) then 1 else 0
  {
    assert [e][1..] == [];
  }

  /** A trace without calls of `h` counts none, and conversely. */
  lemma {:induction false} HookCountZero<P>(t: seq<Event<P>>, h: Hook)
    ensures HookCount(t, h) == 0 <==> forall e :: e in t ==> !IsHook(e, h)
  {
    if t != [] {
      HookCountZero(t[1..], h);
      assert forall e :: e in t ==> e == t[0] || e in t[1..];
    }
  }

  lemma {:induction false} HookCountAppend<P>(a: seq<Event<P>>, b: seq<Event<P>>, h: Hook)
    ensures HookCount(a + b, h) == HookCount(a, h) + HookCount(b, h)
  {
    if a != [] {
      assert (a + b)[1..] == a[1..] + b;
      HookCountAppend(a[1..], b, h);
    } else {
      assert a + b == b;
    }
  }

  lemma ConcatAssoc<T>(a: seq<T>, b: seq<T>, c: seq<T>)
    ensures a + (b + c) == (a + b) + c
  {
  }

  /**
   A trace that stops inside check k: setup, the blocks of the earlier checks,
   then the partial block of check k. It holds no teardown, no progress line
   past k + 1, and it ends as the partial block does.
   */
  lemma StoppedTrace<P>(blocks: seq<Event<P>>, fail: seq<Event<P>>, k: nat)
    requires |fail| > 0
    requires forall e :: e in blocks ==> !e.Teardown? && (e.Progress? ==> e.index <= k)
    requires forall e :: e in fail ==> !e.Teardown? && (e.Progress? ==> e.index == k + 1)
    ensures var t := [Event.Setup] + blocks + fail;
      && Teardown !in t
      && (forall e :: e in t && e.Progress? ==> e.index <= k + 1)
      && t[|t| - 1] == fail[|fail| - 1]
  {
    var t := [Event.Setup] + blocks + fail;
    assert forall e :: e in t ==> e == Event.Setup || e in blocks || e in fail;
  }

  /**
   An abstract table: rows by id, and the id the next created row gets.
   Ids start at 1, like an auto-increment primary key, so every id a store
   hands out is truthy.
   */
  datatype Store<R> = Store(rows: map<nat, R>, next: nat) {

    ghost predicate Valid() {
      next >= 1 && forall id :: id in rows ==> 1 <= id < next
    }

    /** Creates a row; returns the new table and the new row's id. */
    function Insert(row: R): (r: (Store<R>, nat))
      ensures r.0.next == r.1 + 1
      ensures r.1 in r.0.rows && r.0.rows[r.1] == row
      ensures r.0.rows.Keys == rows.Keys + {r.1}
      ensures Valid() ==> r.1 >= 1 && r.1 !in rows && r.0.Valid()
      ensures Valid() ==> forall id :: id in rows ==> r.0.rows[id] == rows[id]
    {
      (Store(rows[next := row], next + 1), next)
    }

    /** Rewrites the row `id` with `f`; an id that names no row changes nothing. */
    function Modify(id: nat, f: R -> R): (r: Store<R>)
      ensures r.next == next && r.rows.Keys == rows.Keys
      ensures id in rows ==> r.rows[id] == f(rows[id])
      ensures forall k :: k in rows && k != id ==> r.rows[k] == rows[k]
      ensures id !in rows ==> r == this
      ensures Valid() ==> r.Valid()
    {
      if id in rows then Store(rows[id := f(rows[id])], next) else this
    }
  }

  function EmptyStore<R>(): (s: Store<R>)
    ensures s.Valid() && s.rows == map[]
  {
    Store(map[], 1)
  }

  function Get<K, V>(m: map<K, V>, k: K, default: V): (v: V)
    ensures k in m ==> v == m[k]
    ensures k !in m ==> v == default
  {
    if k in m then m[k] else default
  }

  /** `set(tags).intersection(check.tags)` is non-empty. */
  predicate HasAnyTag(c: Check, tags: set<Tag>) {
    tags * c.tags != {}
  }

  /** The order-preserving sublist of the checks that carry one of `tags`. */
  function WithTags(checks: seq<Check>, tags: set<Tag>): (r: seq<Check>)
    ensures |r| <= |checks|
    ensures forall c :: c in r <==> c in checks && HasAnyTag(c, tags)
  {
    if checks == [] then []
    else (if HasAnyTag(checks[0], tags) then [checks[0]] else []) + WithTags(checks[1..], tags)
  }

  /** The filter distributes over concatenation, so it keeps the source order. */
  lemma {:induction false} WithTagsAppend(a: seq<Check>, b: seq<Check>, tags: set<Tag>)
    ensures WithTags(a + b, tags) == WithTags(a, tags) + WithTags(b, tags)
  {
    if a != [] {
      assert (a + b)[1..] == a[1..] + b;
      WithTagsAppend(a[1..], b, tags);
    } else {
      assert a + b == b;
    }
  }

  /** When every check carries one of the wanted tags, the filter returns the list unchanged. */
  lemma {:induction false} WithTagsAllMatch(checks: seq<Check>, tags: set<Tag>)
    requires forall i :: 0 <= i < |checks| ==> HasAnyTag(checks[i], tags)
    ensures WithTags(checks, tags) == checks
  {
    if checks != [] {
      WithTagsAllMatch(checks[1..], tags);
    }
  }

  /** `get_checks_with_tags`: no tags means every check, otherwise the tag filter. */
  function SelectChecks(checks: seq<Check>, tags: Option<set<Tag>>): (r: seq<Check>)
    ensures tags.None? ==> r == checks
    ensures tags.Some? ==> forall c :: c in r <==> c in checks && HasAnyTag(c, tags.value)
    ensures tags == Some({}) ==> r == []
  {
    if tags.None? then checks
    else
      var r := WithTags(checks, tags.value);
      assert |r| > 0 ==> r[0] in r;
      r
  }

  /** `check_rule_tags.get(name, None)`: the rule-tag filter handed to a check. */
  function RuleTagsFor(checkRuleTags: map<string, set<Tag>>, name: string): (r: Option<set<Tag>>)
    ensures name in checkRuleTags <==> r.Some?
    ensures r.Some? ==> r.value == checkRuleTags[name]
  {
    if name in checkRuleTags then Some(checkRuleTags[name]) else None
  }

  /**
   `get_all_metadata`'s dictionary: each check's name to a copy of its
   metadata, filled in list order, so a later check overwrites an earlier one
   with the same name.
   */
  function MetadataByName(checks: seq<Check>): (m: map<string, Metadata>)
    ensures m.Keys == set c | c in checks :: c.name
  {
    if checks == [] then map[]
    else
      var last := checks[|checks| - 1];
      MetadataByName(checks[..|checks| - 1])[last.name := last.metadata]
  }

  /** The value stored under a name is the metadata of the last check with that name. */
  lemma {:induction false} MetadataLastWins(checks: seq<Check>, i: nat)
    requires i < |checks|
    requires forall j :: i < j < |checks| ==> checks[j].name != checks[i].name
    ensures checks[i].name in MetadataByName(checks)
    ensures MetadataByName(checks)[checks[i].name] == checks[i].metadata
  {
    if i < |checks| - 1 {
      var init := checks[..|checks| - 1];
      assert forall j :: i < j < |init| ==> init[j] == checks[j];
      MetadataLastWins(init, i);
    }
  }
}
