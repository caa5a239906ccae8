/**
 * A model bound to one collection: its options, its hook lists and the
 * pending document buffer that `Set` fills and `Save` flushes. Every
 * operation is a fixed sequence of steps that stops at the first error; the
 * steps a model performs are recorded in its `trace`.
 */
module Model {
  import opened Values
  import opened Strings
  import Sanitize
  import Hooks
  import opened TypeCache
  import opened Driver

  /** ModelOptions, with the strict-filter switch the model's sanitizer consults. */
  datatype ModelOptions = ModelOptions(timestamp: bool, id: bool, validation: bool, strictFilters: bool)

  /** NewModel: all three switches on when no options are given, else the merge of the given ones. */
  function NewModelOptions(opts: seq<ModelOptions>, merge: seq<ModelOptions> -> ModelOptions): (o: ModelOptions)
    ensures |opts| == 0 ==> o.id && o.timestamp && o.validation && !o.strictFilters
    ensures |opts| > 0 ==> o == merge(opts)
  {
    if |opts| == 0 then ModelOptions(timestamp := true, id := true, validation := true, strictFilters := false)
    else merge(opts)
  }

  /**
   * What the world answers during one operation: the clock (one instant per
   * operation), fresh ObjectIDs (the one for field `i` of input `k`), hex
   * parsing, BSON marshalling, the struct validator and the collection.
   */
  datatype Env = Env(
    now: Timestamp,
    newId: (nat, nat) -> ObjectId,
    fromHex: string -> Result<ObjectId>,
    marshal: Value -> Result<Doc>,
    validate: seq<Value> -> Option<Error>,
    store: Call -> Result<Reply>)

  /** ToDoc: nil becomes the empty document; anything else goes through BSON marshalling. */
  function ToDoc(env: Env, v: Value): (r: Result<Doc>)
    ensures v == Nil ==> r == Ok([])
    ensures v != Nil ==> r == env.marshal(v)
  {
    if v == Nil then Ok([]) else env.marshal(v)
  }

  /** The model's own filter check: nothing unless strict filters are on, then the sanitizer. */
  function StrictCheck(options: ModelOptions, filter: Value): (r: Option<Error>)
    ensures !options.strictFilters ==> r == None
    ensures options.strictFilters ==> (r.Some? <==> Sanitize.ContainsDangerousKey(filter))
    ensures r.Some? ==> r.value.DangerousOperator? && Sanitize.IsDangerousOperator(r.value.operator)
  {
    if options.strictFilters then Sanitize.SanitizeFilter(filter) else None
  }

  /**
   * getQueryId: `{_id: id}`. With the ID option on, a string must parse as a
   * hex ObjectID and any type other than string or ObjectID is refused.
   */
  function GetQueryId(options: ModelOptions, env: Env, id: Value): (r: Result<Doc>)
    ensures r.Ok? ==> |r.value| == 1 && r.value[0].0 == "_id"
    ensures options.id && r.Ok? ==> r.value[0].1.Oid?
    ensures options.id && id.Oid? ==> r == Ok([("_id", id)])
    ensures options.id && id.Str? ==> (r.Err? <==> env.fromHex(id.s).Err?)
    ensures options.id && id.Str? && env.fromHex(id.s).Err? ==> r == Err(env.fromHex(id.s).error)
    ensures options.id && id.Str? && env.fromHex(id.s).Ok? ==> r == Ok([("_id", Oid(env.fromHex(id.s).value))])
    ensures options.id && !id.Str? && !id.Oid? ==> r == Err(UnsupportedIdType(id))
    ensures !options.id ==> r.Ok? && r.value[0].1 == id
  {
    if options.id then
      match id
      case Str(s) =>
        (match env.fromHex(s)
         case Err(e) => Err(e)
         case Ok(oid) => Ok([("_id", Oid(oid))]))
      case Oid(_) => Ok([("_id", id)])
      case _ => Err(UnsupportedIdType(id))
    else Ok([("_id", id)])
  }

  /** With the ID option on, an id query never trips the sanitizer. */
  lemma GetQueryIdIsSafe(options: ModelOptions, env: Env, id: Value)
    requires options.id && GetQueryId(options, env, id).Ok?
    ensures Sanitize.SanitizeFilter(Map(GetQueryId(options, env, id).value)) == None
  {
    var q := Map(GetQueryId(options, env, id).value);
    assert "_id"[0] != '$';
    assert Sanitize.SanitizeValue(q.entries[0].1) == None;
    assert Sanitize.SanitizeMap(q, 1) == None;
  }

  // ----- steps -----

  /** One observable step of an operation. */
  datatype Step =
    | PreHook(name: string, params: seq<Param>)    // a pre-hook dispatch
    | PostHook(name: string, params: seq<Param>)   // a post-hook dispatch
    | CheckFilter(filter: Value)                   // the model's filter check
    | Convert(filter: Value)                       // ToDoc on a filter
    | Validator(row: seq<Value>)                   // the struct validator
    | Store(call: Call)                            // a call on the collection
    | DrainCursor(call: Call)                      // reading the cursor `call` opened

  /** What a step depends on: the model's options and hooks and the world. */
  datatype Ctx = Ctx(options: ModelOptions, preHooks: seq<Hooks.Hook>, postHooks: seq<Hooks.Hook>, env: Env)

  function ErrorOf<T>(r: Result<T>): Option<Error> {
    if r.Err? then Some(r.error) else None
  }

  /** The error a step ends with, if any. */
  function StepError(ctx: Ctx, s: Step): Option<Error> {
    match s
    case PreHook(name, params) => Hooks.Execute(ctx.preHooks, name, params).result
    case PostHook(name, params) => Hooks.Execute(ctx.postHooks, name, params).result
    case CheckFilter(filter) => StrictCheck(ctx.options, filter)
    case Convert(filter) => ErrorOf(ToDoc(ctx.env, filter))
    case Validator(row) => ctx.env.validate(row)
    case Store(call) => ErrorOf(ctx.env.store(call))
    case DrainCursor(call) => DrainError(CursorOf(ctx.env.store(call)))
  }

  /** The cursor a call opened; a reply that is no cursor reads as an empty one. */
  function CursorOf(r: Result<Reply>): Cursor {
    if r.Ok? && r.value.Opened? then r.value.cursor else Cursor([], None)
  }

  /** The write result a call returned, handed to post-hooks. */
  function TokenOf(r: Result<Reply>): nat {
    if r.Ok? && r.value.Written? then r.value.token else 0
  }

  /** The steps performed and the error returned. */
  datatype Outcome = Outcome(done: seq<Step>, error: Option<Error>)

  /** Performing `plan` up to and including its first failing step. */
  function Run(ctx: Ctx, plan: seq<Step>): Outcome {
    if plan == [] then Outcome([], None)
    else
      var e := StepError(ctx, plan[0]);
      if e.Some? then Outcome([plan[0]], e)
      else
        var rest := Run(ctx, plan[1..]);
        Outcome([plan[0]] + rest.done, rest.error)
  }

  /**
   * Fail-fast: the steps performed are a prefix of the plan; every step
   * before the last succeeded; the result is the last step's error, or the
   * whole plan ran and nothing failed.
   */
  lemma {:induction false} RunSpec(ctx: Ctx, plan: seq<Step>)
    ensures var o := Run(ctx, plan);
      && |o.done| <= |plan| && o.done == plan[..|o.done|]
      && (forall j :: 0 <= j < |o.done| - 1 ==> StepError(ctx, o.done[j]).None?)
      && (o.error.None? <==> o.done == plan && forall j :: 0 <= j < |plan| ==> StepError(ctx, plan[j]).None?)
      && (o.error.Some? ==> |o.done| > 0 && o.error == StepError(ctx, o.done[|o.done| - 1]))
  {
    if plan != [] && StepError(ctx, plan[0]).None? {
      RunSpec(ctx, plan[1..]);
      var o := Run(ctx, plan[1..]);
      assert plan == [plan[0]] + plan[1..];
      assert ([plan[0]] + o.done)[1..] == o.done;
      if o.error.None? {
        forall j | 0 <= j < |plan| ensures StepError(ctx, plan[j]).None? {
          if j > 0 {
            assert plan[j] == plan[1..][j - 1];
          }
        }
      }
    }
  }

  /** A run that ends without error has performed the whole plan. */
  lemma RunDone(ctx: Ctx, plan: seq<Step>)
    ensures Run(ctx, plan).error.None? ==> Run(ctx, plan).done == plan
  {
    RunSpec(ctx, plan);
  }

  /** A plan whose steps all succeed runs to the end without error. */
  lemma {:induction false} RunCompletes(ctx: Ctx, plan: seq<Step>)
    requires forall j :: 0 <= j < |plan| ==> StepError(ctx, plan[j]).None?
    ensures Run(ctx, plan) == Outcome(plan, None)
  {
    if plan != [] {
      assert StepError(ctx, plan[0]).None?;
      assert forall j :: 0 <= j < |plan| - 1 ==> plan[1..][j] == plan[j + 1];
      RunCompletes(ctx, plan[1..]);
      assert [plan[0]] + plan[1..] == plan;
    }
  }

  /** A plan stops at its first failing step and returns that step's error. */
  lemma {:induction false} RunStopsAt(ctx: Ctx, plan: seq<Step>, k: nat)
    requires k < |plan| && StepError(ctx, plan[k]).Some?
    requires forall j :: 0 <= j < k ==> StepError(ctx, plan[j]).None?
    ensures Run(ctx, plan) == Outcome(plan[..k + 1], StepError(ctx, plan[k]))
  {
    if k > 0 {
      assert StepError(ctx, plan[0]).None?;
      assert forall j :: 0 <= j < |plan| - 1 ==> plan[1..][j] == plan[j + 1];
      RunStopsAt(ctx, plan[1..], k - 1);
      assert [plan[0]] + plan[1..][..k] == plan[..k + 1];
    }
  }

  /** Running two plans back to back is running the first and, if it succeeded, the second. */
  lemma {:induction false} RunAppend(ctx: Ctx, p: seq<Step>, q: seq<Step>)
    ensures Run(ctx, p + q) ==
      if Run(ctx, p).error.Some? then Run(ctx, p)
      else Outcome(p + Run(ctx, q).done, Run(ctx, q).error)
  {
    if p == [] {
      assert p + q == q;
    } else {
      assert (p + q)[0] == p[0] && (p + q)[1..] == p[1..] + q;
      RunAppend(ctx, p[1..], q);
      RunSpec(ctx, p[1..]);
      if Run(ctx, p).error.None? {
        Assoc([p[0]], p[1..], Run(ctx, q).done);
        assert [p[0]] + p[1..] == p;
      }
    }
  }

  /**
   * Performing the next step of a plan: the run stops there if it fails and
   * goes on with the rest of the plan if it succeeds.
   */
  lemma Next(ctx: Ctx, plan: seq<Step>, s: Step)
    requires plan != [] && plan[0] == s
    ensures Run(ctx, plan) ==
      if StepError(ctx, s).Some? then Outcome([s], StepError(ctx, s))
      else Outcome([s] + Run(ctx, plan[1..]).done, Run(ctx, plan[1..]).error)
  {
  }

  /** Three plans back to back: each runs only when every one before it succeeded. */
  lemma RunThree(ctx: Ctx, a: seq<Step>, b: seq<Step>, c: seq<Step>)
    ensures Run(ctx, a + b + c) ==
      if Run(ctx, a).error.Some? then Run(ctx, a)
      else if Run(ctx, b).error.Some? then Outcome(a + Run(ctx, b).done, Run(ctx, b).error)
      else Outcome(a + b + Run(ctx, c).done, Run(ctx, c).error)
  {
    RunAppend(ctx, a + b, c);
    RunAppend(ctx, a, b);
    RunDone(ctx, b);
  }

  /** Concatenation is associative: a trace extended twice is the trace extended once by both parts. */
  lemma Assoc<T>(a: seq<T>, b: seq<T>, c: seq<T>)
    ensures a + (b + c) == a + b + c
  {
  }

  /** The steps every filtered operation starts with. */
  function GuardPlan(name: string, params: seq<Param>, filter: Value): seq<Step> {
    [PreHook(name, params), CheckFilter(filter), Convert(filter)]
  }

  /** The filter converted to a query document; only used once the conversion has succeeded. */
  function QueryOf(env: Env, filter: Value): Doc {
    match ToDoc(env, filter)
    case Ok(q) => q
    case Err(_) => []
  }

  /** What a post-hook after a write receives: the write result, or nothing. */
  function PostParams(env: Env, call: Call, withResult: bool): seq<Param> {
    if withResult then [Reply(TokenOf(env.store(call)))] else []
  }

  /** The steps every write ends with: the call on the collection, then the post-hook. */
  function FinishPlan(env: Env, call: Call, name: string, withResult: bool): seq<Step> {
    [Store(call), PostHook(name, PostParams(env, call, withResult))]
  }

  /** The steps of a read through a cursor: the call that opens it, then draining it. */
  function FetchPlan(call: Call): seq<Step> {
    [Store(call), DrainCursor(call)]
  }

  // ----- Go's FieldByName -----

  function Depth(f: FieldInfo): nat {
    |f.indexPath|
  }

  /** The result of scanning for a name: nothing yet, or the earliest shallowest match and whether it is tied. */
  datatype Pick = NoField | Pick(index: nat, tied: bool)

  function ScanName(fs: seq<FieldInfo>, name: string, n: nat): (p: Pick)
    requires n <= |fs|
    ensures p.NoField? <==> forall j :: 0 <= j < n ==> fs[j].name != name
    ensures p.Pick? ==> p.index < n && fs[p.index].name == name
    ensures p.Pick? ==> forall j :: 0 <= j < n && fs[j].name == name ==> Depth(fs[j]) >= Depth(fs[p.index])
    ensures p.Pick? ==> (p.tied <==> exists j :: 0 <= j < n && j != p.index && fs[j].name == name && Depth(fs[j]) == Depth(fs[p.index]))
  {
    if n == 0 then NoField
    else
      var p := ScanName(fs, name, n - 1);
      var f := fs[n - 1];
      if f.name != name then p
      else if p.NoField? then Pick(n - 1, false)
      else if Depth(f) < Depth(fs[p.index]) then Pick(n - 1, false)
      else if Depth(f) == Depth(fs[p.index]) then Pick(p.index, true)
      else p
  }

  /**
   * reflect's FieldByName over the flattened fields: the match at the
   * shallowest depth, provided it is the only one there.
   */
  function FieldByName(t: EntityType, name: string): (r: Option<FieldInfo>)
    ensures var fs := Collect(t);
      r.Some? ==> exists i :: 0 <= i < |fs| && fs[i] == r.value && fs[i].name == name &&
                    forall j :: 0 <= j < |fs| && j != i && fs[j].name == name ==> Depth(fs[j]) > Depth(fs[i])
    ensures var fs := Collect(t);
      (exists i :: 0 <= i < |fs| && fs[i].name == name &&
         forall j :: 0 <= j < |fs| && j != i && fs[j].name == name ==> Depth(fs[j]) > Depth(fs[i])) ==> r.Some?
  {
    var fs := Collect(t);
    match ScanName(fs, name, |fs|)
    case Pick(i, false) => Some(fs[i])
    case _ => None
  }

  /** What `Set` appends for one input field. */
  function Assignment(t: EntityType, field: (string, Value)): Doc {
    if field.1 == Nil then []
    else match FieldByName(t, field.0)
      case None => []
      case Some(f) => [(f.bsonTag, DynamicValue(field.1))]
  }

  /** What `Set` appends for a sequence of input fields. */
  function Assigned(t: EntityType, input: seq<(string, Value)>): Doc {
    if input == [] then [] else Assigned(t, input[..|input| - 1]) + Assignment(t, input[|input| - 1])
  }

  /** Input fields contribute in input order: the entries for `a + b` are those for `a`, then those for `b`. */
  lemma {:induction false} AssignedAppend(t: EntityType, a: seq<(string, Value)>, b: seq<(string, Value)>)
    ensures Assigned(t, a + b) == Assigned(t, a) + Assigned(t, b)
    decreases |b|
  {
    if b == [] {
      assert a + b == a;
    } else {
      var b' := b[..|b| - 1];
      assert (a + b)[..|a + b| - 1] == a + b';
      assert (a + b)[|a + b| - 1] == b[|b| - 1];
      AssignedAppend(t, a, b');
    }
  }

  /**
   * One input field adds one entry, keyed by the bson tag of the entity field
   * Go's lookup finds under its name, exactly when its value is not nil and
   * the lookup succeeds.
   */
  lemma AssignedOne(t: EntityType, name: string, v: Value)
    ensures |Assigned(t, [(name, v)])| <= 1
    ensures |Assigned(t, [(name, v)])| == 1 <==> v != Nil && FieldByName(t, name).Some?
    ensures |Assigned(t, [(name, v)])| == 1 ==> Assigned(t, [(name, v)])[0] == (FieldByName(t, name).value.bsonTag, DynamicValue(v))
  {
    assert [(name, v)][..0] == [];
  }

  /** An entity field without a bson tag keys its entry with the empty string, not with its Go name. */
  lemma UntaggedFieldKeyedEmpty(t: EntityType, name: string, v: Value)
    requires v != Nil && FieldByName(t, name).Some? && FieldByName(t, name).value.bsonTag == ""
    ensures Assigned(t, [(name, v)]) == [("", DynamicValue(v))]
  {
    AssignedOne(t, name, v);
  }

  // ----- Save -----

  /** slices.IndexFunc(docs, key == "_id") */
  function IndexOfId(docs: Doc): (r: Option<nat>)
    ensures r.Some? ==> r.value < |docs| && docs[r.value].0 == "_id"
    ensures forall j :: 0 <= j < |docs| && (r.None? || j < r.value) ==> docs[j].0 != "_id"
  {
    if docs == [] then None
    else if docs[0].0 == "_id" then Some(0)
    else match IndexOfId(docs[1..])
      case None => None
      case Some(j) => Some(j + 1)
  }

  function Without(docs: Doc, k: nat): Doc
    requires k < |docs|
  {
    docs[..k] + docs[k + 1..]
  }

  /** The list Save inserts when the buffer has no `_id`. */
  function SaveInserts(options: ModelOptions, env: Env, docs: Doc): Doc {
    if options.timestamp then docs + [("createdAt", Time(env.now)), ("updatedAt", Time(env.now))]
    else if options.id then docs + [("_id", Oid(env.newId(0, 0)))]
    else docs
  }

  /** The list Save sends under `$set` when the buffer's first `_id` entry is at `k`. */
  function SaveUpdates(options: ModelOptions, env: Env, docs: Doc, k: nat): Doc
    requires k < |docs|
  {
    Without(docs, k) + (if options.timestamp then [("updatedAt", Time(env.now))] else [])
  }

  /** The store call Save makes for a non-empty buffer. */
  function SaveCall(options: ModelOptions, env: Env, docs: Doc): Call {
    match IndexOfId(docs)
    case None => InsertDoc(SaveInserts(options, env, docs))
    case Some(k) => UpdateById(docs[k].1, SetDoc(SaveUpdates(options, env, docs, k)))
  }

  /**
   * The buffer once Save has built its update list. Removing `_id` shifts
   * the buffer's own backing array, so the buffer keeps its length: its last
   * slot still holds the old last entry, or `updatedAt` when the timestamp
   * is appended into that slot. An insert leaves the buffer as it was.
   */
  function BufferAfterSave(options: ModelOptions, env: Env, docs: Doc): Doc {
    match IndexOfId(docs)
    case None => docs
    case Some(k) =>
      if options.timestamp then SaveUpdates(options, env, docs, k)
      else Without(docs, k) + [docs[|docs| - 1]]
  }

  /** Save's steps: the pre-hook, and for a non-empty buffer the store call and the post-hook. */
  function SavePlan(options: ModelOptions, env: Env, docs: Doc): seq<Step> {
    [PreHook(Hooks.Save, [Elems(docs)])] +
    if docs == [] then []
    else [Store(SaveCall(options, env, docs)), PostHook(Hooks.Save, [Elems(BufferAfterSave(options, env, docs))])]
  }

  /**
   * With the Timestamp option on, an inserted buffer gets `createdAt` and
   * `updatedAt` and the freshly generated `_id` is dropped; with only the ID
   * option on, it gets a fresh `_id`.
   */
  lemma SaveInsertEntries(options: ModelOptions, env: Env, docs: Doc)
    requires docs != [] && IndexOfId(docs).None?
    ensures SaveCall(options, env, docs).InsertDoc?
    ensures var ins := SaveCall(options, env, docs).doc;
      && ins[..|docs|] == docs
      && (options.timestamp ==> |ins| == |docs| + 2 && forall j :: 0 <= j < |ins| ==> ins[j].0 != "_id")
      && (!options.timestamp && options.id ==> ins == docs + [("_id", Oid(env.newId(0, 0)))])
      && (!options.timestamp && !options.id ==> ins == docs)
  {
  }

  /**
   * An update sends everything in the buffer except its first `_id` entry
   * (and `updatedAt` when the Timestamp option is on), keyed by that entry's value.
   */
  lemma SaveUpdateEntries(options: ModelOptions, env: Env, docs: Doc)
    requires IndexOfId(docs).Some?
    ensures var k := IndexOfId(docs).value;
      && SaveCall(options, env, docs) == UpdateById(docs[k].1, SetDoc(SaveUpdates(options, env, docs, k)))
      && multiset(SaveUpdates(options, env, docs, k)) + multiset{docs[k]} ==
           multiset(docs) + (if options.timestamp then multiset{("updatedAt", Time(env.now))} else multiset{})
  {
    var k := IndexOfId(docs).value;
    var before, after := docs[..k], docs[k + 1..];
    var stamp: Doc := if options.timestamp then [("updatedAt", Time(env.now))] else [];
    assert docs == before + [docs[k]] + after;
    assert multiset(docs) == multiset(before) + multiset{docs[k]} + multiset(after);
    assert SaveUpdates(options, env, docs, k) == before + after + stamp;
    assert multiset(SaveUpdates(options, env, docs, k)) == multiset(before) + multiset(after) + multiset(stamp);
  }

  /**
   * When the buffer's only `_id` entry is not its last entry, the buffer left
   * behind by an update that fails has lost its `_id`, so calling Save again
   * would insert rather than update.
   */
  lemma FailedUpdateLosesId(options: ModelOptions, env: Env, docs: Doc)
    requires IndexOfId(docs).Some? && IndexOfId(docs).value < |docs| - 1
    requires forall j :: 0 <= j < |docs| && j != IndexOfId(docs).value ==> docs[j].0 != "_id"
    ensures |BufferAfterSave(options, env, docs)| == |docs|
    ensures IndexOfId(BufferAfterSave(options, env, docs)).None?
  {
    var k := IndexOfId(docs).value;
    var b := BufferAfterSave(options, env, docs);
    forall j | 0 <= j < |b| ensures b[j].0 != "_id" {
      if j < k {
        assert b[j] == docs[j];
      } else if j < |docs| - 1 {
        assert b[j] == docs[j + 1];
      }
    }
  }

  // ----- Pre / Post -----

  /** The hooks Pre and Post append: one per name, each with the same function and flag. */
  function Registered(names: seq<string>, fn: Hooks.HookFn, isAsync: bool): (hs: seq<Hooks.Hook>)
    ensures |hs| == |names|
    ensures forall i :: 0 <= i < |names| ==> hs[i].name == names[i] && hs[i].fn == fn && hs[i].isAsync == isAsync
  {
    seq(|names|, i requires 0 <= i < |names| => Hooks.Hook(names[i], fn, isAsync))
  }

  /** The optional `async` argument: false when absent, else its first value. */
  function AsyncFlag(async: seq<bool>): bool {
    if |async| == 0 then false else async[0]
  }

  function NamesOf(hs: seq<Hooks.Hook>): (names: seq<string>)
    ensures |names| == |hs| && forall i :: 0 <= i < |hs| ==> names[i] == hs[i].name
  {
    seq(|hs|, i requires 0 <= i < |hs| => hs[i].name)
  }

  /** The names registered by one Pre/Post call, joined back with "|", give the name string. */
  lemma RegisteredNames(nameStr: string, fn: Hooks.HookFn, isAsync: bool)
    ensures |Registered(Split(nameStr, "|"), fn, isAsync)| >= 1
    ensures Join(NamesOf(Registered(Split(nameStr, "|"), fn, isAsync)), "|") == nameStr
  {
    var names := Split(nameStr, "|");
    assert NamesOf(Registered(names, fn, isAsync)) == names;
    JoinSplit(nameStr, "|");
  }

  // ----- the model -----

  class Model {
    const entity: EntityType
    const options: ModelOptions
    var docs: Doc
    var preHooks: seq<Hooks.Hook>
    var postHooks: seq<Hooks.Hook>
    ghost var trace: seq<Step>

    /** NewModel */
    constructor (entity: EntityType, opts: seq<ModelOptions>, merge: seq<ModelOptions> -> ModelOptions)
      ensures this.entity == entity && options == NewModelOptions(opts, merge)
      ensures docs == [] && preHooks == [] && postHooks == [] && trace == []
    {
      this.entity := entity;
      options := NewModelOptions(opts, merge);
      docs := [];
      preHooks := [];
      postHooks := [];
      trace := [];
    }

    function CtxOf(env: Env): Ctx
      reads this`preHooks, this`postHooks
    {
      Ctx(options, preHooks, postHooks, env)
    }

    /** ExecutePreHook: the dispatch result over the pre-hooks; neither hook list changes. */
    method ExecutePreHook(name: string, params: seq<Param>) returns (err: Option<Error>)
      modifies this`trace
      ensures err == Hooks.Execute(preHooks, name, params).result
      ensures trace == old(trace) + [PreHook(name, params)]
    {
      err := Hooks.Fire(preHooks, name, params);
      trace := trace + [PreHook(name, params)];
    }

    /** ExecutePostHook: the same dispatch over the post-hooks. */
    method ExecutePostHook(name: string, params: seq<Param>) returns (err: Option<Error>)
      modifies this`trace
      ensures err == Hooks.Execute(postHooks, name, params).result
      ensures trace == old(trace) + [PostHook(name, params)]
    {
      err := Hooks.Fire(postHooks, name, params);
      trace := trace + [PostHook(name, params)];
    }

    /** sanitizeFilter */
    method SanitizeFilter(filter: Value) returns (err: Option<Error>)
      modifies this`trace
      ensures err == StrictCheck(options, filter)
      ensures trace == old(trace) + [CheckFilter(filter)]
    {
      err := StrictCheck(options, filter);
      trace := trace + [CheckFilter(filter)];
    }

    /** ToDoc applied to a filter, as a step of an operation. */
    method ConvertFilter(filter: Value, env: Env) returns (r: Result<Doc>)
      modifies this`trace
      ensures r == ToDoc(env, filter)
      ensures trace == old(trace) + [Convert(filter)]
    {
      r := ToDoc(env, filter);
      trace := trace + [Convert(filter)];
    }

    /** validator.Scanner */
    method RunValidator(row: seq<Value>, env: Env) returns (err: Option<Error>)
      modifies this`trace
      ensures err == env.validate(row)
      ensures trace == old(trace) + [Validator(row)]
    {
      err := env.validate(row);
      trace := trace + [Validator(row)];
    }

    /** A call on the collection. */
    method Call(call: Driver.Call, env: Env) returns (r: Result<Reply>)
      modifies this`trace
      ensures r == env.store(call)
      ensures trace == old(trace) + [Store(call)]
    {
      r := env.store(call);
      trace := trace + [Store(call)];
    }

    /**
     * The three steps every filtered operation starts with: its pre-hook,
     * the filter check and the conversion of the filter to a query.
     */
    method Guard(name: string, params: seq<Param>, filter: Value, env: Env) returns (query: Result<Doc>)
      modifies this`trace
      ensures var o := Run(CtxOf(env), GuardPlan(name, params, filter));
        && trace == old(trace) + o.done
        && (o.error.None? <==> query.Ok?)
        && (o.error.Some? ==> query == Err(o.error.value))
        && (query.Ok? ==> query.value == QueryOf(env, filter) && o.done == GuardPlan(name, params, filter))
    {
      ghost var ctx := CtxOf(env);
      ghost var p0 := GuardPlan(name, params, filter);
      var err := ExecutePreHook(name, params);
      Next(ctx, p0, PreHook(name, params));
      if err.Some? {
        return Err(err.value);
      }
      err := SanitizeFilter(filter);
      Next(ctx, p0[1..], CheckFilter(filter));
      if err.Some? {
        return Err(err.value);
      }
      query := ConvertFilter(filter, env);
      Next(ctx, p0[1..][1..], Convert(filter));
      assert p0[1..][1..][1..] == [];
    }

    /**
     * The two steps every write ends with: the call on the collection and,
     * if it succeeded, the post-hook, which gets the write result when
     * `withResult` holds. A post-hook error comes after the write happened.
     */
    method Finish(call: Driver.Call, name: string, withResult: bool, env: Env) returns (r: Result<Reply>, err: Option<Error>)
      modifies this`trace
      ensures var o := Run(CtxOf(env), FinishPlan(env, call, name, withResult));
        trace == old(trace) + o.done && err == o.error
      ensures r == env.store(call)
    {
      ghost var ctx := CtxOf(env);
      ghost var p0 := FinishPlan(env, call, name, withResult);
      r := Call(call, env);
      Next(ctx, p0, Store(call));
      if r.Err? {
        return r, Some(r.error);
      }
      var params := if withResult then [Reply(TokenOf(r))] else [];
      err := ExecutePostHook(name, params);
      Next(ctx, p0[1..], PostHook(name, params));
      assert p0[1..][1..] == [];
    }

    /** Draining the cursor `call` opened. */
    method ReadCursor(call: Driver.Call, env: Env) returns (data: seq<seq<Value>>, err: Option<Error>)
      modifies this`trace
      ensures data == Drained(CursorOf(env.store(call))) && err == DrainError(CursorOf(env.store(call)))
      ensures trace == old(trace) + [DrainCursor(call)]
    {
      data, err := Drain(CursorOf(env.store(call)));
      trace := trace + [DrainCursor(call)];
    }

    /**
     * A read through a cursor: the call and, if it succeeded, draining the
     * cursor. The documents collected are those decoded before the first
     * failure, also when the drain fails; a failed call collects none.
     */
    method Fetch(call: Driver.Call, env: Env) returns (data: seq<seq<Value>>, err: Option<Error>)
      modifies this`trace
      ensures var o := Run(CtxOf(env), FetchPlan(call));
        trace == old(trace) + o.done && err == o.error
      ensures data == Drained(CursorOf(env.store(call)))
      ensures env.store(call).Err? ==> data == []
    {
      ghost var ctx := CtxOf(env);
      ghost var p0 := FetchPlan(call);
      var r := Call(call, env);
      Next(ctx, p0, Store(call));
      if r.Err? {
        return [], Some(r.error);
      }
      data, err := ReadCursor(call, env);
      Next(ctx, p0[1..], DrainCursor(call));
      assert p0[1..][1..] == [];
    }

    /**
     * Set: for each input field with a non-nil value whose name Go's field
     * lookup finds on the entity, append (that entity field's bson tag, value).
     */
    method Set(input: seq<(string, Value)>)
      modifies this`docs
      ensures docs == old(docs) + Assigned(entity, input)
    {
      var i := 0;
      while i < |input|
        invariant i <= |input|
        invariant docs == old(docs) + Assigned(entity, input[..i])
      {
        var name := input[i].0;
        var val := input[i].1;
        assert input[..i + 1][..i] == input[..i] && input[..i + 1][i] == input[i];
        assert Assigned(entity, input[..i + 1]) == Assigned(entity, input[..i]) + Assignment(entity, (name, val));
        if val != Nil {
          val := DynamicValue(val);
          var field := FieldByName(entity, name);
          if field.Some? {
            docs := docs + [(field.value.bsonTag, val)];
          }
        }
        i := i + 1;
      }
      assert input[..i] == input;
    }

    /**
     * The store call Save makes for a non-empty buffer, leaving the buffer as
     * the `_id` removal and the timestamp append leave its backing array.
     */
    method PrepareSave(env: Env) returns (call: Driver.Call)
      requires docs != []
      modifies this`docs
      ensures call == SaveCall(options, env, old(docs))
      ensures docs == BufferAfterSave(options, env, old(docs))
    {
      var idIndex := IndexOfId(docs);
      if idIndex.None? {
        var inserts := docs;
        if options.id {
          inserts := docs + [("_id", Oid(env.newId(0, 0)))];
        }
        if options.timestamp {
          inserts := docs + [("createdAt", Time(env.now)), ("updatedAt", Time(env.now))];
        }
        return InsertDoc(inserts);
      }
      var k := idIndex.value;
      var id := docs[k].1;
      var last := docs[|docs| - 1];
      var updates := docs[..k] + docs[k + 1..];
      // the shift happens inside the buffer's own backing array
      docs := updates + [last];
      if options.timestamp {
        updates := updates + [("updatedAt", Time(env.now))];
        // the append writes into the buffer's last slot
        docs := updates;
      }
      assert updates == SaveUpdates(options, env, old(docs), k);
      call := UpdateById(id, SetDoc(updates));
    }

    /**
     * Save: the pre-hook on the buffer; nothing more for an empty buffer;
     * otherwise an insert (no `_id` entry) or an update by `_id`, then the
     * post-hook; the buffer is emptied only when all of it succeeded.
     */
    method Save(env: Env) returns (err: Option<Error>)
      modifies this`docs, this`trace
      ensures var o := Run(CtxOf(env), SavePlan(options, env, old(docs)));
        trace == old(trace) + o.done && err == o.error
      ensures err.None? ==> docs == []
      ensures err.Some? && StepError(CtxOf(env), PreHook(Hooks.Save, [Elems(old(docs))])).Some? ==> docs == old(docs)
      ensures err.Some? && StepError(CtxOf(env), PreHook(Hooks.Save, [Elems(old(docs))])).None? ==>
                docs == BufferAfterSave(options, env, old(docs))
    {
      ghost var ctx := CtxOf(env);
      ghost var plan := SavePlan(options, env, docs);
      ghost var start := docs;
      err := ExecutePreHook(Hooks.Save, [Elems(docs)]);
      if err.Some? {
        RunStopsAt(ctx, plan, 0);
        return;
      }
      if |docs| == 0 {
        RunCompletes(ctx, plan);
        return None;
      }
      var call := PrepareSave(env);
      assert plan[1] == Store(call);
      var r := Call(call, env);
      if r.Err? {
        RunStopsAt(ctx, plan, 1);
        return Some(r.error);
      }
      assert docs == BufferAfterSave(options, env, start);
      err := ExecutePostHook(Hooks.Save, [Elems(docs)]);
      if err.Some? {
        RunStopsAt(ctx, plan, 2);
        return;
      }
      RunCompletes(ctx, plan);
      docs := [];
    }

    /** Pre: one pre-hook per "|"-separated name, with the same function and async flag. */
    method Pre(nameStr: string, hookFn: Hooks.HookFn, async: seq<bool>)
      modifies this`preHooks
      ensures preHooks == old(preHooks) + Registered(Split(nameStr, "|"), hookFn, AsyncFlag(async))
    {
      var names := Split(nameStr, "|");
      var flag := if |async| == 0 then false else async[0];
      var i := 0;
      while i < |names|
        invariant i <= |names|
        invariant preHooks == old(preHooks) + Registered(names[..i], hookFn, flag)
      {
        preHooks := preHooks + [Hooks.Hook(names[i], hookFn, flag)];
        i := i + 1;
        assert Registered(names[..i], hookFn, flag) == Registered(names[..i - 1], hookFn, flag) + [Hooks.Hook(names[i - 1], hookFn, flag)];
      }
      assert names[..i] == names;
    }

    /** Post: the same registration on the post-hooks. */
    method Post(nameStr: string, hookFn: Hooks.HookFn, async: seq<bool>)
      modifies this`postHooks
      ensures postHooks == old(postHooks) + Registered(Split(nameStr, "|"), hookFn, AsyncFlag(async))
    {
      var names := Split(nameStr, "|");
      var flag := if |async| == 0 then false else async[0];
      var i := 0;
      while i < |names|
        invariant i <= |names|
        invariant postHooks == old(postHooks) + Registered(names[..i], hookFn, flag)
      {
        postHooks := postHooks + [Hooks.Hook(names[i], hookFn, flag)];
        i := i + 1;
        assert Registered(names[..i], hookFn, flag) == Registered(names[..i - 1], hookFn, flag) + [Hooks.Hook(names[i - 1], hookFn, flag)];
      }
      assert names[..i] == names;
    }
  }
}
