/**
 * Writes: the document serializer and the create, update and delete
 * operations. A `*M` is an array holding the struct's top-level field
 * values in declaration order; inserts stamp it in place.
 */
module Mutation {
  import opened Values
  import Hooks
  import opened TypeCache
  import opened Driver
  import opened Model

  const Insert: string := "insert"
  const Replace: string := "replace"
  const BaseSchemaType: string := "BaseSchema"
  const BaseTimestampType: string := "BaseTimestamp"
  const Readonly: string := "readonly"

  /** The validation steps: when Validation is on, the Validate pre-hook, the validator, the Validate post-hook. */
  function ValidationPlan(options: ModelOptions, row: seq<Value>): seq<Step> {
    if options.validation then [PreHook(Hooks.Validate, [Row(row)]), Validator(row), PostHook(Hooks.Validate, [])]
    else []
  }

  // ----- insert: stamping -----

  /** Stamping looks a field up by its type's name, so a stamped field must be named after its type. */
  predicate Stampable(t: EntityType) {
    forall i :: 0 <= i < |t.fields| && t.fields[i].typeName in {BaseSchemaType, BaseTimestampType} ==>
      t.fields[i].name == t.fields[i].typeName
  }

  /** A BaseSchema with a fresh id and both timestamps now. */
  function FreshBaseSchema(env: Env, k: nat, i: nat): Value {
    Struct([StructField(true, Oid(env.newId(k, i))), StructField(true, Time(env.now)), StructField(true, Time(env.now))])
  }

  /** A BaseTimestamp with both timestamps now. */
  function FreshBaseTimestamp(env: Env): Value {
    Struct([StructField(true, Time(env.now)), StructField(true, Time(env.now))])
  }

  function StampField(f: FieldDecl, v: Value, env: Env, k: nat, i: nat): Value {
    if f.typeName == BaseSchemaType then FreshBaseSchema(env, k, i)
    else if f.typeName == BaseTimestampType then FreshBaseTimestamp(env)
    else v
  }

  /** The struct once an insert has stamped it (input `k` of the call). */
  function Stamped(t: EntityType, row: seq<Value>, env: Env, k: nat): (r: seq<Value>)
    requires |row| == |t.fields|
    ensures |r| == |row|
  {
    seq(|row|, i requires 0 <= i < |row| => StampField(t.fields[i], row[i], env, k, i))
  }

  /**
   * Stamping overwrites every BaseSchema field with a fresh id and two "now"
   * timestamps and every BaseTimestamp field with two "now" timestamps,
   * whatever the options say, and leaves every other field as it was.
   */
  lemma StampedFields(t: EntityType, row: seq<Value>, env: Env, k: nat)
    requires |row| == |t.fields|
    ensures forall i :: 0 <= i < |row| && t.fields[i].typeName == BaseSchemaType ==>
      Stamped(t, row, env, k)[i] == FreshBaseSchema(env, k, i)
    ensures forall i :: 0 <= i < |row| && t.fields[i].typeName == BaseTimestampType ==>
      Stamped(t, row, env, k)[i] == FreshBaseTimestamp(env)
    ensures forall i :: 0 <= i < |row| && t.fields[i].typeName !in {BaseSchemaType, BaseTimestampType} ==>
      Stamped(t, row, env, k)[i] == row[i]
  {
  }

  /** Different inputs of one call get different fresh ids when the generator never repeats. */
  lemma StampedIdsDistinct(t: EntityType, a: seq<Value>, b: seq<Value>, env: Env, k: nat, l: nat, i: nat)
    requires |a| == |t.fields| && |b| == |t.fields| && i < |t.fields| && t.fields[i].typeName == BaseSchemaType
    requires k != l
    requires forall x: nat, y: nat, x': nat, y': nat :: (x, y) != (x', y') ==> env.newId(x, y) != env.newId(x', y')
    ensures Stamped(t, a, env, k)[i] != Stamped(t, b, env, l)[i]
  {
    assert env.newId(k, i) != env.newId(l, i);
    assert Stamped(t, a, env, k)[i].fields[0].value == Oid(env.newId(k, i));
    assert Stamped(t, b, env, l)[i].fields[0].value == Oid(env.newId(l, i));
  }

  // ----- update and replace: the key-value list -----

  /** The timestamp entries: createdAt (replace only) then updatedAt, when Timestamp is on. */
  function TimestampEntries(options: ModelOptions, mutation: string, env: Env): (r: Doc)
    ensures !options.timestamp ==> r == []
    ensures options.timestamp && mutation == Replace ==> r == [("createdAt", Time(env.now)), ("updatedAt", Time(env.now))]
    ensures options.timestamp && mutation != Replace ==> r == [("updatedAt", Time(env.now))]
  {
    if !options.timestamp then []
    else (if mutation == Replace then [("createdAt", Time(env.now))] else []) + [("updatedAt", Time(env.now))]
  }

  /** Whether a top-level field is written to an update or replace list. */
  predicate Serialized(f: FieldDecl, v: Value) {
    f.mongooseTag != Readonly && f.bsonTag != "" && f.typeName != BaseSchemaType && !IsZero(DynamicValue(v))
  }

  /** The (bson tag, value) entries of the first `n` fields, in declaration order. */
  function FieldEntries(t: EntityType, row: seq<Value>, n: nat): Doc
    requires n <= |row| == |t.fields|
  {
    if n == 0 then []
    else
      var f := t.fields[n - 1];
      FieldEntries(t, row, n - 1) + (if Serialized(f, row[n - 1]) then [(f.bsonTag, DynamicValue(row[n - 1]))] else [])
  }

  /** serializeData's list for an update or replace. */
  function UpdateEntries(options: ModelOptions, t: EntityType, row: seq<Value>, mutation: string, env: Env): Doc
    requires |row| == |t.fields|
  {
    TimestampEntries(options, mutation, env) + FieldEntries(t, row, |row|)
  }

  /**
   * Exactly the written fields contribute: every entry is (bson tag, value)
   * of a field that passes all four tests, and every such field has its entry.
   */
  lemma {:induction false} FieldEntriesSpec(t: EntityType, row: seq<Value>, n: nat)
    requires n <= |row| == |t.fields|
    ensures |FieldEntries(t, row, n)| <= n
    ensures forall e :: e in FieldEntries(t, row, n) ==>
      exists i :: 0 <= i < n && Serialized(t.fields[i], row[i]) && e == (t.fields[i].bsonTag, DynamicValue(row[i]))
    ensures forall i :: 0 <= i < n && Serialized(t.fields[i], row[i]) ==> (t.fields[i].bsonTag, DynamicValue(row[i])) in FieldEntries(t, row, n)
  {
    if n > 0 {
      FieldEntriesSpec(t, row, n - 1);
    }
  }

  /** A readonly field never reaches the list, whatever its value: changing it changes nothing. */
  lemma {:induction false} ReadonlyIrrelevant(t: EntityType, row: seq<Value>, i: nat, v: Value, n: nat)
    requires n <= |row| == |t.fields| && i < |row| && t.fields[i].mongooseTag == Readonly
    ensures FieldEntries(t, row[i := v], n) == FieldEntries(t, row, n)
  {
    if n > 0 {
      ReadonlyIrrelevant(t, row, i, v, n - 1);
    }
  }

  /** An input whose fields all hold zero (dynamic) values gives exactly the timestamp entries. */
  lemma AllZeroOnlyTimestamps(options: ModelOptions, t: EntityType, row: seq<Value>, mutation: string, env: Env)
    requires |row| == |t.fields|
    requires forall i :: 0 <= i < |row| ==> IsZero(DynamicValue(row[i]))
    ensures UpdateEntries(options, t, row, mutation, env) == TimestampEntries(options, mutation, env)
  {
    NoEntriesForZeros(t, row, |row|);
  }

  lemma {:induction false} NoEntriesForZeros(t: EntityType, row: seq<Value>, n: nat)
    requires n <= |row| == |t.fields|
    requires forall i :: 0 <= i < n ==> IsZero(DynamicValue(row[i]))
    ensures FieldEntries(t, row, n) == []
  {
    if n > 0 {
      NoEntriesForZeros(t, row, n - 1);
    }
  }

  /**
   * A zero array (a `[2]string` left empty, say) is zero like any other zero
   * value: its field never reaches the list, whatever the other fields hold.
   */
  lemma ZeroArrayOmitted(t: EntityType, row: seq<Value>, i: nat)
    requires |row| == |t.fields| && i < |row| && row[i].Array?
    requires forall j :: 0 <= j < |row[i].items| ==> IsZero(row[i].items[j])
    ensures forall e :: e in FieldEntries(t, row, |row|) ==> e.1 != row[i]
  {
    FieldEntriesSpec(t, row, |row|);
  }

  /**
   * An interface field is judged by what it holds: one holding a zero value
   * (0, "", false, a nil pointer) never reaches the list.
   */
  lemma ZeroInterfaceOmitted(t: EntityType, row: seq<Value>, i: nat)
    requires |row| == |t.fields| && i < |row| && row[i].Iface? && IsZero(row[i].target)
    ensures forall e :: e in FieldEntries(t, row, |row|) ==> e.1 != row[i].target
  {
    FieldEntriesSpec(t, row, |row|);
  }

  /** A lone `Extra any` field holding 0 gives an empty list. */
  lemma ZeroInterfaceExample()
    ensures FieldEntries(EntityType("Doc", [FieldDecl("Extra", "extra", "", "", "", false, Scalar)], None), [Iface(Int(0))], 1) == []
  {
  }

  /**
   * A non-nil pointer is never zero, even when it points at a zero value:
   * a written field holding one always has its entry.
   */
  lemma PointerFieldKept(t: EntityType, row: seq<Value>, i: nat)
    requires |row| == |t.fields| && i < |row| && row[i].Ptr?
    requires t.fields[i].bsonTag != "" && t.fields[i].mongooseTag != Readonly && t.fields[i].typeName != BaseSchemaType
    ensures (t.fields[i].bsonTag, row[i]) in FieldEntries(t, row, |row|)
  {
    FieldEntriesSpec(t, row, |row|);
  }

  // ----- serializeData -----

  /** The validation part of serializeData: the steps of ValidationPlan up to the first failure. */
  method Validate(m: Model, row: seq<Value>, env: Env) returns (err: Option<Error>)
    modifies m`trace
    ensures var o := Run(m.CtxOf(env), ValidationPlan(m.options, row));
      m.trace == old(m.trace) + o.done && err == o.error
  {
    if !m.options.validation {
      return None;
    }
    ghost var ctx := m.CtxOf(env);
    ghost var p0 := ValidationPlan(m.options, row);
    err := m.ExecutePreHook(Hooks.Validate, [Row(row)]);
    Next(ctx, p0, PreHook(Hooks.Validate, [Row(row)]));
    if err.Some? {
      return;
    }
    err := m.RunValidator(row, env);
    Next(ctx, p0[1..], Validator(row));
    if err.Some? {
      return;
    }
    err := m.ExecutePostHook(Hooks.Validate, []);
    Next(ctx, p0[1..][1..], PostHook(Hooks.Validate, []));
    assert p0[1..][1..][1..] == [];
  }

  /** The insert part of serializeData: stamp the struct in place. */
  method Stamp(t: EntityType, data: array<Value>, env: Env, k: nat)
    requires data.Length == |t.fields| && Stampable(t)
    modifies data
    ensures data[..] == Stamped(t, old(data[..]), env, k)
  {
    ghost var row := data[..];
    var i := 0;
    while i < data.Length
      invariant i <= data.Length
      invariant forall j :: 0 <= j < i ==> data[j] == StampField(t.fields[j], row[j], env, k, j)
      invariant forall j :: i <= j < data.Length ==> data[j] == row[j]
    {
      var name := t.fields[i].typeName;
      if name == BaseSchemaType {
        data[i] := FreshBaseSchema(env, k, i);
      } else if name == BaseTimestampType {
        data[i] := FreshBaseTimestamp(env);
      }
      i := i + 1;
    }
  }

  /** The update and replace part of serializeData: build the key-value list. */
  method Entries(options: ModelOptions, t: EntityType, row: seq<Value>, mutation: string, env: Env) returns (upsert: Doc)
    requires |row| == |t.fields|
    ensures upsert == UpdateEntries(options, t, row, mutation, env)
  {
    upsert := [];
    if options.timestamp {
      if mutation == Replace {
        upsert := upsert + [("createdAt", Time(env.now))];
      }
      upsert := upsert + [("updatedAt", Time(env.now))];
    }
    var i := 0;
    while i < |row|
      invariant i <= |row|
      invariant upsert == TimestampEntries(options, mutation, env) + FieldEntries(t, row, i)
    {
      var field := t.fields[i];
      var val := DynamicValue(row[i]);
      if field.mongooseTag == Readonly {
        // readonly fields are skipped on update and replace
      } else if field.bsonTag != "" && field.typeName != BaseSchemaType && !IsZero(val) {
        upsert := upsert + [(field.bsonTag, val)];
      }
      i := i + 1;
    }
  }

  /**
   * serializeData: the validation steps; then, for an insert, stamp the
   * struct in place and return an empty list; otherwise return the
   * timestamp entries followed by the field entries. An error leaves the
   * struct as it was.
   */
  method SerializeData(m: Model, data: array<Value>, mutation: string, k: nat, env: Env) returns (upsert: Doc, err: Option<Error>)
    requires data.Length == |m.entity.fields|
    requires mutation == Insert ==> Stampable(m.entity)
    modifies m`trace, data
    ensures var o := Run(m.CtxOf(env), ValidationPlan(m.options, old(data[..])));
      m.trace == old(m.trace) + o.done && err == o.error
    ensures err.Some? ==> upsert == [] && data[..] == old(data[..])
    ensures err.None? && mutation == Insert ==> upsert == [] && data[..] == Stamped(m.entity, old(data[..]), env, k)
    ensures err.None? && mutation != Insert ==>
      upsert == UpdateEntries(m.options, m.entity, old(data[..]), mutation, env) && data[..] == old(data[..])
  {
    upsert := [];
    err := Validate(m, data[..], env);
    if err.Some? {
      return;
    }
    if mutation == Insert {
      Stamp(m.entity, data, env, k);
    } else {
      upsert := Entries(m.options, m.entity, data[..], mutation, env);
    }
  }

  // ----- Create and CreateMany -----

  /** Create: serialize (and stamp) first, then the Create pre-hook, the insert and the Create post-hook. */
  function CreatePlan(options: ModelOptions, t: EntityType, env: Env, row: seq<Value>): seq<Step>
    requires |row| == |t.fields|
  {
    ValidationPlan(options, row) + InsertPlan(env, Hooks.Create, [], InsertRow(Stamped(t, row, env, 0)))
  }

  /** The steps after serialization: the pre-hook, the insert, the post-hook with the insert's result. */
  function InsertPlan(env: Env, name: string, params: seq<Param>, call: Call): seq<Step> {
    [PreHook(name, params)] + FinishPlan(env, call, name, true)
  }

  /** The pre-hook, the insert and the post-hook; the insert's result when all three succeed. */
  method InsertWith(m: Model, name: string, params: seq<Param>, call: Call, env: Env) returns (result: Option<nat>, err: Option<Error>)
    modifies m`trace
    ensures var o := Run(m.CtxOf(env), InsertPlan(env, name, params, call));
      m.trace == old(m.trace) + o.done && err == o.error
    ensures err.None? ==> result == Some(TokenOf(env.store(call)))
    ensures err.Some? ==> result == None
  {
    ghost var ctx := m.CtxOf(env);
    ghost var t0 := m.trace;
    ghost var plan := InsertPlan(env, name, params, call);
    err := m.ExecutePreHook(name, params);
    Next(ctx, plan, PreHook(name, params));
    if err.Some? {
      return None, err;
    }
    assert plan[1..] == FinishPlan(env, call, name, true);
    Assoc(t0, [PreHook(name, params)], Run(ctx, plan[1..]).done);
    var r;
    r, err := m.Finish(call, name, true, env);
    result := if err.None? then Some(TokenOf(r)) else None;
  }

  /**
   * Create: the steps of CreatePlan up to the first failure. The struct is
   * stamped once validation has passed, even when a later step fails.
   */
  method Create(m: Model, data: array<Value>, env: Env) returns (result: Option<nat>, err: Option<Error>)
    requires data.Length == |m.entity.fields| && Stampable(m.entity)
    modifies m`trace, data
    ensures var o := Run(m.CtxOf(env), CreatePlan(m.options, m.entity, env, old(data[..])));
      m.trace == old(m.trace) + o.done && err == o.error
    ensures Run(m.CtxOf(env), ValidationPlan(m.options, old(data[..]))).error.None? ==>
      data[..] == Stamped(m.entity, old(data[..]), env, 0)
    ensures Run(m.CtxOf(env), ValidationPlan(m.options, old(data[..]))).error.Some? ==> data[..] == old(data[..])
    ensures err.None? ==> result == Some(TokenOf(env.store(InsertRow(data[..]))))
    ensures err.Some? ==> result == None
  {
    ghost var ctx := m.CtxOf(env);
    ghost var row := data[..];
    ghost var t0 := m.trace;
    ghost var vp := ValidationPlan(m.options, row);
    ghost var insert := InsertPlan(env, Hooks.Create, [], InsertRow(Stamped(m.entity, row, env, 0)));
    RunAppend(ctx, vp, insert);
    RunDone(ctx, vp);
    var _, e := SerializeData(m, data, Insert, 0, env);
    if e.Some? {
      return None, e;
    }
    Assoc(t0, vp, Run(ctx, insert).done);
    result, err := InsertWith(m, Hooks.Create, [], InsertRow(data[..]), env);
  }

  /** The validation steps of every input, one input after another. */
  function ValidationPlans(options: ModelOptions, rows: seq<seq<Value>>): seq<Step> {
    if rows == [] then [] else ValidationPlans(options, rows[..|rows| - 1]) + ValidationPlan(options, rows[|rows| - 1])
  }

  /** Input `k` stamped as input `k` of the call. */
  function StampedAll(t: EntityType, rows: seq<seq<Value>>, env: Env): (r: seq<seq<Value>>)
    requires forall k :: 0 <= k < |rows| ==> |rows[k]| == |t.fields|
    ensures |r| == |rows| && forall k :: 0 <= k < |rows| ==> r[k] == Stamped(t, rows[k], env, k)
  {
    seq(|rows|, k requires 0 <= k < |rows| && |rows[k]| == |t.fields| => Stamped(t, rows[k], env, k))
  }

  /** CreateMany: serialize every input in order, then the CreateMany pre-hook, one bulk insert and the post-hook. */
  function CreateManyPlan(options: ModelOptions, t: EntityType, env: Env, rows: seq<seq<Value>>): seq<Step>
    requires forall k :: 0 <= k < |rows| ==> |rows[k]| == |t.fields|
  {
    var stamped := StampedAll(t, rows, env);
    ValidationPlans(options, rows) + InsertPlan(env, Hooks.CreateMany, [Rows(stamped)], InsertMany(stamped))
  }

  /** How many leading inputs pass validation (all of them when none fails). */
  function Validated(ctx: Ctx, options: ModelOptions, rows: seq<seq<Value>>): (n: nat)
    ensures n <= |rows|
  {
    if rows == [] then 0
    else
      var n := Validated(ctx, options, rows[..|rows| - 1]);
      if n < |rows| - 1 then n
      else if Run(ctx, ValidationPlan(options, rows[|rows| - 1])).error.Some? then n
      else |rows|
  }

  /** The inputs once the first `n` of them have been stamped, input `k` as input `k` of the call. */
  function StampedPrefix(t: EntityType, rows: seq<seq<Value>>, env: Env, n: nat): (r: seq<seq<Value>>)
    requires forall k :: 0 <= k < |rows| ==> |rows[k]| == |t.fields|
    ensures |r| == |rows|
    ensures forall k :: 0 <= k < |rows| ==> r[k] == if k < n then Stamped(t, rows[k], env, k) else rows[k]
  {
    seq(|rows|, k requires 0 <= k < |rows| && |rows[k]| == |t.fields| => if k < n then Stamped(t, rows[k], env, k) else rows[k])
  }

  /** serializeData on input `k`: the struct is copied out, serialized through its pointer and written back. */
  method SerializeInput(m: Model, input: array<seq<Value>>, k: nat, env: Env) returns (err: Option<Error>)
    requires k < input.Length && |input[k]| == |m.entity.fields| && Stampable(m.entity)
    modifies m`trace, input
    ensures var o := Run(m.CtxOf(env), ValidationPlan(m.options, old(input[k])));
      m.trace == old(m.trace) + o.done && err == o.error
    ensures input[..] == old(input[..])[k := if err.None? then Stamped(m.entity, old(input[k]), env, k) else old(input[k])]
  {
    var row := input[k];
    var v := new Value[|row|](i requires 0 <= i < |row| => row[i]);
    assert v[..] == row;
    var _, e := SerializeData(m, v, Insert, k, env);
    if e.None? {
      input[k] := v[..];
    }
    err := e;
  }

  /**
   * One turn of CreateMany's loop, at input `k` when every input before it
   * passed: on success input `k` is stamped and passed too; on failure the
   * whole run stops there.
   */
  method SerializeNext(m: Model, input: array<seq<Value>>, k: nat, env: Env, ghost rows: seq<seq<Value>>, ghost t0: seq<Step>)
    returns (err: Option<Error>)
    requires k < input.Length == |rows| && Stampable(m.entity)
    requires forall j :: 0 <= j < |rows| ==> |rows[j]| == |m.entity.fields|
    requires AllPass(m.CtxOf(env), m.options, rows[..k])
    requires m.trace == t0 + ValidationPlans(m.options, rows[..k])
    requires input[..] == StampedPrefix(m.entity, rows, env, k)
    modifies m`trace, input
    ensures err.None? ==>
      && AllPass(m.CtxOf(env), m.options, rows[..k + 1])
      && m.trace == t0 + ValidationPlans(m.options, rows[..k + 1])
      && input[..] == StampedPrefix(m.entity, rows, env, k + 1)
    ensures err.Some? ==>
      var o := Run(m.CtxOf(env), ValidationPlans(m.options, rows));
      && m.trace == t0 + o.done && err == o.error
      && input[..] == StampedPrefix(m.entity, rows, env, Validated(m.CtxOf(env), m.options, rows))
  {
    ghost var ctx := m.CtxOf(env);
    PlansNext(ctx, m.options, rows, k);
    ghost var o := Run(ctx, ValidationPlan(m.options, rows[k]));
    Assoc(t0, ValidationPlans(m.options, rows[..k]), o.done);
    assert input[k] == rows[k];
    err := SerializeInput(m, input, k, env);
  }

  /**
   * The loop of CreateMany: serialize each input in order, stopping at the
   * first that fails validation. Every input before it is stamped; it and
   * every later input are untouched.
   */
  method SerializeAll(m: Model, input: array<seq<Value>>, env: Env) returns (err: Option<Error>)
    requires forall k :: 0 <= k < input.Length ==> |input[k]| == |m.entity.fields|
    requires Stampable(m.entity)
    modifies m`trace, input
    ensures var o := Run(m.CtxOf(env), ValidationPlans(m.options, old(input[..])));
      m.trace == old(m.trace) + o.done && err == o.error
    ensures input[..] == StampedPrefix(m.entity, old(input[..]), env, Validated(m.CtxOf(env), m.options, old(input[..])))
    ensures err.None? ==> input[..] == StampedAll(m.entity, old(input[..]), env)
  {
    ghost var ctx := m.CtxOf(env);
    ghost var rows := input[..];
    ghost var t0 := m.trace;
    var k := 0;
    while k < input.Length
      invariant k <= input.Length
      invariant AllPass(ctx, m.options, rows[..k])
      invariant m.trace == t0 + ValidationPlans(m.options, rows[..k])
      invariant input[..] == StampedPrefix(m.entity, rows, env, k)
    {
      var e := SerializeNext(m, input, k, env, rows, t0);
      if e.Some? {
        return e;
      }
      k := k + 1;
    }
    assert rows[..k] == rows;
    PlansPass(ctx, m.options, rows);
    err := None;
  }

  /** Whether one input's validation steps all succeed. */
  predicate Passes(ctx: Ctx, options: ModelOptions, row: seq<Value>) {
    Run(ctx, ValidationPlan(options, row)).error.None?
  }

  /** Whether every input's validation steps all succeed. */
  predicate AllPass(ctx: Ctx, options: ModelOptions, rows: seq<seq<Value>>) {
    rows == [] || (AllPass(ctx, options, rows[..|rows| - 1]) && Passes(ctx, options, rows[|rows| - 1]))
  }

  /** The step CreateMany's loop takes at input `k`, in both outcomes. */
  lemma PlansNext(ctx: Ctx, options: ModelOptions, rows: seq<seq<Value>>, k: nat)
    requires k < |rows| && AllPass(ctx, options, rows[..k])
    ensures var o := Run(ctx, ValidationPlan(options, rows[k]));
      && (o.error.None? ==>
            AllPass(ctx, options, rows[..k + 1]) && ValidationPlans(options, rows[..k + 1]) == ValidationPlans(options, rows[..k]) + o.done)
      && (o.error.Some? ==>
            Run(ctx, ValidationPlans(options, rows)) == Outcome(ValidationPlans(options, rows[..k]) + o.done, o.error) &&
            Validated(ctx, options, rows) == k)
  {
    PlansCons(ctx, options, rows, k);
    RunDone(ctx, ValidationPlan(options, rows[k]));
    if !Passes(ctx, options, rows[k]) {
      PlansFail(ctx, options, rows, k);
    }
  }

  /** One more input: its validation steps follow those of the inputs before it. */
  lemma PlansCons(ctx: Ctx, options: ModelOptions, rows: seq<seq<Value>>, k: nat)
    requires k < |rows|
    ensures ValidationPlans(options, rows[..k + 1]) == ValidationPlans(options, rows[..k]) + ValidationPlan(options, rows[k])
    ensures AllPass(ctx, options, rows[..k + 1]) == (AllPass(ctx, options, rows[..k]) && Passes(ctx, options, rows[k]))
  {
    assert rows[..k + 1][..k] == rows[..k];
  }

  /** When every input passes, all validation steps run, without error, and every input counts as validated. */
  lemma {:induction false} PlansPass(ctx: Ctx, options: ModelOptions, rows: seq<seq<Value>>)
    requires AllPass(ctx, options, rows)
    ensures Run(ctx, ValidationPlans(options, rows)) == Outcome(ValidationPlans(options, rows), None)
    ensures Validated(ctx, options, rows) == |rows|
  {
    if rows != [] {
      var init := rows[..|rows| - 1];
      PlansPass(ctx, options, init);
      RunAppend(ctx, ValidationPlans(options, init), ValidationPlan(options, rows[|rows| - 1]));
      RunDone(ctx, ValidationPlan(options, rows[|rows| - 1]));
    }
  }

  /**
   * When input `k` is the first that fails, the run stops inside its
   * validation steps and exactly the inputs before it count as validated.
   */
  lemma PlansFail(ctx: Ctx, options: ModelOptions, rows: seq<seq<Value>>, k: nat)
    requires k < |rows| && !Passes(ctx, options, rows[k])
    requires AllPass(ctx, options, rows[..k])
    ensures Run(ctx, ValidationPlans(options, rows)) ==
      Outcome(ValidationPlans(options, rows[..k]) + Run(ctx, ValidationPlan(options, rows[k])).done,
              Run(ctx, ValidationPlan(options, rows[k])).error)
    ensures Validated(ctx, options, rows) == k
  {
    PlansPass(ctx, options, rows[..k]);
    PlansCons(ctx, options, rows, k);
    RunAppend(ctx, ValidationPlans(options, rows[..k]), ValidationPlan(options, rows[k]));
    assert rows[..k + 1][..k] == rows[..k];
    PlansPrefix(ctx, options, rows, k + 1);
    ValidatedStopsAt(ctx, options, rows, k, |rows|);
    assert rows[..|rows|] == rows;
  }

  lemma {:induction false} ValidatedStopsAt(ctx: Ctx, options: ModelOptions, rows: seq<seq<Value>>, k: nat, n: nat)
    requires k < n <= |rows| && Validated(ctx, options, rows[..k + 1]) == k
    ensures Validated(ctx, options, rows[..n]) == k
    decreases n
  {
    if n > k + 1 {
      ValidatedStopsAt(ctx, options, rows, k, n - 1);
      assert rows[..n][..n - 1] == rows[..n - 1];
    }
  }

  /** A run that fails within the plans of the first `n` inputs fails the same way within the plans of all of them. */
  lemma {:induction false} PlansPrefix(ctx: Ctx, options: ModelOptions, rows: seq<seq<Value>>, n: nat)
    requires n <= |rows| && Run(ctx, ValidationPlans(options, rows[..n])).error.Some?
    ensures Run(ctx, ValidationPlans(options, rows)) == Run(ctx, ValidationPlans(options, rows[..n]))
    decreases |rows| - n
  {
    if n == |rows| {
      assert rows[..n] == rows;
    } else {
      assert rows[..n + 1][..n] == rows[..n];
      RunAppend(ctx, ValidationPlans(options, rows[..n]), ValidationPlan(options, rows[n]));
      PlansPrefix(ctx, options, rows, n + 1);
    }
  }

  /**
   * CreateMany: the steps of CreateManyPlan up to the first failure. It
   * stops at the first input that fails validation; every input before it is
   * already stamped, and it and every later input are untouched.
   */
  method CreateMany(m: Model, input: array<seq<Value>>, env: Env) returns (result: Option<nat>, err: Option<Error>)
    requires forall k :: 0 <= k < input.Length ==> |input[k]| == |m.entity.fields|
    requires Stampable(m.entity)
    modifies m`trace, input
    ensures var o := Run(m.CtxOf(env), CreateManyPlan(m.options, m.entity, env, old(input[..])));
      m.trace == old(m.trace) + o.done && err == o.error
    ensures input[..] == StampedPrefix(m.entity, old(input[..]), env, Validated(m.CtxOf(env), m.options, old(input[..])))
    ensures err.None? ==> result == Some(TokenOf(env.store(InsertMany(input[..]))))
    ensures err.Some? ==> result == None
  {
    ghost var ctx := m.CtxOf(env);
    ghost var rows := input[..];
    ghost var stamped := StampedAll(m.entity, rows, env);
    ghost var t0 := m.trace;
    ghost var vps := ValidationPlans(m.options, rows);
    ghost var insert := InsertPlan(env, Hooks.CreateMany, [Rows(stamped)], InsertMany(stamped));
    RunAppend(ctx, vps, insert);
    RunDone(ctx, vps);
    var e := SerializeAll(m, input, env);
    if e.Some? {
      return None, e;
    }
    Assoc(t0, vps, Run(ctx, insert).done);
    var data := input[..];
    result, err := InsertWith(m, Hooks.CreateMany, [Rows(data)], InsertMany(data), env);
  }

  // ----- Update, UpdateMany, Delete, DeleteMany -----

  /** The update call: UpdateOne or UpdateMany with `{$set: list}`. */
  function UpdateCall(many: bool, query: Doc, list: Doc): Call {
    if many then Call.UpdateMany(query, SetDoc(list)) else UpdateOne(query, SetDoc(list))
  }

  /** The steps after the filter has been converted: serialization, the update call, the post-hook. */
  function WritePlan(options: ModelOptions, t: EntityType, env: Env, name: string, many: bool, query: Doc, row: seq<Value>): seq<Step>
    requires |row| == |t.fields|
  {
    ValidationPlan(options, row) + FinishPlan(env, UpdateCall(many, query, UpdateEntries(options, t, row, "update", env)), name, false)
  }

  /** Update and UpdateMany: pre-hook, filter check, conversion, serialization, `$set` call, post-hook. */
  function UpdatePlan(options: ModelOptions, t: EntityType, env: Env, name: string, many: bool, filter: Value, row: seq<Value>): seq<Step>
    requires |row| == |t.fields|
  {
    GuardPlan(name, [Arg(filter), Row(row)], filter) + WritePlan(options, t, env, name, many, QueryOf(env, filter), row)
  }

  /** Delete and DeleteMany: pre-hook, filter check, conversion, the call, post-hook. */
  function DeletePlan(env: Env, name: string, many: bool, filter: Value): seq<Step> {
    var q := QueryOf(env, filter);
    GuardPlan(name, [Arg(filter)], filter) + FinishPlan(env, if many then Call.DeleteMany(q) else DeleteOne(q), name, false)
  }

  method Write(m: Model, name: string, many: bool, query: Doc, data: array<Value>, env: Env) returns (err: Option<Error>)
    requires data.Length == |m.entity.fields|
    modifies m`trace, data
    ensures var o := Run(m.CtxOf(env), WritePlan(m.options, m.entity, env, name, many, query, old(data[..])));
      m.trace == old(m.trace) + o.done && err == o.error
    ensures data[..] == old(data[..])
  {
    ghost var ctx := m.CtxOf(env);
    ghost var row := data[..];
    ghost var t0 := m.trace;
    ghost var vp := ValidationPlan(m.options, row);
    ghost var finish := FinishPlan(env, UpdateCall(many, query, UpdateEntries(m.options, m.entity, row, "update", env)), name, false);
    RunAppend(ctx, vp, finish);
    RunDone(ctx, vp);
    var upsert, e := SerializeData(m, data, "update", 0, env);
    if e.Some? {
      return e;
    }
    Assoc(t0, vp, Run(ctx, finish).done);
    var _, err' := m.Finish(UpdateCall(many, query, upsert), name, false, env);
    err := err';
  }

  method UpdateWith(m: Model, name: string, many: bool, filter: Value, data: array<Value>, env: Env) returns (err: Option<Error>)
    requires data.Length == |m.entity.fields|
    modifies m`trace, data
    ensures var o := Run(m.CtxOf(env), UpdatePlan(m.options, m.entity, env, name, many, filter, old(data[..])));
      m.trace == old(m.trace) + o.done && err == o.error
    ensures data[..] == old(data[..])
  {
    ghost var ctx := m.CtxOf(env);
    ghost var row := data[..];
    ghost var t0 := m.trace;
    ghost var guard := GuardPlan(name, [Arg(filter), Row(row)], filter);
    ghost var write := WritePlan(m.options, m.entity, env, name, many, QueryOf(env, filter), row);
    RunAppend(ctx, guard, write);
    var query := m.Guard(name, [Arg(filter), Row(data[..])], filter, env);
    if query.Err? {
      return Some(query.error);
    }
    Assoc(t0, guard, Run(ctx, write).done);
    err := Write(m, name, many, query.value, data, env);
  }

  /** Update: UpdateOne with `{$set: list}`; a post-hook error is returned after the write. */
  method Update(m: Model, filter: Value, data: array<Value>, env: Env) returns (err: Option<Error>)
    requires data.Length == |m.entity.fields|
    modifies m`trace, data
    ensures var o := Run(m.CtxOf(env), UpdatePlan(m.options, m.entity, env, Hooks.Update, false, filter, old(data[..])));
      m.trace == old(m.trace) + o.done && err == o.error
    ensures data[..] == old(data[..])
  {
    err := UpdateWith(m, Hooks.Update, false, filter, data, env);
  }

  /** UpdateMany: the same steps with UpdateMany and the UpdateMany hooks. */
  method UpdateMany(m: Model, filter: Value, data: array<Value>, env: Env) returns (err: Option<Error>)
    requires data.Length == |m.entity.fields|
    modifies m`trace, data
    ensures var o := Run(m.CtxOf(env), UpdatePlan(m.options, m.entity, env, Hooks.UpdateMany, true, filter, old(data[..])));
      m.trace == old(m.trace) + o.done && err == o.error
    ensures data[..] == old(data[..])
  {
    err := UpdateWith(m, Hooks.UpdateMany, true, filter, data, env);
  }

  method DeleteWith(m: Model, name: string, many: bool, filter: Value, env: Env) returns (err: Option<Error>)
    modifies m`trace
    ensures var o := Run(m.CtxOf(env), DeletePlan(env, name, many, filter));
      m.trace == old(m.trace) + o.done && err == o.error
  {
    ghost var ctx := m.CtxOf(env);
    ghost var q := QueryOf(env, filter);
    ghost var t0 := m.trace;
    ghost var guard := GuardPlan(name, [Arg(filter)], filter);
    ghost var finish := FinishPlan(env, if many then Call.DeleteMany(q) else DeleteOne(q), name, false);
    RunAppend(ctx, guard, finish);
    var query := m.Guard(name, [Arg(filter)], filter, env);
    if query.Err? {
      return Some(query.error);
    }
    Assoc(t0, guard, Run(ctx, finish).done);
    var _, err' := m.Finish(if many then Call.DeleteMany(query.value) else DeleteOne(query.value), name, false, env);
    err := err';
  }

  /** Delete: DeleteOne on the converted filter. */
  method Delete(m: Model, filter: Value, env: Env) returns (err: Option<Error>)
    modifies m`trace
    ensures var o := Run(m.CtxOf(env), DeletePlan(env, Hooks.Delete, false, filter));
      m.trace == old(m.trace) + o.done && err == o.error
  {
    err := DeleteWith(m, Hooks.Delete, false, filter, env);
  }

  /** DeleteMany: DeleteMany on the converted filter. */
  method DeleteMany(m: Model, filter: Value, env: Env) returns (err: Option<Error>)
    modifies m`trace
    ensures var o := Run(m.CtxOf(env), DeletePlan(env, Hooks.DeleteMany, true, filter));
      m.trace == old(m.trace) + o.done && err == o.error
  {
    err := DeleteWith(m, Hooks.DeleteMany, true, filter, env);
  }

  /** UpdateByID: an id the query cannot be built from is refused before any step; otherwise Update on `{_id: id}`. */
  method UpdateByID(m: Model, id: Value, data: array<Value>, env: Env) returns (err: Option<Error>)
    requires data.Length == |m.entity.fields|
    modifies m`trace, data
    ensures GetQueryId(m.options, env, id).Err? ==> err == Some(GetQueryId(m.options, env, id).error) && m.trace == old(m.trace)
    ensures GetQueryId(m.options, env, id).Ok? ==>
      var o := Run(m.CtxOf(env), UpdatePlan(m.options, m.entity, env, Hooks.Update, false, Map(GetQueryId(m.options, env, id).value), old(data[..])));
      m.trace == old(m.trace) + o.done && err == o.error
    ensures data[..] == old(data[..])
  {
    var query := GetQueryId(m.options, env, id);
    if query.Err? {
      return Some(query.error);
    }
    err := Update(m, Map(query.value), data, env);
  }

  /** DeleteByID: the same for Delete. */
  method DeleteByID(m: Model, id: Value, env: Env) returns (err: Option<Error>)
    modifies m`trace
    ensures GetQueryId(m.options, env, id).Err? ==> err == Some(GetQueryId(m.options, env, id).error) && m.trace == old(m.trace)
    ensures GetQueryId(m.options, env, id).Ok? ==>
      var o := Run(m.CtxOf(env), DeletePlan(env, Hooks.Delete, false, Map(GetQueryId(m.options, env, id).value)));
      m.trace == old(m.trace) + o.done && err == o.error
  {
    var query := GetQueryId(m.options, env, id);
    if query.Err? {
      return Some(query.error);
    }
    err := Delete(m, Map(query.value), env);
  }
}
