/**
 * Reads through an aggregation pipeline: FindOne and Find build a pipeline
 * of `$match`, a `$lookup`/`$unwind` pair per reference to populate, then
 * `$project`, `$sort` and the paging stages, run it, drain the cursor and
 * hand the documents to the post-hook. References are resolved by a scan of
 * the entity's top-level `ref` tags.
 */
module Aggregate {
  import opened Values
  import opened Strings
  import Hooks
  import opened TypeCache
  import opened Driver
  import opened Model

  /** FindOne's options in this revision: sort, projection (None is nil) and the references to populate. */
  datatype QueryOptions = QueryOptions(sort: Option<Doc>, projection: Option<Doc>, ref: seq<string>)

  /** Find's options in this revision: also skip and limit, where 0 means "not set". */
  datatype QueriesOptions = QueriesOptions(sort: Option<Doc>, skip: int, limit: int, projection: Option<Doc>, ref: seq<string>)

  /** Only the first options argument is read; with none, the zero value. */
  function FirstQueryOptions(opts: seq<QueryOptions>): QueryOptions {
    if |opts| > 0 then opts[0] else QueryOptions(None, None, [])
  }

  function FirstQueriesOptions(opts: seq<QueriesOptions>): QueriesOptions {
    if |opts| > 0 then opts[0] else QueriesOptions(None, 0, 0, None, [])
  }

  // ----- getRefPath -----

  /** The `->`-separated segments of a field's ref tag. */
  function Segments(f: FieldDecl): seq<string> {
    Split(f.refTag, "->")
  }

  /**
   * The scan stops at a tagged field whose tag has no second segment (the
   * source indexes past the end of the split) or whose first segment is the
   * requested name; every other field is passed over.
   */
  predicate Stops(f: FieldDecl, ref: string) {
    f.refTag != "" && (|Segments(f)| < 2 || Segments(f)[0] == ref)
  }

  /** The reference a well-formed tagged field describes: the second segment, the first, the bson tag. */
  function PathOf(f: FieldDecl): RefPath
    requires |Segments(f)| >= 2
  {
    RefPath(Segments(f)[1], Segments(f)[0], f.bsonTag)
  }

  /** What the scan ends with: the matching field, a malformed tag it trips over, or nothing. */
  datatype RefLookup = Found(at: nat, path: RefPath) | Malformed(at: nat) | Missing

  /**
   * getRefPath from field `i` on: the first field at which the scan stops
   * decides; a match yields its path, a tag without a second segment is
   * malformed; when no field stops the scan, nothing is found.
   */
  function RefScan(fs: seq<FieldDecl>, ref: string, i: nat): (r: RefLookup)
    requires i <= |fs|
    ensures r.Missing? <==> forall j :: i <= j < |fs| ==> !Stops(fs[j], ref)
    ensures !r.Missing? ==> i <= r.at < |fs| && Stops(fs[r.at], ref)
    ensures !r.Missing? ==> forall j :: i <= j < r.at ==> !Stops(fs[j], ref)
    ensures r.Found? <==> !r.Missing? && |Segments(fs[r.at])| >= 2
    ensures r.Found? ==> Segments(fs[r.at])[0] == ref && r.path == PathOf(fs[r.at])
    decreases |fs| - i
  {
    if i == |fs| then Missing
    else if Stops(fs[i], ref) then
      if |Segments(fs[i])| < 2 then Malformed(i) else Found(i, PathOf(fs[i]))
    else RefScan(fs, ref, i + 1)
  }

  /** getRefPath: the scan over the entity's top-level fields. */
  function GetRefPath(t: EntityType, ref: string): RefLookup {
    RefScan(t.fields, ref, 0)
  }

  /** Every requested reference resolves; otherwise the source dereferences nil or indexes out of range. */
  predicate Resolvable(t: EntityType, refs: seq<string>) {
    forall i :: 0 <= i < |refs| ==> GetRefPath(t, refs[i]).Found?
  }

  /** A text without '-' contains no arrow. */
  lemma DashFree(s: string)
    requires forall i :: 0 <= i < |s| ==> s[i] != '-'
    ensures Free(s, "->")
  {
    forall j | 0 <= j <= |s| - 2 ensures !OccursAt(s, "->", j) {
      assert s[j..j + 2][0] == s[j];
    }
  }

  /** A tag "fk->from" whose parts hold no arrow has exactly those two segments. */
  lemma SegmentsOf(f: FieldDecl, fk: string, from: string)
    requires Free(fk, "->") && Free(from, "->")
    requires f.refTag == fk + "->" + from
    ensures Segments(f) == [fk, from]
  {
    var s := f.refTag;
    FirstArrowAfter(fk, from);
    SplitAt(s, "->", |fk|);
    assert s[..|fk|] == fk;
    assert s[|fk| + 2..] == from;
    SplitFree(from, "->");
  }

  /**
   * On a well-formed tag both reference parsers agree: the path getRefPath
   * builds is the one parseRefPath in the type cache builds for that field.
   */
  lemma SameAsParseRefPath(f: FieldDecl, info: FieldInfo, fk: string, from: string)
    requires fk != "" && Free(fk, "->") && Free(from, "->") && f.bsonTag != ""
    requires f.refTag == fk + "->" + from
    requires info.refTag == f.refTag && info.bsonTag == f.bsonTag
    ensures |Segments(f)| >= 2 && ParseRefPath(info) == Some(PathOf(f))
  {
    SegmentsOf(f, fk, from);
    ParseRefPathRoundTrip(info, fk, from);
  }

  /**
   * They part on a tag with a second arrow: getRefPath takes the second
   * segment as the collection, parseRefPath everything after the first arrow.
   */
  lemma SecondSegmentOnly(f: FieldDecl, info: FieldInfo)
    requires f.refTag == "a->b->c" && f.bsonTag == "x"
    requires info.refTag == f.refTag && info.bsonTag == f.bsonTag
    ensures |Segments(f)| >= 2 && PathOf(f).from == "b"
    ensures ParseRefPath(info) == Some(RefPath("b->c", "a", "x"))
  {
    DashFree("a");
    DashFree("b");
    DashFree("c");
    assert f.refTag == "a" + "->" + "b->c";
    ParseRefPathRoundTrip(info, "a", "b->c");
    var s := f.refTag;
    FirstArrowAfter("a", "b->c");
    SplitAt(s, "->", 1);
    assert s[3..] == "b" + "->" + "c";
    FirstArrowAfter("b", "c");
    SplitAt(s[3..], "->", 1);
    assert s[3..][..1] == "b" && s[3..][3..] == "c";
    SplitFree("c", "->");
  }

  // ----- the pipeline -----

  /** The two stages that populate one resolved reference. */
  function Populate(p: RefPath): seq<Stage> {
    [Lookup(p.from, p.foreignKey, "_id", p.asField), Unwind("$" + p.asField)]
  }

  /** The resolved paths of the requested references, in order. */
  function Paths(t: EntityType, refs: seq<string>): (ps: seq<RefPath>)
    requires Resolvable(t, refs)
    ensures |ps| == |refs|
  {
    seq(|refs|, i requires 0 <= i < |refs| => GetRefPath(t, refs[i]).path)
  }

  /** The population stages, in order: a `$lookup`/`$unwind` pair per resolved reference. */
  function LookupStages(paths: seq<RefPath>): (r: seq<Stage>)
    ensures |r| == 2 * |paths|
  {
    if paths == [] then [] else LookupStages(paths[..|paths| - 1]) + Populate(paths[|paths| - 1])
  }

  /**
   * The pair for the `i`-th reference sits at positions 2i and 2i+1: a
   * `$lookup` joining the local foreign key against `_id` of the referenced
   * collection, then an `$unwind` of the output field.
   */
  lemma {:induction false} LookupStagesAt(paths: seq<RefPath>, i: nat)
    requires i < |paths|
    ensures var p := paths[i]; var r := LookupStages(paths);
      r[2 * i] == Lookup(p.from, p.foreignKey, "_id", p.asField) && r[2 * i + 1] == Unwind("$" + p.asField)
  {
    var init := paths[..|paths| - 1];
    if i < |init| {
      LookupStagesAt(init, i);
      assert init[i] == paths[i];
    }
  }

  /** Population stages hold nothing but `$lookup` and `$unwind`. */
  lemma LookupStagesKinds(paths: seq<RefPath>)
    ensures forall k :: 0 <= k < |LookupStages(paths)| ==> LookupStages(paths)[k].Lookup? || LookupStages(paths)[k].Unwind?
  {
    var r := LookupStages(paths);
    forall k | 0 <= k < |r| ensures r[k].Lookup? || r[k].Unwind? {
      var i := k / 2;
      LookupStagesAt(paths, i);
      assert k == 2 * i || k == 2 * i + 1;
    }
  }

  /** The appending loop over the references: each is resolved and its pair appended. */
  method AppendLookups(t: EntityType, pipeline: seq<Stage>, refs: seq<string>) returns (p: seq<Stage>)
    requires Resolvable(t, refs)
    ensures p == pipeline + LookupStages(Paths(t, refs))
  {
    ghost var paths := Paths(t, refs);
    p := pipeline;
    var k := 0;
    while k < |refs|
      invariant k <= |refs|
      invariant p == pipeline + LookupStages(paths[..k])
    {
      var path := GetRefPath(t, refs[k]).path;
      assert paths[..k + 1][..k] == paths[..k] && paths[k] == path;
      Assoc(pipeline, LookupStages(paths[..k]), Populate(path));
      p := p + [Lookup(path.from, path.foreignKey, "_id", path.asField), Unwind("$" + path.asField)];
      k := k + 1;
    }
    assert paths[..k] == paths;
  }

  /** The part FindOne and Find share: `$match`, the population stages, `$project` if set, `$sort` if set. */
  function Head(query: Doc, paths: seq<RefPath>, projection: Option<Doc>, sort: Option<Doc>): seq<Stage> {
    [Match(query)] + LookupStages(paths)
      + (if projection.Some? then [Project(projection.value)] else [])
      + (if sort.Some? then [SortBy(sort.value)] else [])
  }

  /**
   * The shared part opens with the one `$match` holding the query, then the
   * population stages, then `$project` exactly when a projection is given
   * and `$sort` exactly when a sort is given, in that order; it holds no
   * paging stage.
   */
  lemma HeadShape(query: Doc, paths: seq<RefPath>, projection: Option<Doc>, sort: Option<Doc>)
    ensures var h := Head(query, paths, projection, sort);
      && |h| == 1 + 2 * |paths| + (if projection.Some? then 1 else 0) + (if sort.Some? then 1 else 0)
      && h[0] == Match(query)
      && (forall k :: 0 < k < |h| ==> !h[k].Match? && !h[k].Skip? && !h[k].Limit?)
      && (forall k :: 0 < k < 1 + 2 * |paths| ==> h[k].Lookup? || h[k].Unwind?)
      && ((exists k :: 0 <= k < |h| && h[k].Project?) <==> projection.Some?)
      && (forall k :: 0 <= k < |h| && h[k].Project? ==> projection == Some(h[k].projection) && 2 * |paths| < k)
      && ((exists k :: 0 <= k < |h| && h[k].SortBy?) <==> sort.Some?)
      && (forall k :: 0 <= k < |h| && h[k].SortBy? ==> sort == Some(h[k].sort) && k == |h| - 1)
  {
    var l := LookupStages(paths);
    var pr: seq<Stage> := if projection.Some? then [Project(projection.value)] else [];
    var so: seq<Stage> := if sort.Some? then [SortBy(sort.value)] else [];
    var h := Head(query, paths, projection, sort);
    LookupStagesKinds(paths);
    assert h == [Match(query)] + l + pr + so;
    forall k | 0 < k < 1 + |l| ensures h[k] == l[k - 1] { }
    forall k | 1 + |l| <= k < 1 + |l| + |pr| ensures h[k] == pr[k - 1 - |l|] { }
    forall k | 1 + |l| + |pr| <= k < |h| ensures h[k] == so[k - 1 - |l| - |pr|] { }
    if projection.Some? {
      assert h[1 + |l|].Project?;
    }
    if sort.Some? {
      assert h[|h| - 1].SortBy?;
    }
  }

  /** FindOne's pipeline: the shared part, then `$limit: 1`. */
  function FindOnePipeline(t: EntityType, query: Doc, opt: QueryOptions): seq<Stage>
    requires Resolvable(t, opt.ref)
  {
    Head(query, Paths(t, opt.ref), opt.projection, opt.sort) + [Limit(1)]
  }

  /** Find's pipeline: the shared part, then `$skip` when skip is non-zero, then `$limit` when limit is non-zero. */
  function FindPipeline(t: EntityType, query: Doc, opt: QueriesOptions): seq<Stage>
    requires Resolvable(t, opt.ref)
  {
    Head(query, Paths(t, opt.ref), opt.projection, opt.sort)
      + (if opt.skip != 0 then [Skip(opt.skip)] else [])
      + (if opt.limit != 0 then [Limit(opt.limit)] else [])
  }

  /** FindOne's pipeline always ends with the one `$limit: 1` and never skips. */
  lemma FindOnePipelineShape(t: EntityType, query: Doc, opt: QueryOptions)
    requires Resolvable(t, opt.ref)
    ensures var p := FindOnePipeline(t, query, opt);
      && p[0] == Match(query)
      && p[|p| - 1] == Limit(1)
      && (forall k :: 0 < k < |p| ==> !p[k].Match? && !p[k].Skip?)
      && (forall k :: 0 <= k < |p| - 1 ==> !p[k].Limit?)
  {
    var h := Head(query, Paths(t, opt.ref), opt.projection, opt.sort);
    HeadShape(query, Paths(t, opt.ref), opt.projection, opt.sort);
    var p := FindOnePipeline(t, query, opt);
    assert forall k :: 0 <= k < |h| ==> p[k] == h[k];
  }

  /**
   * Find's pipeline: `$skip` exactly when skip is non-zero and `$limit`
   * exactly when limit is non-zero, carrying those values, after every
   * other stage and `$skip` before `$limit`.
   */
  lemma FindPipelineShape(t: EntityType, query: Doc, opt: QueriesOptions)
    requires Resolvable(t, opt.ref)
    ensures var p := FindPipeline(t, query, opt);
      var h := Head(query, Paths(t, opt.ref), opt.projection, opt.sort);
      && p[..|h|] == h
      && ((exists k :: 0 <= k < |p| && p[k].Skip?) <==> opt.skip != 0)
      && ((exists k :: 0 <= k < |p| && p[k].Limit?) <==> opt.limit != 0)
      && (forall k :: 0 <= k < |p| && p[k].Skip? ==> p[k] == Skip(opt.skip) && k == |h|)
      && (forall k :: 0 <= k < |p| && p[k].Limit? ==> p[k] == Limit(opt.limit) && k == |p| - 1)
  {
    var h := Head(query, Paths(t, opt.ref), opt.projection, opt.sort);
    HeadShape(query, Paths(t, opt.ref), opt.projection, opt.sort);
    var sk: seq<Stage> := if opt.skip != 0 then [Skip(opt.skip)] else [];
    var li: seq<Stage> := if opt.limit != 0 then [Limit(opt.limit)] else [];
    var p := FindPipeline(t, query, opt);
    assert p == h + sk + li;
    assert forall k :: 0 <= k < |h| ==> p[k] == h[k];
    forall k | |h| <= k < |h| + |sk| ensures p[k] == sk[k - |h|] { }
    forall k | |h| + |sk| <= k < |p| ensures p[k] == li[k - |h| - |sk|] { }
    if opt.skip != 0 {
      assert p[|h|].Skip?;
    }
    if opt.limit != 0 {
      assert p[|p| - 1].Limit?;
    }
  }

  /** The tags of the Employee type of the population tests. */
  lemma DepartmentSegments(f: FieldDecl)
    requires f.refTag == "departmentID->departments"
    ensures Segments(f) == ["departmentID", "departments"]
  {
    DashFree("departmentID");
    DashFree("departments");
    assert f.refTag == "departmentID" + "->" + "departments";
    SegmentsOf(f, "departmentID", "departments");
  }

  /**
   * The reference of the aggregate tests' Employee: its fifth field carries
   * `ref:"departmentID->departments"` and bson tag "department", the others
   * no ref tag; "departmentID" resolves to that field.
   */
  lemma EmployeeDepartmentRef(t: EntityType)
    requires |t.fields| == 5
    requires forall i :: 0 <= i < 4 ==> t.fields[i].refTag == ""
    requires t.fields[4].refTag == "departmentID->departments" && t.fields[4].bsonTag == "department"
    ensures GetRefPath(t, "departmentID") == Found(4, RefPath("departments", "departmentID", "department"))
  {
    DepartmentSegments(t.fields[4]);
    assert Stops(t.fields[4], "departmentID");
  }

  /**
   * Populating "departmentID" on a nil filter: the `$match`, the join
   * against the departments' `_id` and the unwind, nothing else.
   */
  lemma EmployeeDepartmentPipeline(t: EntityType)
    requires |t.fields| == 5
    requires forall i :: 0 <= i < 4 ==> t.fields[i].refTag == ""
    requires t.fields[4].refTag == "departmentID->departments" && t.fields[4].bsonTag == "department"
    ensures Resolvable(t, ["departmentID"])
    ensures FindPipeline(t, [], QueriesOptions(None, 0, 0, None, ["departmentID"])) ==
      [Match([]), Lookup("departments", "departmentID", "_id", "department"), Unwind("$department")]
  {
    EmployeeDepartmentRef(t);
    var path := RefPath("departments", "departmentID", "department");
    assert Paths(t, ["departmentID"]) == [path];
    assert LookupStages([path]) == LookupStages([]) + Populate(path);
    assert "$" + "department" == "$department";
  }

  // ----- FindOne and Find -----

  /** The documents a call's cursor yields before the first that fails to decode. */
  function Fetched(env: Env, call: Call): seq<seq<Value>> {
    Drained(CursorOf(env.store(call)))
  }

  /** After the guard: the aggregation, draining its cursor and, when a document came back, the post-hook with the first. */
  function FetchOnePlan(env: Env, call: Call): seq<Step> {
    var data := Fetched(env, call);
    FetchPlan(call) + (if data == [] then [] else [PostHook(Hooks.FindOne, [Row(data[0])])])
  }

  /** After the guard: the aggregation, draining its cursor and the post-hook with every document. */
  function FetchAllPlan(env: Env, call: Call): seq<Step> {
    FetchPlan(call) + [PostHook(Hooks.Find, [Rows(Fetched(env, call))])]
  }

  /** The aggregation call FindOne makes. */
  function FindOneCall(env: Env, t: EntityType, filter: Value, opt: QueryOptions): Call
    requires Resolvable(t, opt.ref)
  {
    Call.Aggregate(FindOnePipeline(t, QueryOf(env, filter), opt))
  }

  /** FindOne: pre-hook (with the filter), filter check, conversion, then the read. */
  function FindOnePlan(env: Env, t: EntityType, filter: Value, opt: QueryOptions): seq<Step>
    requires Resolvable(t, opt.ref)
  {
    GuardPlan(Hooks.FindOne, [Arg(filter)], filter) + FetchOnePlan(env, FindOneCall(env, t, filter, opt))
  }

  /** The aggregation call Find makes. */
  function FindCall(env: Env, t: EntityType, filter: Value, opt: QueriesOptions): Call
    requires Resolvable(t, opt.ref)
  {
    Call.Aggregate(FindPipeline(t, QueryOf(env, filter), opt))
  }

  /** Find: the same guard, then the read whose post-hook sees every document, also when there are none. */
  function FindPlan(env: Env, t: EntityType, filter: Value, opt: QueriesOptions): seq<Step>
    requires Resolvable(t, opt.ref)
  {
    GuardPlan(Hooks.Find, [Arg(filter)], filter) + FetchAllPlan(env, FindCall(env, t, filter, opt))
  }

  /** The shared part built by successive appends. */
  method BuildHead(t: EntityType, query: Doc, refs: seq<string>, projection: Option<Doc>, sort: Option<Doc>) returns (pipeline: seq<Stage>)
    requires Resolvable(t, refs)
    ensures pipeline == Head(query, Paths(t, refs), projection, sort)
  {
    pipeline := [Match(query)];
    pipeline := AppendLookups(t, pipeline, refs);
    if projection.Some? {
      pipeline := pipeline + [Project(projection.value)];
    }
    if sort.Some? {
      pipeline := pipeline + [SortBy(sort.value)];
    }
  }

  /** A failure of the pre-hook, the filter check or the conversion ends FindOne before any call on the collection. */
  lemma FindOneGuardFails(ctx: Ctx, t: EntityType, filter: Value, opt: QueryOptions)
    requires Resolvable(t, opt.ref)
    requires Run(ctx, GuardPlan(Hooks.FindOne, [Arg(filter)], filter)).error.Some?
    ensures var o := Run(ctx, FindOnePlan(ctx.env, t, filter, opt));
      && o == Run(ctx, GuardPlan(Hooks.FindOne, [Arg(filter)], filter))
      && forall k :: 0 <= k < |o.done| ==> !o.done[k].Store?
  {
    var guard := GuardPlan(Hooks.FindOne, [Arg(filter)], filter);
    RunAppend(ctx, guard, FetchOnePlan(ctx.env, FindOneCall(ctx.env, t, filter, opt)));
    RunSpec(ctx, guard);
  }

  /** When the read succeeds but yields nothing, FindOne ends after draining: no post-hook, no error. */
  lemma FindOneNothingFound(ctx: Ctx, t: EntityType, filter: Value, opt: QueryOptions)
    requires Resolvable(t, opt.ref)
    requires Run(ctx, GuardPlan(Hooks.FindOne, [Arg(filter)], filter)).error.None?
    requires var call := FindOneCall(ctx.env, t, filter, opt);
      StepError(ctx, Store(call)).None? && StepError(ctx, DrainCursor(call)).None? && Fetched(ctx.env, call) == []
    ensures Run(ctx, FindOnePlan(ctx.env, t, filter, opt)) ==
      Outcome(GuardPlan(Hooks.FindOne, [Arg(filter)], filter) + FetchPlan(FindOneCall(ctx.env, t, filter, opt)), None)
  {
    var call := FindOneCall(ctx.env, t, filter, opt);
    var guard := GuardPlan(Hooks.FindOne, [Arg(filter)], filter);
    RunAppend(ctx, guard, FetchOnePlan(ctx.env, call));
    RunDone(ctx, guard);
    assert FetchOnePlan(ctx.env, call) == FetchPlan(call);
    RunCompletes(ctx, FetchPlan(call));
  }

  /** Find runs its post-hook after every successful read, with every document, also when there are none. */
  lemma FindAlwaysPostHook(ctx: Ctx, t: EntityType, filter: Value, opt: QueriesOptions)
    requires Resolvable(t, opt.ref)
    requires Run(ctx, GuardPlan(Hooks.Find, [Arg(filter)], filter)).error.None?
    requires var call := FindCall(ctx.env, t, filter, opt);
      StepError(ctx, Store(call)).None? && StepError(ctx, DrainCursor(call)).None?
    ensures var call := FindCall(ctx.env, t, filter, opt);
      Run(ctx, FindPlan(ctx.env, t, filter, opt)).done ==
      GuardPlan(Hooks.Find, [Arg(filter)], filter) + FetchPlan(call) + [PostHook(Hooks.Find, [Rows(Fetched(ctx.env, call))])]
  {
    var call := FindCall(ctx.env, t, filter, opt);
    var guard := GuardPlan(Hooks.Find, [Arg(filter)], filter);
    var post := [PostHook(Hooks.Find, [Rows(Fetched(ctx.env, call))])];
    RunAppend(ctx, guard, FetchAllPlan(ctx.env, call));
    RunDone(ctx, guard);
    RunAppend(ctx, FetchPlan(call), post);
    RunCompletes(ctx, FetchPlan(call));
    Next(ctx, post, post[0]);
    Assoc(guard, FetchPlan(call), post);
  }

  /** FindOne's pipeline built by successive appends. */
  method BuildFindOnePipeline(t: EntityType, query: Doc, opt: QueryOptions) returns (pipeline: seq<Stage>)
    requires Resolvable(t, opt.ref)
    ensures pipeline == FindOnePipeline(t, query, opt)
  {
    pipeline := BuildHead(t, query, opt.ref, opt.projection, opt.sort);
    pipeline := pipeline + [Limit(1)];
  }

  /** Find's pipeline built by successive appends. */
  method BuildFindPipeline(t: EntityType, query: Doc, opt: QueriesOptions) returns (pipeline: seq<Stage>)
    requires Resolvable(t, opt.ref)
    ensures pipeline == FindPipeline(t, query, opt)
  {
    pipeline := BuildHead(t, query, opt.ref, opt.projection, opt.sort);
    if opt.skip != 0 {
      pipeline := pipeline + [Skip(opt.skip)];
    }
    if opt.limit != 0 {
      pipeline := pipeline + [Limit(opt.limit)];
    }
  }

  /** The read of FindOne: no document means no post-hook and no error; any error discards the document. */
  method FetchOne(m: Model, call: Call, env: Env) returns (r: Option<seq<Value>>, err: Option<Error>)
    modifies m`trace
    ensures var o := Run(m.CtxOf(env), FetchOnePlan(env, call));
      m.trace == old(m.trace) + o.done && err == o.error
    ensures var data := Fetched(env, call);
      r == if err.None? && data != [] then Some(data[0]) else None
  {
    ghost var ctx := m.CtxOf(env);
    ghost var t0 := m.trace;
    ghost var data := Fetched(env, call);
    ghost var fetch := FetchPlan(call);
    ghost var post: seq<Step> := if data == [] then [] else [PostHook(Hooks.FindOne, [Row(data[0])])];
    RunAppend(ctx, fetch, post);
    RunDone(ctx, fetch);
    var found, e := m.Fetch(call, env);
    if e.Some? {
      return None, e;
    }
    if found == [] {
      assert fetch + post == fetch;
      return None, None;
    }
    Assoc(t0, fetch, Run(ctx, post).done);
    err := m.ExecutePostHook(Hooks.FindOne, [Row(found[0])]);
    Next(ctx, post, PostHook(Hooks.FindOne, [Row(found[0])]));
    assert post[1..] == [];
    r := if err.None? then Some(found[0]) else None;
  }

  /** The read of Find: every document, after the post-hook has seen them; any error yields none. */
  method FetchAll(m: Model, call: Call, env: Env) returns (data: seq<seq<Value>>, err: Option<Error>)
    modifies m`trace
    ensures var o := Run(m.CtxOf(env), FetchAllPlan(env, call));
      m.trace == old(m.trace) + o.done && err == o.error
    ensures data == if err.None? then Fetched(env, call) else []
  {
    ghost var ctx := m.CtxOf(env);
    ghost var t0 := m.trace;
    ghost var fetch := FetchPlan(call);
    ghost var post := [PostHook(Hooks.Find, [Rows(Fetched(env, call))])];
    RunAppend(ctx, fetch, post);
    RunDone(ctx, fetch);
    var found, e := m.Fetch(call, env);
    if e.Some? {
      return [], e;
    }
    Assoc(t0, fetch, Run(ctx, post).done);
    err := m.ExecutePostHook(Hooks.Find, [Rows(found)]);
    Next(ctx, post, PostHook(Hooks.Find, [Rows(found)]));
    assert post[1..] == [];
    data := if err.None? then found else [];
  }

  /**
   * FindOne: the first document the pipeline yields, or nothing, without
   * an error and without the post-hook, when it yields none. Any error
   * discards what was read.
   */
  method FindOne(m: Model, filter: Value, opts: seq<QueryOptions>, env: Env) returns (r: Option<seq<Value>>, err: Option<Error>)
    requires Resolvable(m.entity, FirstQueryOptions(opts).ref)
    modifies m`trace
    ensures var o := Run(m.CtxOf(env), FindOnePlan(env, m.entity, filter, FirstQueryOptions(opts)));
      m.trace == old(m.trace) + o.done && err == o.error
    ensures var data := Fetched(env, FindOneCall(env, m.entity, filter, FirstQueryOptions(opts)));
      r == if err.None? && data != [] then Some(data[0]) else None
  {
    var opt := FirstQueryOptions(opts);
    ghost var ctx := m.CtxOf(env);
    ghost var t0 := m.trace;
    ghost var guard := GuardPlan(Hooks.FindOne, [Arg(filter)], filter);
    ghost var read := FetchOnePlan(env, FindOneCall(env, m.entity, filter, opt));
    RunAppend(ctx, guard, read);
    var query := m.Guard(Hooks.FindOne, [Arg(filter)], filter, env);
    if query.Err? {
      return None, Some(query.error);
    }
    var pipeline := BuildFindOnePipeline(m.entity, query.value, opt);
    Assoc(t0, guard, Run(ctx, read).done);
    r, err := FetchOne(m, Call.Aggregate(pipeline), env);
  }

  /** Find: every document the pipeline yields, after the post-hook has seen them; any error yields none. */
  method Find(m: Model, filter: Value, opts: seq<QueriesOptions>, env: Env) returns (data: seq<seq<Value>>, err: Option<Error>)
    requires Resolvable(m.entity, FirstQueriesOptions(opts).ref)
    modifies m`trace
    ensures var o := Run(m.CtxOf(env), FindPlan(env, m.entity, filter, FirstQueriesOptions(opts)));
      m.trace == old(m.trace) + o.done && err == o.error
    ensures data == if err.None? then Fetched(env, FindCall(env, m.entity, filter, FirstQueriesOptions(opts))) else []
  {
    var opt := FirstQueriesOptions(opts);
    ghost var ctx := m.CtxOf(env);
    ghost var t0 := m.trace;
    ghost var guard := GuardPlan(Hooks.Find, [Arg(filter)], filter);
    ghost var read := FetchAllPlan(env, FindCall(env, m.entity, filter, opt));
    RunAppend(ctx, guard, read);
    var query := m.Guard(Hooks.Find, [Arg(filter)], filter, env);
    if query.Err? {
      return [], Some(query.error);
    }
    var pipeline := BuildFindPipeline(m.entity, query.value, opt);
    Assoc(t0, guard, Run(ctx, read).done);
    data, err := FetchAll(m, Call.Aggregate(pipeline), env);
  }
}
