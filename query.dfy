/**
 * Reads without population: the translation of the caller's options into
 * driver find options, Find through a cursor, FindOne through a single
 * result whose "no documents" outcome is not an error, FindByID and Count.
 * None of them runs hooks or the filter check.
 */
module Query {
  import opened Values
  import opened Driver
  import opened Model

  /** QueryOptions: sort and projection, None is nil. */
  datatype QueryOptions = QueryOptions(sort: Option<Doc>, projection: Option<Doc>)

  /** QueriesOptions: also skip and limit, where 0 means "not set". */
  datatype QueriesOptions = QueriesOptions(sort: Option<Doc>, skip: int, limit: int, projection: Option<Doc>)

  /** The find-one options the caller's options stand for. */
  function FindOneOptionsOf(opt: QueryOptions): (r: FindOneOptions)
    ensures r.projection.Some? <==> opt.projection.Some?
    ensures r.sort.Some? <==> opt.sort.Some?
    ensures r.projection.Some? ==> r.projection.value == opt.projection.value
    ensures r.sort.Some? ==> r.sort.value == opt.sort.value
  {
    FindOneOptions(opt.projection, opt.sort)
  }

  /** The find options the caller's options stand for: skip and limit only when non-zero. */
  function FindOptionsOf(opt: QueriesOptions): (r: FindOptions)
    ensures r.sort.Some? <==> opt.sort.Some?
    ensures r.projection.Some? <==> opt.projection.Some?
    ensures r.skip.Some? <==> opt.skip != 0
    ensures r.limit.Some? <==> opt.limit != 0
    ensures r.sort.Some? ==> r.sort.value == opt.sort.value
    ensures r.projection.Some? ==> r.projection.value == opt.projection.value
    ensures r.skip.Some? ==> r.skip.value == opt.skip
    ensures r.limit.Some? ==> r.limit.value == opt.limit
  {
    FindOptions(opt.sort, opt.projection, if opt.skip != 0 then Some(opt.skip) else None, if opt.limit != 0 then Some(opt.limit) else None)
  }

  /** ParseFindOneOptions: a fresh builder on which projection, then sort, are set when non-nil. */
  method ParseFindOneOptions(opt: QueryOptions) returns (opts: FindOneOptions)
    ensures opts == FindOneOptionsOf(opt)
  {
    opts := FindOneOptions(None, None);
    if opt.projection.Some? {
      opts := opts.(projection := opt.projection);
    }
    if opt.sort.Some? {
      opts := opts.(sort := opt.sort);
    }
  }

  /** ParseFindOptions: sort and projection when non-nil, skip and limit when non-zero. */
  method ParseFindOptions(opt: QueriesOptions) returns (opts: FindOptions)
    ensures opts == FindOptionsOf(opt)
  {
    opts := FindOptions(None, None, None, None);
    if opt.sort.Some? {
      opts := opts.(sort := opt.sort);
    }
    if opt.projection.Some? {
      opts := opts.(projection := opt.projection);
    }
    if opt.skip != 0 {
      opts := opts.(skip := Some(opt.skip));
    }
    if opt.limit != 0 {
      opts := opts.(limit := Some(opt.limit));
    }
  }

  /** One driver options object per options argument, in order. */
  function AllFindOptions(opt: seq<QueriesOptions>): (r: seq<FindOptions>)
    ensures |r| == |opt| && forall i :: 0 <= i < |opt| ==> r[i] == FindOptionsOf(opt[i])
  {
    seq(|opt|, i requires 0 <= i < |opt| => FindOptionsOf(opt[i]))
  }

  function AllFindOneOptions(opt: seq<QueryOptions>): (r: seq<FindOneOptions>)
    ensures |r| == |opt| && forall i :: 0 <= i < |opt| ==> r[i] == FindOneOptionsOf(opt[i])
  {
    seq(|opt|, i requires 0 <= i < |opt| => FindOneOptionsOf(opt[i]))
  }

  /** The loop that translates every options argument for Find. */
  method ParseAllFindOptions(opt: seq<QueriesOptions>) returns (opts: seq<FindOptions>)
    ensures opts == AllFindOptions(opt)
  {
    opts := [];
    var i := 0;
    while i < |opt|
      invariant i <= |opt|
      invariant opts == AllFindOptions(opt[..i])
    {
      var o := ParseFindOptions(opt[i]);
      assert opt[..i + 1][..i] == opt[..i] && opt[..i + 1][i] == opt[i];
      opts := opts + [o];
      i := i + 1;
    }
    assert opt[..i] == opt;
  }

  /** The loop that translates every options argument for FindOne. */
  method ParseAllFindOneOptions(opt: seq<QueryOptions>) returns (opts: seq<FindOneOptions>)
    ensures opts == AllFindOneOptions(opt)
  {
    opts := [];
    var i := 0;
    while i < |opt|
      invariant i <= |opt|
      invariant opts == AllFindOneOptions(opt[..i])
    {
      var o := ParseFindOneOptions(opt[i]);
      assert opt[..i + 1][..i] == opt[..i] && opt[..i + 1][i] == opt[i];
      opts := opts + [o];
      i := i + 1;
    }
    assert opt[..i] == opt;
  }

  // ----- Find -----

  function FindCall(env: Env, filter: Value, opt: seq<QueriesOptions>): Call {
    FindMany(QueryOf(env, filter), AllFindOptions(opt))
  }

  /** Find: the conversion of the filter, the find call, draining its cursor. */
  function FindPlan(env: Env, filter: Value, opt: seq<QueriesOptions>): seq<Step> {
    [Convert(filter)] + FetchPlan(FindCall(env, filter, opt))
  }

  /**
   * Find: the documents decoded before the first failure, returned also
   * when the drain fails; none when the conversion or the call fails.
   */
  method Find(m: Model, filter: Value, opt: seq<QueriesOptions>, env: Env) returns (data: seq<seq<Value>>, err: Option<Error>)
    modifies m`trace
    ensures var o := Run(m.CtxOf(env), FindPlan(env, filter, opt));
      m.trace == old(m.trace) + o.done && err == o.error
    ensures ToDoc(env, filter).Err? ==> data == []
    ensures ToDoc(env, filter).Ok? ==> data == Drained(CursorOf(env.store(FindCall(env, filter, opt))))
  {
    ghost var ctx := m.CtxOf(env);
    ghost var t0 := m.trace;
    ghost var plan := FindPlan(env, filter, opt);
    var query := m.ConvertFilter(filter, env);
    Next(ctx, plan, Convert(filter));
    if query.Err? {
      return [], Some(query.error);
    }
    var opts := ParseAllFindOptions(opt);
    assert plan[1..] == FetchPlan(FindMany(query.value, opts));
    Assoc(t0, [Convert(filter)], Run(ctx, plan[1..]).done);
    data, err := m.Fetch(FindMany(query.value, opts), env);
  }

  /** A drain that fails at document `k` hands back the `k` documents before it and that document's error. */
  lemma {:induction false} PartialOnDecodeError(c: Cursor, k: nat)
    requires k < |c.docs| && c.docs[k].Err?
    requires forall j :: 0 <= j < k ==> c.docs[j].Ok?
    ensures |Drained(c)| == k && forall j :: 0 <= j < k ==> Drained(c)[j] == c.docs[j].value
    ensures DrainError(c) == Some(c.docs[k].error)
  {
    FirstBadAt(c.docs, k);
  }

  /** The first failing document is the one before which all decode. */
  lemma {:induction false} FirstBadAt(docs: seq<Result<seq<Value>>>, k: nat)
    requires k < |docs| && docs[k].Err?
    requires forall j :: 0 <= j < k ==> docs[j].Ok?
    ensures FirstBad(docs) == Some(k)
  {
    if k > 0 {
      assert docs[0].Ok?;
      FirstBadAt(docs[1..], k - 1);
    }
  }

  // ----- FindOne, FindByID, Count -----

  function FindOneCall(env: Env, filter: Value, opt: seq<QueryOptions>): Call {
    FindFirst(QueryOf(env, filter), AllFindOneOptions(opt))
  }

  /** FindOne: the conversion of the filter, then the find-one call. */
  function FindOnePlan(env: Env, filter: Value, opt: seq<QueryOptions>): seq<Step> {
    [Convert(filter), Store(FindOneCall(env, filter, opt))]
  }

  /** The document a find-one reply carries; "no documents" (or a reply of another kind) carries none. */
  function SingleOf(r: Result<Reply>): Option<seq<Value>> {
    if r.Ok? && r.value.Single? then r.value.row else None
  }

  /**
   * FindOne: the document found; "no documents" is neither a document nor
   * an error; any other failure is returned without a document.
   */
  method FindOne(m: Model, filter: Value, opt: seq<QueryOptions>, env: Env) returns (r: Option<seq<Value>>, err: Option<Error>)
    modifies m`trace
    ensures var o := Run(m.CtxOf(env), FindOnePlan(env, filter, opt));
      m.trace == old(m.trace) + o.done && err == o.error
    ensures r == if err.None? then SingleOf(env.store(FindOneCall(env, filter, opt))) else None
  {
    ghost var ctx := m.CtxOf(env);
    ghost var plan := FindOnePlan(env, filter, opt);
    var query := m.ConvertFilter(filter, env);
    Next(ctx, plan, Convert(filter));
    if query.Err? {
      return None, Some(query.error);
    }
    var opts := ParseAllFindOneOptions(opt);
    var reply := m.Call(FindFirst(query.value, opts), env);
    Next(ctx, plan[1..], Store(FindFirst(query.value, opts)));
    assert plan[1..][1..] == [];
    if reply.Err? {
      return None, Some(reply.error);
    }
    r, err := SingleOf(reply), None;
  }

  /** FindOne with a query that matches nothing succeeds with no document. */
  lemma NoDocumentsIsNotAnError(ctx: Ctx, filter: Value, opt: seq<QueryOptions>)
    requires ToDoc(ctx.env, filter).Ok?
    requires ctx.env.store(FindOneCall(ctx.env, filter, opt)) == Ok(Single(None))
    ensures Run(ctx, FindOnePlan(ctx.env, filter, opt)) == Outcome(FindOnePlan(ctx.env, filter, opt), None)
    ensures SingleOf(ctx.env.store(FindOneCall(ctx.env, filter, opt))) == None
  {
    var plan := FindOnePlan(ctx.env, filter, opt);
    Next(ctx, plan, plan[0]);
    Next(ctx, plan[1..], plan[1]);
    assert plan[1..][1..] == [];
    assert [plan[0]] + ([plan[1]] + []) == plan;
  }

  /** The filter FindByID builds: `{_id: id}`. */
  function IdFilter(id: ObjectId): Value {
    Map([("_id", Oid(id))])
  }

  /**
   * FindByID: an id that is not a hex ObjectID is refused before any step;
   * otherwise exactly FindOne on `{_id: id}`.
   */
  method FindByID(m: Model, id: string, opt: seq<QueryOptions>, env: Env) returns (r: Option<seq<Value>>, err: Option<Error>)
    modifies m`trace
    ensures env.fromHex(id).Err? ==> r == None && err == Some(env.fromHex(id).error) && m.trace == old(m.trace)
    ensures env.fromHex(id).Ok? ==>
      var filter := IdFilter(env.fromHex(id).value);
      var o := Run(m.CtxOf(env), FindOnePlan(env, filter, opt));
      && m.trace == old(m.trace) + o.done && err == o.error
      && r == if err.None? then SingleOf(env.store(FindOneCall(env, filter, opt))) else None
  {
    var oid := env.fromHex(id);
    if oid.Err? {
      return None, Some(oid.error);
    }
    r, err := FindOne(m, IdFilter(oid.value), opt, env);
  }

  function CountCall(env: Env, filter: Value): Call {
    CountDocuments(QueryOf(env, filter))
  }

  /** Count: the conversion of the filter, then the count call. */
  function CountPlan(env: Env, filter: Value): seq<Step> {
    [Convert(filter), Store(CountCall(env, filter))]
  }

  /** The number a count reply carries; any other reply counts nothing. */
  function CountOf(r: Result<Reply>): int {
    if r.Ok? && r.value.Counted? then r.value.n else 0
  }

  /** Count: the number of matching documents, or 0 and the error. */
  method Count(m: Model, filter: Value, env: Env) returns (n: int, err: Option<Error>)
    modifies m`trace
    ensures var o := Run(m.CtxOf(env), CountPlan(env, filter));
      m.trace == old(m.trace) + o.done && err == o.error
    ensures n == if err.None? then CountOf(env.store(CountCall(env, filter))) else 0
  {
    ghost var ctx := m.CtxOf(env);
    ghost var plan := CountPlan(env, filter);
    var query := m.ConvertFilter(filter, env);
    Next(ctx, plan, Convert(filter));
    if query.Err? {
      return 0, Some(query.error);
    }
    var reply := m.Call(CountDocuments(query.value), env);
    Next(ctx, plan[1..], Store(CountDocuments(query.value)));
    assert plan[1..][1..] == [];
    if reply.Err? {
      return 0, Some(reply.error);
    }
    n, err := CountOf(reply), None;
  }

  /** A conversion failure ends Find, FindOne and Count before the store is called. */
  lemma ConversionFailsFirst(ctx: Ctx, filter: Value, opt: seq<QueriesOptions>, opt1: seq<QueryOptions>)
    requires ToDoc(ctx.env, filter).Err?
    ensures Run(ctx, FindPlan(ctx.env, filter, opt)) == Outcome([Convert(filter)], Some(ToDoc(ctx.env, filter).error))
    ensures Run(ctx, FindOnePlan(ctx.env, filter, opt1)) == Outcome([Convert(filter)], Some(ToDoc(ctx.env, filter).error))
    ensures Run(ctx, CountPlan(ctx.env, filter)) == Outcome([Convert(filter)], Some(ToDoc(ctx.env, filter).error))
  {
    Next(ctx, FindPlan(ctx.env, filter, opt), Convert(filter));
    Next(ctx, FindOnePlan(ctx.env, filter, opt1), Convert(filter));
    Next(ctx, CountPlan(ctx.env, filter), Convert(filter));
  }
}
