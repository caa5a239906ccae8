/**
 * Hook dispatch: a model keeps ordered lists of pre- and post-hooks; a
 * dispatch picks the hooks registered under one name and returns what the
 * first synchronous one returns, launching the asynchronous ones it passes.
 */
module Hooks {
  import opened Values

  // The hook names the library fires.
  const Find: string := "find"
  const Validate: string := "validate"
  const Save: string := "save"
  const FindOne: string := "findOne"
  const FindOneAndDelete: string := "findOneAndDelete"
  const FindOneAndReplace: string := "findOneAndReplace"
  const FindOneAndUpdate: string := "findOneAndUpdate"
  const Create: string := "create"
  const CreateMany: string := "createMany"
  const Delete: string := "delete"
  const DeleteMany: string := "deleteMany"
  const Update: string := "update"
  const UpdateMany: string := "updateMany"
  const Count: string := "count"

  /** A hook function: what it returns for the parameters it is given. */
  type HookFn = seq<Param> -> Option<Error>

  datatype Hook = Hook(name: string, fn: HookFn, isAsync: bool)

  /** The outcome of a dispatch: its error result and the asynchronous hooks it launched, in order. */
  datatype Dispatch = Dispatch(result: Option<Error>, launched: seq<Hook>)

  /** The hooks registered under `name`, in registration order. */
  function Matching(hooks: seq<Hook>, name: string): (r: seq<Hook>)
    ensures |r| <= |hooks|
    ensures forall j :: 0 <= j < |r| ==> r[j].name == name
  {
    if hooks == [] then []
    else (if hooks[0].name == name then [hooks[0]] else []) + Matching(hooks[1..], name)
  }

  /** Filtering distributes over concatenation, so it keeps the relative order of the hooks it keeps. */
  lemma {:induction false} MatchingAppend(a: seq<Hook>, b: seq<Hook>, name: string)
    ensures Matching(a + b, name) == Matching(a, name) + Matching(b, name)
  {
    if a == [] {
      assert a + b == b;
    } else {
      assert (a + b)[0] == a[0] && (a + b)[1..] == a[1..] + b;
      MatchingAppend(a[1..], b, name);
    }
  }

  /** The first-match loop over already filtered hooks. */
  function RunFirst(ms: seq<Hook>, params: seq<Param>): Dispatch {
    if ms == [] then Dispatch(None, [])
    else if ms[0].isAsync then
      var rest := RunFirst(ms[1..], params);
      Dispatch(rest.result, [ms[0]] + rest.launched)
    else Dispatch(ms[0].fn(params), [])
  }

  /** ExecutePreHook / ExecutePostHook over the given hook list. */
  function Execute(hooks: seq<Hook>, name: string, params: seq<Param>): Dispatch {
    RunFirst(Matching(hooks, name), params)
  }

  /**
   * The dispatch loop: walk the hooks registered under `name`, launching the
   * asynchronous ones, and return what the first synchronous one returns.
   */
  method Fire(hooks: seq<Hook>, name: string, params: seq<Param>) returns (err: Option<Error>)
    ensures err == Execute(hooks, name, params).result
  {
    var ms := Matching(hooks, name);
    var i := 0;
    while i < |ms|
      invariant i <= |ms|
      invariant RunFirst(ms, params).result == RunFirst(ms[i..], params).result
    {
      if !ms[i].isAsync {
        return ms[i].fn(params);
      }
      // an asynchronous hook is launched and not waited for
      assert ms[i..][1..] == ms[i + 1..];
      i := i + 1;
    }
    return None;
  }

  /** The position of the first synchronous hook, if any. */
  function FirstSync(ms: seq<Hook>): (r: Option<nat>)
    ensures r.Some? ==> r.value < |ms| && !ms[r.value].isAsync
    ensures forall j :: 0 <= j < |ms| && (r.None? || j < r.value) ==> ms[j].isAsync
  {
    if ms == [] then None
    else if !ms[0].isAsync then Some(0)
    else match FirstSync(ms[1..])
      case None => None
      case Some(j) => Some(j + 1)
  }

  /**
   * The dispatch returns exactly what the first synchronous hook returns (nil
   * when there is none) and launches exactly the asynchronous hooks before it.
   */
  lemma {:induction false} RunFirstSpec(ms: seq<Hook>, params: seq<Param>)
    ensures FirstSync(ms).None? ==> RunFirst(ms, params) == Dispatch(None, ms)
    ensures FirstSync(ms).Some? ==>
              RunFirst(ms, params) == Dispatch(ms[FirstSync(ms).value].fn(params), ms[..FirstSync(ms).value])
  {
    if ms != [] && ms[0].isAsync {
      RunFirstSpec(ms[1..], params);
      assert ms == [ms[0]] + ms[1..];
      if FirstSync(ms[1..]).Some? {
        var j := FirstSync(ms[1..]).value;
        assert ms[..j + 1] == [ms[0]] + ms[1..][..j];
      }
    }
  }

  /** Dispatch in terms of the registered hooks. */
  lemma ExecuteSpec(hooks: seq<Hook>, name: string, params: seq<Param>)
    ensures var ms := Matching(hooks, name);
      && (FirstSync(ms).None? ==> Execute(hooks, name, params) == Dispatch(None, ms))
      && (FirstSync(ms).Some? ==>
            Execute(hooks, name, params) == Dispatch(ms[FirstSync(ms).value].fn(params), ms[..FirstSync(ms).value]))
  {
    RunFirstSpec(Matching(hooks, name), params);
  }

  lemma {:induction false} FirstSyncAppend(a: seq<Hook>, b: seq<Hook>)
    requires FirstSync(a).Some?
    ensures FirstSync(a + b) == FirstSync(a)
  {
    if !a[0].isAsync {
      assert (a + b)[0] == a[0];
    } else {
      assert (a + b)[1..] == a[1..] + b;
      FirstSyncAppend(a[1..], b);
    }
  }

  /**
   * Once a synchronous hook is registered under `name`, hooks registered
   * later never run for that name and never change the result.
   */
  lemma LaterHooksIrrelevant(hooks: seq<Hook>, later: seq<Hook>, name: string, params: seq<Param>)
    requires FirstSync(Matching(hooks, name)).Some?
    ensures Execute(hooks + later, name, params) == Execute(hooks, name, params)
  {
    var ms := Matching(hooks, name);
    MatchingAppend(hooks, later, name);
    FirstSyncAppend(ms, Matching(later, name));
    ExecuteSpec(hooks, name, params);
    ExecuteSpec(hooks + later, name, params);
    var j := FirstSync(ms).value;
    assert (ms + Matching(later, name))[..j] == ms[..j];
  }

  /** Hooks registered under other names never affect a dispatch. */
  lemma OtherNamesIrrelevant(hooks: seq<Hook>, h: Hook, name: string, params: seq<Param>)
    requires h.name != name
    ensures Execute(hooks + [h], name, params) == Execute(hooks, name, params)
    ensures Execute([h] + hooks, name, params) == Execute(hooks, name, params)
  {
    MatchingAppend(hooks, [h], name);
    MatchingAppend([h], hooks, name);
    assert Matching(hooks, name) + [] == Matching(hooks, name);
    assert [] + Matching(hooks, name) == Matching(hooks, name);
  }
}
