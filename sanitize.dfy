/**
 * The filter sanitizer: a recursive walk over a filter value that rejects
 * any map key on a fixed denylist of query operators.
 */
module Sanitize {
  import opened Values

  /** The 24 denylisted operators, in the order the source lists them. */
  const DangerousOperators: seq<string> := [
    // comparison
    "$gt", "$gte", "$lt", "$lte", "$ne", "$nin", "$in",
    // logical
    "$not", "$nor", "$or", "$and",
    // element
    "$exists", "$type",
    // evaluation
    "$where", "$expr", "$jsonSchema", "$text", "$mod", "$regex",
    // server-side JavaScript
    "$function", "$accumulator",
    // array
    "$all", "$elemMatch", "$size"
  ]

  /** A key is dangerous when it starts with '$' and is on the denylist. */
  predicate IsDangerousOperator(key: string) {
    |key| > 0 && key[0] == '$' && key in DangerousOperators
  }

  const MessagePrefix: string := "dangerous MongoDB operator detected in filter: "

  /** The text of an ErrDangerousOperator: the fixed prefix followed by the operator. */
  function ErrorMessage(operator: string): (msg: string)
    ensures |msg| == |MessagePrefix| + |operator|
    ensures msg[..|MessagePrefix|] == MessagePrefix && msg[|MessagePrefix|..] == operator
  {
    MessagePrefix + operator
  }

  /** errors.As(err, *ErrDangerousOperator) */
  predicate IsDangerousOperatorError(err: Error) {
    err.DangerousOperator?
  }

  /**
   * `k` is a map key somewhere in `v`, reachable through pointers and
   * interfaces, map values, slice and array elements and exported struct
   * fields: the places the sanitizer is meant to look.
   */
  ghost predicate KeyOccurs(v: Value, k: string)
    decreases v
  {
    match v
    case Ptr(t) => KeyOccurs(t, k)
    case Iface(t) => KeyOccurs(t, k)
    case Map(es) => exists j :: 0 <= j < |es| && (es[j].0 == k || KeyOccurs(es[j].1, k))
    case List(xs) => exists j :: 0 <= j < |xs| && KeyOccurs(xs[j], k)
    case Array(xs) => exists j :: 0 <= j < |xs| && KeyOccurs(xs[j], k)
    case Struct(fs) => exists j :: 0 <= j < |fs| && fs[j].exported && KeyOccurs(fs[j].value, k)
    case _ => false
  }

  ghost predicate ContainsDangerousKey(v: Value) {
    exists k :: KeyOccurs(v, k) && IsDangerousOperator(k)
  }

  /**
   * SanitizeFilter: nil is safe; otherwise the walk below. An error names a
   * dangerous key of the filter (soundness), and a filter holding any
   * dangerous key is rejected (completeness).
   */
  function SanitizeFilter(filter: Value): (r: Option<Error>)
    ensures r.Some? ==> IsDangerousOperatorError(r.value)
    ensures r.Some? ==> IsDangerousOperator(r.value.operator) && KeyOccurs(filter, r.value.operator)
    ensures r.Some? <==> ContainsDangerousKey(filter)
  {
    if filter == Nil then None else SanitizeValue(filter)
  }

  /** sanitizeValue: pointers and interfaces are followed until nil or a concrete value. */
  function SanitizeValue(v: Value): (r: Option<Error>)
    ensures r.Some? ==> r.value.DangerousOperator?
    ensures r.Some? ==> IsDangerousOperator(r.value.operator) && KeyOccurs(v, r.value.operator)
    ensures r.None? ==> forall k :: KeyOccurs(v, k) ==> !IsDangerousOperator(k)
    decreases v, 1
  {
    match v
    case Nil => None
    case NilRef => None
    case Ptr(t) => SanitizeValue(t)
    case Iface(t) => SanitizeValue(t)
    case Map(_) => SanitizeMap(v, 0)
    case List(_) => SanitizeSlice(v, 0)
    case Array(_) => SanitizeSlice(v, 0)
    case Struct(_) => SanitizeStruct(v, 0)
    case _ => None
  }

  /** sanitizeMap from entry `i` on: each key is checked before its value is walked. */
  function SanitizeMap(v: Value, i: nat): (r: Option<Error>)
    requires v.Map? && i <= |v.entries|
    ensures r.Some? ==> r.value.DangerousOperator? && IsDangerousOperator(r.value.operator)
    ensures r.Some? ==> (exists j :: i <= j < |v.entries| &&
                          (v.entries[j].0 == r.value.operator || KeyOccurs(v.entries[j].1, r.value.operator)))
    ensures r.None? ==> (forall j :: i <= j < |v.entries| ==>
                           && !IsDangerousOperator(v.entries[j].0)
                           && (forall k :: KeyOccurs(v.entries[j].1, k) ==> !IsDangerousOperator(k)))
    decreases v, 0, |v.entries| - i
  {
    if i == |v.entries| then None
    else if IsDangerousOperator(v.entries[i].0) then Some(DangerousOperator(v.entries[i].0))
    else match SanitizeValue(v.entries[i].1)
      case Some(e) => Some(e)
      case None => SanitizeMap(v, i + 1)
  }

  /** sanitizeSlice from element `i` on. */
  function SanitizeSlice(v: Value, i: nat): (r: Option<Error>)
    requires (v.List? || v.Array?) && i <= |v.items|
    ensures r.Some? ==> r.value.DangerousOperator? && IsDangerousOperator(r.value.operator)
    ensures r.Some? ==> exists j :: i <= j < |v.items| && KeyOccurs(v.items[j], r.value.operator)
    ensures r.None? ==> forall j, k :: i <= j < |v.items| && KeyOccurs(v.items[j], k) ==> !IsDangerousOperator(k)
    decreases v, 0, |v.items| - i
  {
    if i == |v.items| then None
    else match SanitizeValue(v.items[i])
      case Some(e) => Some(e)
      case None => SanitizeSlice(v, i + 1)
  }

  /** sanitizeStruct from field `i` on; unexported fields are skipped. */
  function SanitizeStruct(v: Value, i: nat): (r: Option<Error>)
    requires v.Struct? && i <= |v.fields|
    ensures r.Some? ==> r.value.DangerousOperator? && IsDangerousOperator(r.value.operator)
    ensures r.Some? ==> (exists j :: i <= j < |v.fields| && v.fields[j].exported &&
                                    KeyOccurs(v.fields[j].value, r.value.operator))
    ensures r.None? ==> (forall j, k :: (i <= j < |v.fields| && v.fields[j].exported &&
                                         KeyOccurs(v.fields[j].value, k)) ==> !IsDangerousOperator(k))
    decreases v, 0, |v.fields| - i
  {
    if i == |v.fields| then None
    else if !v.fields[i].exported then SanitizeStruct(v, i + 1)
    else match SanitizeValue(v.fields[i].value)
      case Some(e) => Some(e)
      case None => SanitizeStruct(v, i + 1)
  }

  /** Every listed operator starts with '$', so the prefix test never excludes a listed key. */
  lemma DangerousIffListed(key: string)
    ensures IsDangerousOperator(key) <==> key in DangerousOperators
  {
    if key in DangerousOperators {
      var j :| 0 <= j < |DangerousOperators| && DangerousOperators[j] == key;
      assert key[0] == '$';
    }
  }

  /** "$ne", "$gt" and "$where" are dangerous. */
  lemma ListedExamples()
    ensures IsDangerousOperator("$ne") && IsDangerousOperator("$gt") && IsDangerousOperator("$where")
  {
    assert DangerousOperators[4] == "$ne";
    assert DangerousOperators[0] == "$gt";
    assert DangerousOperators[13] == "$where";
  }

  /** Every listed operator is at least three characters long. */
  lemma ListedAreLong(key: string)
    requires key in DangerousOperators
    ensures |key| >= 3
  {
  }

  /** "name" lacks the '$' prefix; "", "$" and "$custom" are not listed. */
  lemma UnlistedExamples()
    ensures !IsDangerousOperator("name") && !IsDangerousOperator("")
    ensures !IsDangerousOperator("$") && !IsDangerousOperator("$custom")
  {
    if "$" in DangerousOperators {
      ListedAreLong("$");
    }
    assert "$custom"[1] == 'c';
    assert forall j :: 0 <= j < |DangerousOperators| && |DangerousOperators[j]| == 7 ==>
      DangerousOperators[j][1] != 'c';
  }

  lemma ErrorMessageExample()
    ensures ErrorMessage("$ne") == "dangerous MongoDB operator detected in filter: $ne"
  {
  }

  /** nil, nil pointers, empty maps and slices and primitives are all safe. */
  lemma TrivialFiltersAreSafe(v: Value)
    requires v.Nil? || v.NilRef? || v == Map([]) || v == List([]) || v == Array([]) || v == Ptr(NilRef)
             || v.Bool? || v.Int? || v.Str? || v.Oid? || v.Time?
    ensures SanitizeFilter(v) == None
  {
  }

  /**
   * A one-entry filter is rejected exactly when its key is dangerous, and then
   * with that key as the operator; the value is never looked at when it is a
   * plain string, so {"price": "$100"} and {"$unknownOp": ...} both pass.
   */
  lemma {:induction false} LoneKey(key: string, s: string)
    ensures SanitizeFilter(Map([(key, Str(s))])) ==
            if IsDangerousOperator(key) then Some(DangerousOperator(key)) else None
  {
    var v := Map([(key, Str(s))]);
    assert v.entries[0] == (key, Str(s));
    assert SanitizeValue(Str(s)) == None;
    assert SanitizeMap(v, 1) == None;
    assert SanitizeValue(v) == SanitizeMap(v, 0);
  }

  /** Each listed operator used as a lone top-level key is reported as itself. */
  lemma EachOperatorRejected(s: string)
    ensures forall op :: op in DangerousOperators ==>
      SanitizeFilter(Map([(op, Str(s))])) == Some(DangerousOperator(op))
  {
    forall op | op in DangerousOperators
      ensures SanitizeFilter(Map([(op, Str(s))])) == Some(DangerousOperator(op))
    {
      DangerousIffListed(op);
      LoneKey(op, s);
    }
  }

  /** The login-bypass filter {"username": "admin", "password": {"$ne": ""}} is rejected with "$ne". */
  lemma AuthBypassRejected()
    ensures SanitizeFilter(Map([("username", Str("admin")), ("password", Map([("$ne", Str(""))]))]))
            == Some(DangerousOperator("$ne"))
  {
    ListedExamples();
    LoneKey("$ne", "");
    assert "username"[0] != '$' && "password"[0] != '$';
    assert SanitizeValue(Map([("$ne", Str(""))])) == Some(DangerousOperator("$ne"));
    assert SanitizeValue(Str("admin")) == None;
    SecondEntryRejected("username", Str("admin"), "password", Map([("$ne", Str(""))]));
  }

  /** A two-entry map whose first entry is safe is rejected with what its second value is rejected with. */
  lemma SecondEntryRejected(k1: string, v1: Value, k2: string, v2: Value)
    requires !IsDangerousOperator(k1) && !IsDangerousOperator(k2)
    requires SanitizeValue(v1) == None && SanitizeValue(v2).Some?
    ensures SanitizeFilter(Map([(k1, v1), (k2, v2)])) == SanitizeValue(v2)
  {
    var outer := Map([(k1, v1), (k2, v2)]);
    assert outer.entries[0] == (k1, v1) && outer.entries[1] == (k2, v2);
    assert SanitizeMap(outer, 1) == SanitizeValue(v2);
    assert SanitizeMap(outer, 0) == SanitizeMap(outer, 1);
    assert SanitizeValue(outer) == SanitizeMap(outer, 0);
  }

  lemma {:induction false} UnexportedFrom(fs: seq<StructField>, j: nat, w: Value, i: nat)
    requires j < |fs| && !fs[j].exported && i <= |fs|
    ensures SanitizeStruct(Struct(fs), i) == SanitizeStruct(Struct(fs[j := StructField(false, w)]), i)
    decreases |fs| - i
  {
    if i < |fs| {
      UnexportedFrom(fs, j, w, i + 1);
      var gs := fs[j := StructField(false, w)];
      if fs[i].exported {
        assert gs[i] == fs[i];
      } else {
        assert SanitizeStruct(Struct(fs), i) == SanitizeStruct(Struct(fs), i + 1);
        assert SanitizeStruct(Struct(gs), i) == SanitizeStruct(Struct(gs), i + 1);
      }
    }
  }

  /** Replacing the value of an unexported struct field never changes the verdict. */
  lemma UnexportedFieldsNeverInspected(fs: seq<StructField>, j: nat, w: Value)
    requires j < |fs| && !fs[j].exported
    ensures SanitizeFilter(Struct(fs)) == SanitizeFilter(Struct(fs[j := StructField(false, w)]))
  {
    UnexportedFrom(fs, j, w, 0);
  }

  /**
   * Go visits map keys in an unspecified order. Which dangerous key gets
   * reported may depend on it, but whether the filter is rejected does not.
   */
  lemma MapOrderIrrelevant(es: seq<(string, Value)>, reordered: seq<(string, Value)>)
    requires multiset(es) == multiset(reordered)
    ensures SanitizeFilter(Map(es)).Some? <==> SanitizeFilter(Map(reordered)).Some?
  {
    forall k ensures KeyOccurs(Map(es), k) ==> KeyOccurs(Map(reordered), k) {
      if KeyOccurs(Map(es), k) {
        var j :| 0 <= j < |es| && (es[j].0 == k || KeyOccurs(es[j].1, k));
        assert es[j] in multiset(reordered);
        var j' :| 0 <= j' < |reordered| && reordered[j'] == es[j];
      }
    }
    forall k ensures KeyOccurs(Map(reordered), k) ==> KeyOccurs(Map(es), k) {
      if KeyOccurs(Map(reordered), k) {
        var j :| 0 <= j < |reordered| && (reordered[j].0 == k || KeyOccurs(reordered[j].1, k));
        assert reordered[j] in multiset(es);
        var j' :| 0 <= j' < |es| && es[j'] == reordered[j];
      }
    }
  }

  /**
   * A bson.D is a slice of structs whose exported Key and Value fields hold
   * plain strings, so its keys are walked as string values and never tested
   * against the denylist: an ordered document with any key passes.
   */
  lemma OrderedDocumentKeysPass(key: string, s: string)
    ensures SanitizeFilter(List([Struct([StructField(true, Str(key)), StructField(true, Str(s))])])) == None
  {
    var e := Struct([StructField(true, Str(key)), StructField(true, Str(s))]);
    assert SanitizeStruct(e, 2) == None;
    assert SanitizeStruct(e, 1) == None;
    assert SanitizeStruct(e, 0) == None;
    assert SanitizeSlice(List([e]), 1) == None;
  }

  /** The `$where` bypass through an ordered document. */
  lemma WhereInOrderedDocumentPasses()
    ensures SanitizeFilter(List([Struct([StructField(true, Str("$where")), StructField(true, Str("1"))])])) == None
  {
    OrderedDocumentKeysPass("$where", "1");
  }
}
