/**
 * Per-type reflection metadata: the flattened field list of an entity type
 * (embedded structs contribute their promoted fields), three lookup tables
 * built from it, and a compute-if-absent cache keyed by type.
 */
module TypeCache {
  import opened Values
  import opened Strings

  /** What a field's type looks like to the flattener: a struct (with its fields) or anything else. */
  datatype FieldKind = Scalar | StructOf(fields: seq<FieldDecl>)

  /** A declared struct field: its Go name, its `bson`, `mongoose` and `ref` tags and its type. */
  datatype FieldDecl = FieldDecl(
    name: string,
    bsonTag: string,
    mongooseTag: string,
    refTag: string,
    typeName: string,
    anonymous: bool,
    kind: FieldKind)

  /**
   * An entity (document) type: its struct name, its fields, and the value of
   * its `CollectionName()` method when it has one.
   */
  datatype EntityType = EntityType(name: string, fields: seq<FieldDecl>, collectionNameMethod: Option<string>)

  /** One entry of the flattened field list. */
  datatype FieldInfo = FieldInfo(
    index: nat,
    name: string,
    bsonTag: string,
    mongooseTag: string,
    typeName: string,
    refTag: string,
    indexPath: seq<nat>)

  /** A `$lookup` target: the collection, the local key and the output field. */
  datatype RefPath = RefPath(from: string, foreignKey: string, asField: string)

  /** Lookup tables hold positions in `fields` where the source holds pointers into it. */
  datatype TypeInfo = TypeInfo(
    collectionName: string,
    fields: seq<FieldInfo>,
    fieldsByName: map<string, nat>,
    fieldsByBson: map<string, nat>,
    refPaths: map<string, RefPath>)

  /** The collection name: the `CollectionName()` result, else the struct name. */
  function CollectionName(t: EntityType): string {
    match t.collectionNameMethod
    case Some(n) => n
    case None => t.name
  }

  /** Only an anonymous field of struct kind has its fields promoted. */
  predicate Embeds(f: FieldDecl) {
    f.anonymous && f.kind.StructOf?
  }

  function Describe(f: FieldDecl, i: nat, path: seq<nat>): FieldInfo {
    FieldInfo(i, f.name, f.bsonTag, f.mongooseTag, f.typeName, f.refTag, path)
  }

  /** A path lies strictly under `path` and ends with the entry's own index. */
  predicate Under(e: FieldInfo, path: seq<nat>) {
    |e.indexPath| > |path| && e.indexPath[..|path|] == path && e.indexPath[|e.indexPath| - 1] == e.index
  }

  /**
   * The flattened fields of `fs[i..]` under `path`, in pre-order: each field,
   * then the promoted fields of its embedded struct, then the next field.
   * Direct children are exactly the entries one level below `path`.
   */
  function CollectFrom(fs: seq<FieldDecl>, path: seq<nat>, i: nat): seq<FieldInfo>
    requires i <= |fs|
    decreases fs, 1, |fs| - i
  {
    if i == |fs| then []
    else [Describe(fs[i], i, path + [i])] + Promoted(fs[i], path + [i]) + CollectFrom(fs, path, i + 1)
  }

  /** The promoted fields of `f`, whose own path is `path`; empty unless `f` is an embedded struct. */
  function Promoted(f: FieldDecl, path: seq<nat>): seq<FieldInfo>
    decreases f, 0
  {
    if Embeds(f) then CollectFrom(f.kind.fields, path, 0) else []
  }

  function Collect(t: EntityType): seq<FieldInfo> {
    CollectFrom(t.fields, [], 0)
  }

  /**
   * Every flattened entry lies under the path it was collected at and its
   * path ends with its own index; the entries one level down are exactly the
   * fields of `fs[i..]` themselves, and the first entry is `fs[i]`.
   */
  lemma {:induction false} CollectFromPaths(fs: seq<FieldDecl>, path: seq<nat>, i: nat)
    requires i <= |fs|
    ensures forall e :: e in CollectFrom(fs, path, i) ==> Under(e, path)
    ensures forall e :: e in CollectFrom(fs, path, i) && |e.indexPath| == |path| + 1 ==>
              i <= e.index < |fs| && e == Describe(fs[e.index], e.index, path + [e.index])
    ensures i < |fs| ==> |CollectFrom(fs, path, i)| > 0 && CollectFrom(fs, path, i)[0] == Describe(fs[i], i, path + [i])
    decreases fs, 1, |fs| - i
  {
    if i < |fs| {
      var here := path + [i];
      PromotedPaths(fs[i], here);
      CollectFromPaths(fs, path, i + 1);
      var r := CollectFrom(fs, path, i);
      assert r == [Describe(fs[i], i, here)] + Promoted(fs[i], here) + CollectFrom(fs, path, i + 1);
      forall e | e in r ensures Under(e, path) {
        if e in Promoted(fs[i], here) {
          assert e.indexPath[..|here|] == here;
          assert e.indexPath[..|path|] == here[..|path|];
        }
      }
    }
  }

  /** Promoted entries lie strictly under the embedding field's path; only an embedded struct promotes. */
  lemma {:induction false} PromotedPaths(f: FieldDecl, path: seq<nat>)
    ensures forall e :: e in Promoted(f, path) ==> Under(e, path)
    ensures !Embeds(f) ==> Promoted(f, path) == []
    decreases f, 0
  {
    if Embeds(f) {
      CollectFromPaths(f.kind.fields, path, 0);
    }
  }

  /**
   * collectFieldsRecursive: appends the flattened fields of `fs` under
   * `indexPath` to `fields`.
   */
  method CollectFieldsRecursive(fs: seq<FieldDecl>, fields: seq<FieldInfo>, indexPath: seq<nat>)
    returns (out: seq<FieldInfo>)
    ensures out == fields + CollectFrom(fs, indexPath, 0)
    decreases fs
  {
    out := fields;
    var i := 0;
    while i < |fs|
      invariant i <= |fs|
      invariant out + CollectFrom(fs, indexPath, i) == fields + CollectFrom(fs, indexPath, 0)
    {
      var currentIndex := indexPath + [i];
      var before := out;
      out := out + [Describe(fs[i], i, currentIndex)];
      if Embeds(fs[i]) {
        out := CollectFieldsRecursive(fs[i].kind.fields, out, currentIndex);
      }
      assert out == before + [Describe(fs[i], i, currentIndex)] + Promoted(fs[i], currentIndex);
      assert CollectFrom(fs, indexPath, i) ==
        [Describe(fs[i], i, currentIndex)] + Promoted(fs[i], currentIndex) + CollectFrom(fs, indexPath, i + 1);
      i := i + 1;
    }
  }

  /**
   * parseRefPath: a ref tag "fk->collection" split at its first "->". Nothing
   * comes out when either tag is empty or the text before the arrow is empty
   * (which includes a tag with no arrow at all).
   */
  function ParseRefPath(f: FieldInfo): (r: Option<RefPath>)
    ensures r.Some? ==> f.refTag != "" && f.bsonTag != "" && r.value.asField == f.bsonTag
    ensures r.Some? ==> f.refTag == r.value.foreignKey + "->" + r.value.from
    ensures r.Some? ==> r.value.foreignKey != "" && Free(r.value.foreignKey, "->")
  {
    if f.refTag == "" then None
    else if f.bsonTag == "" then None
    else match Index(f.refTag, "->")
      case None => None
      case Some(i) =>
        if i == 0 then None
        else
          FreeBefore(f.refTag, "->", i);
          Around(f.refTag, "->", i);
          Some(RefPath(f.refTag[i + 2..], f.refTag[..i], f.bsonTag))
  }

  lemma FirstArrowAfter(fk: string, from: string)
    requires Free(fk, "->")
    ensures Index(fk + "->" + from, "->") == Some(|fk|)
  {
    var s := fk + "->" + from;
    assert OccursAt(s, "->", |fk|) by {
      assert s[|fk|..|fk| + 2] == "->";
    }
    forall j | 0 <= j < |fk| ensures !OccursAt(s, "->", j) {
      if j + 2 <= |fk| {
        assert s[j..j + 2] == fk[j..j + 2];
        assert !OccursAt(fk, "->", j);
      } else {
        assert s[j + 1] == '-';
      }
    }
  }

  /** The inverse direction: any "fk->from" with a non-empty, arrow-free fk is parsed back. */
  lemma ParseRefPathRoundTrip(f: FieldInfo, fk: string, from: string)
    requires fk != "" && Free(fk, "->") && f.bsonTag != ""
    requires f.refTag == fk + "->" + from
    ensures ParseRefPath(f) == Some(RefPath(from, fk, f.bsonTag))
  {
    FirstArrowAfter(fk, from);
    var s := f.refTag;
    assert s[..|fk|] == fk;
    assert s[|fk| + 2..] == from;
  }

  /** A ref tag with no arrow, or one that begins with it, yields nothing. */
  lemma ParseRefPathRejects(f: FieldInfo)
    requires Free(f.refTag, "->") || (|f.refTag| >= 2 && f.refTag[..2] == "->")
    ensures ParseRefPath(f) == None
  {
    if !Free(f.refTag, "->") {
      assert OccursAt(f.refTag, "->", 0);
    }
  }

  /** The example of the ref-path tests: "authorId->authors" with bson tag "authorId". */
  lemma ParseRefPathExample(f: FieldInfo)
    requires f.refTag == "authorId->authors" && f.bsonTag == "authorId"
    ensures ParseRefPath(f) == Some(RefPath("authors", "authorId", "authorId"))
  {
    AuthorIdFree();
    assert f.refTag == "authorId" + "->" + "authors";
    ParseRefPathRoundTrip(f, "authorId", "authors");
  }

  lemma AuthorIdFree()
    ensures Free("authorId", "->")
  {
    assert forall c :: c in "authorId" ==> c != '-';
    forall j | 0 <= j <= |"authorId"| - 2 ensures !OccursAt("authorId", "->", j) {
      assert "authorId"[j] in "authorId";
    }
  }

  /** FieldsByName over `fs[..n]`: every name is present and points at its first occurrence. */
  ghost predicate FirstByName(fs: seq<FieldInfo>, m: map<string, nat>, n: nat)
    requires n <= |fs|
  {
    && (forall k :: k in m ==> m[k] < n && fs[m[k]].name == k && forall j :: 0 <= j < m[k] ==> fs[j].name != k)
    && (forall j :: 0 <= j < n ==> fs[j].name in m)
  }

  /** FieldsByBson over `fs[..n]`: the same, for non-empty bson tags only. */
  ghost predicate FirstByBson(fs: seq<FieldInfo>, m: map<string, nat>, n: nat)
    requires n <= |fs|
  {
    && (forall k :: k in m ==> k != "" && m[k] < n && fs[m[k]].bsonTag == k && forall j :: 0 <= j < m[k] ==> fs[j].bsonTag != k)
    && (forall j :: 0 <= j < n && fs[j].bsonTag != "" ==> fs[j].bsonTag in m)
  }

  /** What each flattened entry's ref tag parses to. */
  function RefsOf(fs: seq<FieldInfo>): (ps: seq<Option<RefPath>>)
    ensures |ps| == |fs| && forall j :: 0 <= j < |fs| ==> ps[j] == ParseRefPath(fs[j])
  {
    seq(|fs|, j requires 0 <= j < |fs| => ParseRefPath(fs[j]))
  }

  /** No entry of `ps[lo..hi]` is a ref path with foreign key `k`. */
  ghost predicate NoRefWithKey(ps: seq<Option<RefPath>>, k: string, lo: nat, hi: nat)
    requires hi <= |ps|
  {
    forall j :: lo <= j < hi && ps[j].Some? ==> ps[j].value.foreignKey != k
  }

  /** `r` is the last ref path of `ps[..n]` with foreign key `k`. */
  ghost predicate LastRefWithKey(ps: seq<Option<RefPath>>, k: string, r: RefPath, n: nat)
    requires n <= |ps|
  {
    exists j :: 0 <= j < n && ps[j] == Some(r) && NoRefWithKey(ps, k, j + 1, n)
  }

  /** RefPaths over `ps[..n]`: keyed by foreign key, a later field overwriting an earlier one. */
  ghost predicate LastByForeignKey(ps: seq<Option<RefPath>>, m: map<string, RefPath>, n: nat)
    requires n <= |ps|
  {
    && (forall k :: k in m ==> m[k].foreignKey == k && LastRefWithKey(ps, k, m[k], n))
    && (forall j :: 0 <= j < n && ps[j].Some? ==> ps[j].value.foreignKey in m)
  }

  /** `info` is the metadata of `t`. */
  ghost predicate Describes(info: TypeInfo, t: EntityType) {
    && info.collectionName == CollectionName(t)
    && info.fields == Collect(t)
    && FirstByName(info.fields, info.fieldsByName, |info.fields|)
    && FirstByBson(info.fields, info.fieldsByBson, |info.fields|)
    && LastByForeignKey(RefsOf(info.fields), info.refPaths, |info.fields|)
  }

  lemma NameStep(fs: seq<FieldInfo>, m: map<string, nat>, i: nat)
    requires i < |fs| && FirstByName(fs, m, i)
    ensures fs[i].name in m ==> FirstByName(fs, m, i + 1)
    ensures fs[i].name !in m ==> FirstByName(fs, m[fs[i].name := i], i + 1)
  {
  }

  lemma BsonStep(fs: seq<FieldInfo>, m: map<string, nat>, i: nat)
    requires i < |fs| && FirstByBson(fs, m, i)
    ensures fs[i].bsonTag == "" || fs[i].bsonTag in m ==> FirstByBson(fs, m, i + 1)
    ensures fs[i].bsonTag != "" && fs[i].bsonTag !in m ==> FirstByBson(fs, m[fs[i].bsonTag := i], i + 1)
  {
  }

  lemma RefStepKeep(ps: seq<Option<RefPath>>, m: map<string, RefPath>, i: nat)
    requires i < |ps| && LastByForeignKey(ps, m, i) && ps[i].None?
    ensures LastByForeignKey(ps, m, i + 1)
  {
    forall k | k in m ensures LastRefWithKey(ps, k, m[k], i + 1) {
      var j :| 0 <= j < i && ps[j] == Some(m[k]) && NoRefWithKey(ps, k, j + 1, i);
      assert NoRefWithKey(ps, k, j + 1, i + 1);
    }
  }

  lemma RefStepPut(ps: seq<Option<RefPath>>, m: map<string, RefPath>, i: nat, r: RefPath)
    requires i < |ps| && LastByForeignKey(ps, m, i) && ps[i] == Some(r)
    ensures LastByForeignKey(ps, m[r.foreignKey := r], i + 1)
  {
    var m' := m[r.foreignKey := r];
    forall k | k in m' ensures m'[k].foreignKey == k && LastRefWithKey(ps, k, m'[k], i + 1) {
      if k == r.foreignKey {
        assert NoRefWithKey(ps, k, i + 1, i + 1);
      } else {
        var j :| 0 <= j < i && ps[j] == Some(m[k]) && NoRefWithKey(ps, k, j + 1, i);
        assert NoRefWithKey(ps, k, j + 1, i + 1);
      }
    }
  }

  /** computeTypeInfo: the collection name, the flattened fields, then the three tables. */
  method ComputeTypeInfo(t: EntityType) returns (info: TypeInfo)
    ensures Describes(info, t)
  {
    var name := match t.collectionNameMethod
      case Some(n) => n
      case None => t.name;
    var fields := CollectFieldsRecursive(t.fields, [], []);
    var byName: map<string, nat> := map[];
    var byBson: map<string, nat> := map[];
    var refs: map<string, RefPath> := map[];
    var i := 0;
    while i < |fields|
      invariant i <= |fields|
      invariant FirstByName(fields, byName, i)
      invariant FirstByBson(fields, byBson, i)
      invariant LastByForeignKey(RefsOf(fields), refs, i)
    {
      var field := fields[i];
      NameStep(fields, byName, i);
      if field.name !in byName {
        byName := byName[field.name := i];
      }
      BsonStep(fields, byBson, i);
      if field.bsonTag != "" {
        if field.bsonTag !in byBson {
          byBson := byBson[field.bsonTag := i];
        }
      }
      var refPath := if field.refTag != "" then ParseRefPath(field) else None;
      if refPath.Some? {
        RefStepPut(RefsOf(fields), refs, i, refPath.value);
        refs := refs[refPath.value.foreignKey := refPath.value];
      } else {
        RefStepKeep(RefsOf(fields), refs, i);
      }
      i := i + 1;
    }
    info := TypeInfo(name, fields, byName, byBson, refs);
  }

  lemma SameFirstIndex(fs: seq<FieldInfo>, a: map<string, nat>, b: map<string, nat>)
    requires FirstByName(fs, a, |fs|) && FirstByName(fs, b, |fs|)
    ensures a == b
  {
    forall k | k in a ensures k in b && a[k] == b[k] {
      assert fs[a[k]].name == k;
    }
    forall k | k in b ensures k in a {
      assert fs[b[k]].name in a;
    }
  }

  lemma SameFirstBson(fs: seq<FieldInfo>, a: map<string, nat>, b: map<string, nat>)
    requires FirstByBson(fs, a, |fs|) && FirstByBson(fs, b, |fs|)
    ensures a == b
  {
    forall k | k in a ensures k in b && a[k] == b[k] {
      assert fs[a[k]].bsonTag == k;
    }
    forall k | k in b ensures k in a {
      assert fs[b[k]].bsonTag in a;
    }
  }

  lemma SameLastRef(ps: seq<Option<RefPath>>, a: map<string, RefPath>, b: map<string, RefPath>)
    requires LastByForeignKey(ps, a, |ps|) && LastByForeignKey(ps, b, |ps|)
    ensures a == b
  {
    forall k | k in a ensures k in b && a[k] == b[k] {
      var ja :| 0 <= ja < |ps| && ps[ja] == Some(a[k]) && NoRefWithKey(ps, k, ja + 1, |ps|);
      assert ps[ja].value.foreignKey in b;
      var jb :| 0 <= jb < |ps| && ps[jb] == Some(b[k]) && NoRefWithKey(ps, k, jb + 1, |ps|);
      assert ps[jb].value.foreignKey == k && ps[ja].value.foreignKey == k;
    }
    forall k | k in b ensures k in a {
      var jb :| 0 <= jb < |ps| && ps[jb] == Some(b[k]) && NoRefWithKey(ps, k, jb + 1, |ps|);
      assert ps[jb].value.foreignKey in a;
    }
  }

  /** The metadata of a type is determined by the type: two computations agree. */
  lemma DescribesUnique(a: TypeInfo, b: TypeInfo, t: EntityType)
    requires Describes(a, t) && Describes(b, t)
    ensures a == b
  {
    SameFirstIndex(a.fields, a.fieldsByName, b.fieldsByName);
    SameFirstBson(a.fields, a.fieldsByBson, b.fieldsByBson);
    SameLastRef(RefsOf(a.fields), a.refPaths, b.refPaths);
  }

  /** A type none of whose flattened fields has a ref tag has no ref paths. */
  lemma NoRefTagsNoRefPaths(info: TypeInfo, t: EntityType)
    requires Describes(info, t)
    requires forall j :: 0 <= j < |info.fields| ==> info.fields[j].refTag == ""
    ensures info.refPaths == map[]
  {
  }

  /** A struct with no embedded struct fields flattens to one entry per field, in order. */
  lemma {:induction false} FlatStruct(fs: seq<FieldDecl>, path: seq<nat>, i: nat)
    requires i <= |fs|
    requires forall j :: 0 <= j < |fs| ==> !Embeds(fs[j])
    ensures |CollectFrom(fs, path, i)| == |fs| - i
    ensures forall j :: i <= j < |fs| ==> CollectFrom(fs, path, i)[j - i] == Describe(fs[j], j, path + [j])
    decreases |fs| - i
  {
    if i < |fs| {
      FlatStruct(fs, path, i + 1);
      PromotedPaths(fs[i], path + [i]);
      assert CollectFrom(fs, path, i) == [Describe(fs[i], i, path + [i])] + CollectFrom(fs, path, i + 1);
    }
  }

  /**
   * The process-wide metadata cache. Every stored entry describes its key, so
   * a hit and a miss give the same answer.
   */
  class TypeCache {
    var cache: map<EntityType, TypeInfo>

    ghost predicate Valid()
      reads this
    {
      forall t :: t in cache ==> Describes(cache[t], t)
    }

    constructor ()
      ensures cache == map[] && Valid()
    {
      cache := map[];
    }

    /** GetTypeInfo: the stored entry when there is one; otherwise computed, stored and returned. */
    method GetTypeInfo(t: EntityType) returns (info: TypeInfo)
      requires Valid()
      modifies this
      ensures Valid()
      ensures Describes(info, t) && t in cache && cache[t] == info
      ensures t in old(cache) ==> info == old(cache)[t] && cache == old(cache)
      ensures t !in old(cache) ==> cache == old(cache)[t := info]
    {
      if t in cache {
        return cache[t];
      }
      info := ComputeTypeInfo(t);
      cache := cache[t := info];
    }

    /** GetCachedCollectionName: the collection name from the (possibly new) cache entry. */
    method GetCachedCollectionName(t: EntityType) returns (name: string)
      requires Valid()
      modifies this
      ensures Valid()
      ensures name == CollectionName(t)
      ensures t in old(cache) ==> cache == old(cache)
      ensures t !in old(cache) ==> t in cache && cache == old(cache)[t := cache[t]]
    {
      var info := GetTypeInfo(t);
      name := info.collectionName;
    }
  }
}
