/**
 * The MongoDB driver as the core sees it: the calls it makes on a
 * collection, the aggregation stages and find options it builds, and the
 * cursor it drains. What the driver answers is an input of the model.
 */
module Driver {
  import opened Values

  /** One aggregation-pipeline stage. */
  datatype Stage =
    | Match(query: Doc)
    | Lookup(from: string, localField: string, foreignField: string, asField: string)
    | Unwind(path: string)
    | Project(projection: Doc)
    | SortBy(sort: Doc)
    | Skip(skip: int)
    | Limit(limit: int)

  /** options.FindOneOptions: only the setters the core calls; None means "not set". */
  datatype FindOneOptions = FindOneOptions(projection: Option<Doc>, sort: Option<Doc>)

  /** options.FindOptions: only the setters the core calls; None means "not set". */
  datatype FindOptions = FindOptions(sort: Option<Doc>, projection: Option<Doc>, skip: Option<int>, limit: Option<int>)

  /** A call on the collection. A `*M` travels as its row of top-level field values. */
  datatype Call =
    | InsertRow(row: seq<Value>)
    | InsertDoc(doc: Doc)
    | InsertMany(rows: seq<seq<Value>>)
    | UpdateOne(query: Doc, update: Doc)
    | UpdateMany(query: Doc, update: Doc)
    | UpdateById(id: Value, update: Doc)
    | DeleteOne(query: Doc)
    | DeleteMany(query: Doc)
    | Aggregate(pipeline: seq<Stage>)
    | FindMany(query: Doc, findOptions: seq<FindOptions>)
    | FindFirst(query: Doc, findOneOptions: seq<FindOneOptions>)
    | CountDocuments(query: Doc)

  /** An open cursor: each document it yields decodes or fails; then its final error. */
  datatype Cursor = Cursor(docs: seq<Result<seq<Value>>>, err: Option<Error>)

  /**
   * A successful reply: a write result (an opaque token), a cursor, the
   * decoded single document (None for "no documents"), or a count.
   */
  datatype Reply =
    | Written(token: nat)
    | Opened(cursor: Cursor)
    | Single(row: Option<seq<Value>>)
    | Counted(n: int)

  /** `{"$set": list}` */
  function SetDoc(list: Doc): Doc {
    [("$set", Map(list))]
  }

  /** The position of the first document that fails to decode, if any. */
  function FirstBad(docs: seq<Result<seq<Value>>>): (r: Option<nat>)
    ensures r.Some? ==> r.value < |docs| && docs[r.value].Err?
    ensures forall j :: 0 <= j < |docs| && (r.None? || j < r.value) ==> docs[j].Ok?
  {
    if docs == [] then None
    else if docs[0].Err? then Some(0)
    else match FirstBad(docs[1..])
      case None => None
      case Some(j) => Some(j + 1)
  }

  /** The error draining `c` ends with: the first decode error, else the cursor's own error. */
  function DrainError(c: Cursor): Option<Error> {
    match FirstBad(c.docs)
    case Some(j) => Some(c.docs[j].error)
    case None => c.err
  }

  /** The documents a drain collects: every one before the first that fails to decode. */
  function Drained(c: Cursor): (data: seq<seq<Value>>)
    ensures FirstBad(c.docs).None? ==> |data| == |c.docs|
    ensures FirstBad(c.docs).Some? ==> |data| == FirstBad(c.docs).value
    ensures forall j :: 0 <= j < |data| ==> c.docs[j] == Ok(data[j])
  {
    var n := if FirstBad(c.docs).Some? then FirstBad(c.docs).value else |c.docs|;
    seq(n, j requires 0 <= j < n => c.docs[j].value)
  }

  /**
   * The `for cursor.Next { Decode; append }` loop followed by `cursor.Err()`:
   * the documents collected, in order, and the error the loop ends with.
   */
  method Drain(c: Cursor) returns (data: seq<seq<Value>>, err: Option<Error>)
    ensures data == Drained(c)
    ensures err == DrainError(c)
  {
    data := [];
    var i := 0;
    while i < |c.docs|
      invariant i <= |c.docs| && |data| == i
      invariant forall j :: 0 <= j < i ==> c.docs[j] == Ok(data[j])
    {
      if c.docs[i].Err? {
        return data, Some(c.docs[i].error);
      }
      data := data + [c.docs[i].value];
      i := i + 1;
    }
    err := c.err;
  }
}
