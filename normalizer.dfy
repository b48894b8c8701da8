/**
 * The second half of the `searchProperties` tool (app/api/chat/route.ts,
 * lines 93-120): run the built query, look up the first image of every row,
 * and reduce each row to the flat summary the client renders.
 *
 * The property store is one function, `query`: it takes a statement and its
 * positional parameters and either returns rows or rejects.  The model
 * receives it as a parameter.  A row is the record the driver returns:
 * column name to value; a column the row lacks reads as `undefined`.
 */
module Normalizer {
  import opened Wrappers
  import opened Json
  import opened QueryBuilder

  /** A row as the store driver returns it. */
  type Row = map<string, JsonValue>

  /** The store's `query(sql, params)`: rows, or the error it rejects with. `None` is an `undefined` parameter. */
  type Store = (string, seq<Option<JsonValue>>) -> Result<seq<Row>, string>

  /** Property access `row.key`: `undefined` (`None`) when the row has no such column. */
  function Get(r: Row, k: string): Option<JsonValue>
  {
    if k in r then Some(r[k]) else None
  }

  /** The flat record the tool returns for one property; `None` is an `undefined` property. */
  datatype Summary = Summary(
    id: Option<JsonValue>,
    title: Option<JsonValue>,
    location: Option<JsonValue>,
    price: Option<JsonValue>,
    bedrooms: Option<JsonValue>,
    bathrooms: Option<JsonValue>,
    area: Option<JsonValue>,
    propertyType: Option<JsonValue>,
    operationType: Option<JsonValue>,
    imageUrl: Option<JsonValue>)

  /** The statement that fetches a property's first image, in display order. */
  const ImageQuery: string :=
    "SELECT image_url FROM inmueble_images"
    + " WHERE inmueble_id = ?"
    + " ORDER BY display_order ASC LIMIT 1"

  /** The value bound to a placeholder of the search query. */
  function StoreParam(p: Param): (v: Option<JsonValue>)
    ensures v.Some?
  {
    match p
    case PText(s) => Some(JString(s))
    case PNumber(n) => Some(JNumber(n))
  }

  function StoreParams(ps: seq<Param>): (vs: seq<Option<JsonValue>>)
    ensures |vs| == |ps|
    ensures forall i | 0 <= i < |ps| :: vs[i] == StoreParam(ps[i])
  {
    if ps == [] then [] else [StoreParam(ps[0])] + StoreParams(ps[1..])
  }

  /** The image lookup for one row: the image statement bound to the row's `id`. */
  function Images(store: Store, p: Row): Result<seq<Row>, string>
  {
    store(ImageQuery, [Get(p, "id")])
  }

  /** The summary of one row, given the rows its image lookup returned. */
  function Summarize(p: Row, images: seq<Row>): Summary
  {
    Summary(
      Get(p, "id"), Get(p, "title"), Get(p, "location"), Get(p, "price"),
      Get(p, "bedrooms"), Get(p, "bathrooms"), Get(p, "area"), Get(p, "type"),
      Get(p, "operation_type"),
      if |images| > 0 then Get(images[0], "image_url") else Get(p, "image_url"))
  }

  /**
   * `Promise.all(properties.map(...))`: every row summarised in order, or the
   * whole call rejects as soon as one image lookup rejects.
   */
  function Normalize(store: Store, rows: seq<Row>): (r: Result<seq<Summary>, string>)
    ensures r.Ok? <==> forall i | 0 <= i < |rows| :: Images(store, rows[i]).Ok?
    ensures r.Ok? ==> |r.value| == |rows|
    ensures r.Ok? ==> forall i | 0 <= i < |rows| ::
      r.value[i] == Summarize(rows[i], Images(store, rows[i]).value)
    ensures r.Err? ==> exists i | 0 <= i < |rows| :: Images(store, rows[i]) == Err(r.error)
  {
    if rows == [] then Ok([])
    else
      match Images(store, rows[0])
      case Err(e) => Err(e)
      case Ok(images) =>
        match Normalize(store, rows[1..])
        case Err(e) => Err(e)
        case Ok(rest) => Ok([Summarize(rows[0], images)] + rest)
  }

  /** What `execute` resolves to: the summaries and their number. */
  datatype ToolResult = ToolResult(properties: seq<Summary>, count: int)

  /** The outcome of the tool for some criteria against a store. */
  function Outcome(c: Criteria, store: Store): Result<ToolResult, string>
  {
    match store(QueryText(c), StoreParams(Params(c)))
    case Err(e) => Err(e)
    case Ok(rows) =>
      match Normalize(store, rows)
      case Err(e) => Err(e)
      case Ok(ps) => Ok(ToolResult(ps, |ps|))
  }

  /**
   * The tool's `execute`: build the query, run it, summarise every row.
   * A rejection of either store call rejects the tool call.
   */
  method Execute(c: Criteria, store: Store) returns (r: Result<ToolResult, string>)
    ensures r == Outcome(c, store)
  {
    var sql, params := BuildQuery(c);
    var found := store(sql, StoreParams(params));
    if found.Err? {
      return Err(found.error);
    }
    var summaries := Normalize(store, found.value);
    if summaries.Err? {
      return Err(summaries.error);
    }
    r := Ok(ToolResult(summaries.value, |summaries.value|));
  }

  /**
   * A successful call returns one summary per row the search query found,
   * in the store's order, and `count` is their number; it fails exactly
   * when the search or one of the image lookups fails.
   */
  lemma OutcomeShape(c: Criteria, store: Store)
    ensures var found := store(QueryText(c), StoreParams(Params(c)));
      (Outcome(c, store).Ok? <==>
        found.Ok? && forall i | 0 <= i < |found.value| :: Images(store, found.value[i]).Ok?)
      && (Outcome(c, store).Ok? ==>
        var t := Outcome(c, store).value;
        t.count == |t.properties| == |found.value|
        && forall i | 0 <= i < |t.properties| ::
          t.properties[i] == Summarize(found.value[i], Images(store, found.value[i]).value))
  {
  }

  // ---------------------------------------------------------------------
  // The summary as the client receives it.

  /** The summary's properties, in the order the object literal lists them. */
  function Fields(s: Summary): seq<(string, Option<JsonValue>)>
  {
    [("id", s.id), ("title", s.title), ("location", s.location), ("price", s.price),
     ("bedrooms", s.bedrooms), ("bathrooms", s.bathrooms), ("area", s.area),
     ("type", s.propertyType), ("operation_type", s.operationType), ("image_url", s.imageUrl)]
  }

  /** `JSON.stringify` leaves out the properties whose value is `undefined`. */
  function Present(fs: seq<(string, Option<JsonValue>)>): (ms: seq<Member>)
    ensures |ms| <= |fs|
  {
    if fs == [] then []
    else (if fs[0].1.Some? then [Member(fs[0].0, fs[0].1.value)] else []) + Present(fs[1..])
  }

  function SummaryJson(s: Summary): JsonValue
  {
    JObject(Present(Fields(s)))
  }

  function ResultJson(t: ToolResult): JsonValue
  {
    JObject([Member("properties", JArray(SummariesJson(t.properties))), Member("count", JNumber(t.count))])
  }

  function SummariesJson(ss: seq<Summary>): (vs: seq<JsonValue>)
    ensures |vs| == |ss|
    ensures forall i | 0 <= i < |ss| :: vs[i] == SummaryJson(ss[i])
  {
    if ss == [] then [] else [SummaryJson(ss[0])] + SummariesJson(ss[1..])
  }

  /** The first property named `k` in a list of possibly undefined properties. */
  function Assoc(fs: seq<(string, Option<JsonValue>)>, k: string): Option<JsonValue>
  {
    if fs == [] then None else if fs[0].0 == k then fs[0].1 else Assoc(fs[1..], k)
  }

  /** Leaving out the undefined properties changes the value of none, when the names are distinct. */
  lemma {:induction false} PresentLookup(fs: seq<(string, Option<JsonValue>)>, k: string)
    requires forall i, j | 0 <= i < j < |fs| :: fs[i].0 != fs[j].0
    ensures MemberValue(Present(fs), k) == Assoc(fs, k)
  {
    if fs != [] {
      PresentLookup(fs[1..], k);
      if fs[0].1.Some? {
        assert ([Member(fs[0].0, fs[0].1.value)] + Present(fs[1..]))[1..] == Present(fs[1..]);
      } else if fs[0].0 == k {
        AssocAbsent(fs[1..], k);
        assert [] + Present(fs[1..]) == Present(fs[1..]);
      } else {
        assert [] + Present(fs[1..]) == Present(fs[1..]);
      }
    }
  }

  lemma {:induction false} AssocAbsent(fs: seq<(string, Option<JsonValue>)>, k: string)
    requires forall i | 0 <= i < |fs| :: fs[i].0 != k
    ensures Assoc(fs, k) == None
    ensures MemberValue(Present(fs), k) == None
  {
    if fs != [] {
      AssocAbsent(fs[1..], k);
      if fs[0].1.Some? {
        assert ([Member(fs[0].0, fs[0].1.value)] + Present(fs[1..]))[1..] == Present(fs[1..]);
      } else {
        assert [] + Present(fs[1..]) == Present(fs[1..]);
      }
    }
  }

  lemma {:induction false} AssocAt(fs: seq<(string, Option<JsonValue>)>, i: nat, k: string)
    requires i < |fs| && fs[i].0 == k
    requires forall j | 0 <= j < i :: fs[j].0 != k
    ensures Assoc(fs, k) == fs[i].1
  {
    if i > 0 {
      AssocAt(fs[1..], i - 1, k);
    }
  }

  /** The columns the summary copies from the row unchanged. */
  const CopiedColumns: seq<string> :=
    ["id", "title", "location", "price", "bedrooms", "bathrooms", "area", "type", "operation_type"]

  lemma DistinctNames(s: Summary)
    ensures forall i, j | 0 <= i < j < |Fields(s)| :: Fields(s)[i].0 != Fields(s)[j].0
  {
  }

  /** In the object the client receives, every copied column has the row's value, or is missing when the row lacks it. */
  lemma SummaryJsonCopies(p: Row, images: seq<Row>)
    ensures forall i | 0 <= i < |CopiedColumns| ::
      MemberValue(SummaryJson(Summarize(p, images)).members, CopiedColumns[i]) == Get(p, CopiedColumns[i])
  {
    var s := Summarize(p, images);
    DistinctNames(s);
    forall i | 0 <= i < |CopiedColumns|
      ensures MemberValue(SummaryJson(s).members, CopiedColumns[i]) == Get(p, CopiedColumns[i])
    {
      assert Fields(s)[i].0 == CopiedColumns[i];
      PresentLookup(Fields(s), CopiedColumns[i]);
      AssocAt(Fields(s), i, CopiedColumns[i]);
    }
  }

  /**
   * In the object the client receives, `image_url` is the first image row's
   * `image_url` when the lookup found any, the row's own otherwise.
   */
  lemma SummaryJsonImage(p: Row, images: seq<Row>)
    ensures MemberValue(SummaryJson(Summarize(p, images)).members, "image_url") ==
      if |images| > 0 then Get(images[0], "image_url") else Get(p, "image_url")
  {
    var s := Summarize(p, images);
    DistinctNames(s);
    PresentLookup(Fields(s), "image_url");
    AssocAt(Fields(s), 9, "image_url");
  }
}
