/** The history screens: the full list of past predictions and the page of
    one record, with the order in which each decides what to show and the
    clinical inputs a record's page lists. */
module History {
  import opened Js
  import opened Types
  import opened Api
  import Assessment

  const ListLimit: nat := 50
  const ListError: string := "Failed to load history."
  const DetailError: string := "Failed to load details"
  const NotFoundText: string := "Record not found."

  /** The route of one record's page. */
  function RecordPath(id: string): string
  {
    "/history/" + id
  }

  // ---------------------------------------------------------------------------
  // The list

  /** One row of the list: the label, the model badge's text and where a click leads. */
  datatype Row = Row(caption: string, model: string, link: string)

  function Rows(h: seq<HistoryItem>): (rows: seq<Row>)
    ensures |rows| == |h|
    ensures forall i :: 0 <= i < |h| ==>
      rows[i] == Row(h[i].predictionLabel, Assessment.ModelLabel(h[i].modelUsed), RecordPath(h[i].id))
  {
    if |h| == 0 then [] else [Row(h[0].predictionLabel, Assessment.ModelLabel(h[0].modelUsed), RecordPath(h[0].id))] + Rows(h[1..])
  }

  datatype ListScreen = ListLoading | ListFailed(message: string) | ListRows(rows: seq<Row>, emptyNote: bool)

  /** Loading first, then a non-empty error, then the rows (with a note when there are none). */
  function ListView(loading: bool, error: string, h: seq<HistoryItem>): (v: ListScreen)
    ensures v.ListLoading? <==> loading
    ensures v.ListFailed? <==> !loading && error != ""
    ensures v.ListFailed? ==> v.message == error
    ensures v.ListRows? ==> v.rows == Rows(h) && (v.emptyNote <==> |h| == 0)
  {
    if loading then ListLoading
    else if error != "" then ListFailed(error)
    else ListRows(Rows(h), |h| == 0)
  }

  class HistoryListPage {
    const api: ApiService
    var history: seq<HistoryItem>
    var loading: bool
    var error: string

    constructor (api: ApiService)
      ensures this.api == api && history == [] && loading && error == ""
    {
      this.api := api;
      history := [];
      loading := true;
      error := "";
    }

    /** The mount effect: up to fifty records; any failure shows one fixed message. */
    method Load(reply: Exchange)
      modifies this`history, this`loading, this`error, api, api.browser
      ensures old(api.Valid()) ==> api.Valid()
      ensures !loading
      ensures |api.browser.requests| == |old(api.browser.requests)| + 1
      ensures api.browser.requests[..|old(api.browser.requests)|] == old(api.browser.requests)
      ensures var req := Last(api.browser.requests);
        req.verb == "GET" && req.path == HistoryPath(0, ListLimit) && req.body == NoBody &&
        BuiltHeaders(req.headers, old(api.token), false)
      ensures api.State() == AfterReply(reply, old(api.State()))
      ensures Settle(reply).Returned? ==> history == HistoryListOf(Settle(reply).value) && error == old(error)
      ensures Settle(reply).Thrown? ==> history == old(history) && error == ListError
    {
      var o := api.GetHistory(0, ListLimit, reply);
      match o {
        case Returned(data) =>
          history := HistoryListOf(data);
        case Thrown(_) =>
          error := ListError;
      }
      loading := false;
    }
  }

  // ---------------------------------------------------------------------------
  // One record

  /** A clinical input's tile: its label and whether it shows "Detected". */
  datatype Tile = Tile(title: string, detected: bool)

  /** The inputs a record's page lists: all but age and the health score. */
  predicate Listed(key: string)
    ensures Listed(key) <==> key !in {"age", "stroke_risk_percentage"}
  {
    key != "age" && key != "stroke_risk_percentage"
  }

  function ListedInputs(inputs: seq<(string, Json)>): (r: seq<(string, Json)>)
    ensures |r| <= |inputs|
    ensures forall e :: e in r <==> e in inputs && Listed(e.0)
  {
    if |inputs| == 0 then []
    else
      var rest := ListedInputs(inputs[1..]);
      assert forall e :: e in inputs <==> e == inputs[0] || e in inputs[1..];
      if Listed(inputs[0].0) then [inputs[0]] + rest else rest
  }

  /** `key.replace(/_/g, ' ')` as the title, and "Detected" exactly for the number 1. */
  function TileOf(entry: (string, Json)): (t: Tile)
    ensures t.detected <==> entry.1 == JNum(1.0)
    ensures t.title == ReplaceAll(entry.0, '_', ' ')
    ensures |t.title| == |entry.0| && '_' !in t.title
  {
    var title := ReplaceAll(entry.0, '_', ' ');
    assert forall i :: 0 <= i < |title| ==> title[i] != '_';
    Tile(title, entry.1 == JNum(1.0))
  }

  function Tiles(inputs: seq<(string, Json)>): (ts: seq<Tile>)
    ensures |ts| == |inputs| && forall i :: 0 <= i < |inputs| ==> ts[i] == TileOf(inputs[i])
  {
    if |inputs| == 0 then [] else [TileOf(inputs[0])] + Tiles(inputs[1..])
  }

  /** The "Clinical Inputs" card, in the record's property order. */
  function ClinicalInputs(inputs: seq<(string, Json)>): (ts: seq<Tile>)
    ensures |ts| == |ListedInputs(inputs)|
    ensures forall i :: 0 <= i < |ts| ==> ts[i] == TileOf(ListedInputs(inputs)[i])
  {
    Tiles(ListedInputs(inputs))
  }

  /** The filter keeps the property order: it distributes over concatenation. */
  lemma {:induction false} ListedInputsAppend(a: seq<(string, Json)>, b: seq<(string, Json)>)
    ensures ListedInputs(a + b) == ListedInputs(a) + ListedInputs(b)
  {
    if |a| > 0 {
      assert (a + b)[1..] == a[1..] + b;
      assert (a + b)[0] == a[0];
      ListedInputsAppend(a[1..], b);
    } else {
      assert a + b == b;
    }
  }

  /** A record whose inputs are age, the health score and then others lists exactly the others. */
  lemma ListedAfterVitals(age: Json, score: Json, others: seq<(string, Json)>)
    requires forall i :: 0 <= i < |others| ==> Listed(others[i].0)
    ensures ClinicalInputs([("age", age), ("stroke_risk_percentage", score)] + others) == Tiles(others)
  {
    ListedInputsAppend([("age", age), ("stroke_risk_percentage", score)], others);
    assert ListedInputs([("age", age), ("stroke_risk_percentage", score)]) == [];
    AllListed(others);
  }

  lemma {:induction false} AllListed(inputs: seq<(string, Json)>)
    requires forall i :: 0 <= i < |inputs| ==> Listed(inputs[i].0)
    ensures ListedInputs(inputs) == inputs
  {
    if |inputs| > 0 {
      AllListed(inputs[1..]);
    }
  }

  datatype DetailScreen =
    | DetailLoading
    | DetailFailed(message: string)
    | NotFound
    | DetailContent(caption: string, risk: real, model: string, age: Option<Json>, highRisk: bool, inputs: seq<Tile>)

  /** Loading first, then a non-empty error, then a missing record, then the record. */
  function DetailView(loading: bool, error: string, detail: Option<HistoryDetail>): (v: DetailScreen)
    ensures v.DetailLoading? <==> loading
    ensures v.DetailFailed? <==> !loading && error != ""
    ensures v.DetailFailed? ==> v.message == error
    ensures v.NotFound? <==> !loading && error == "" && detail.None?
    ensures v.DetailContent? ==>
      v.caption == detail.value.item.predictionLabel &&
      v.age == FieldLookup(detail.value.inputData, "age") &&
      v.risk == RiskProbability(detail.value.probability) &&
      v.model == Assessment.ModelLabel(detail.value.item.modelUsed) &&
      (v.highRisk <==> AtRisk(detail.value.item.predictionScore)) &&
      v.inputs == ClinicalInputs(detail.value.inputData)
  {
    if loading then DetailLoading
    else if error != "" then DetailFailed(error)
    else if detail.None? then NotFound
    else
      var d := detail.value;
      DetailContent(d.item.predictionLabel, RiskProbability(d.probability), Assessment.ModelLabel(d.item.modelUsed),
        FieldLookup(d.inputData, "age"), AtRisk(d.item.predictionScore), ClinicalInputs(d.inputData))
  }

  /** `err.message || 'Failed to load details'`. */
  function DetailErrorText(f: Failure): (t: string)
    ensures t != ""
    ensures MessageOf(f) != "" ==> t == MessageOf(f)
    ensures MessageOf(f) == "" ==> t == DetailError
  {
    if MessageOf(f) != "" then MessageOf(f) else DetailError
  }

  class HistoryDetailPage {
    const api: ApiService
    /** The `:id` route parameter. */
    const id: Option<string>
    var detail: Option<HistoryDetail>
    var loading: bool
    var error: string

    constructor (api: ApiService, id: Option<string>)
      ensures this.api == api && this.id == id && detail == None && loading && error == ""
    {
      this.api := api;
      this.id := id;
      detail := None;
      loading := true;
      error := "";
    }

    /** The effect: fetch the record only when the route gives an id; without
        one nothing is sent and the page stays loading. */
    method Load(reply: Exchange)
      modifies this`detail, this`loading, this`error, api, api.browser
      ensures old(api.Valid()) ==> api.Valid()
      ensures !(id.Some? && id.value != "") ==>
        api.browser.requests == old(api.browser.requests) && api.State() == old(api.State()) &&
        loading == old(loading) && detail == old(detail) && error == old(error)
      ensures id.Some? && id.value != "" ==>
        !loading &&
        |api.browser.requests| == |old(api.browser.requests)| + 1 &&
        api.browser.requests[..|old(api.browser.requests)|] == old(api.browser.requests) &&
        Last(api.browser.requests).verb == "GET" &&
        Last(api.browser.requests).path == "/predict/history/" + id.value &&
        Last(api.browser.requests).body == NoBody &&
        BuiltHeaders(Last(api.browser.requests).headers, old(api.token), false) &&
        api.State() == AfterReply(reply, old(api.State())) &&
        (Settle(reply).Returned? ==> detail == HistoryDetailOf(Settle(reply).value) && error == old(error)) &&
        (Settle(reply).Thrown? ==> detail == old(detail) && error == DetailErrorText(Settle(reply).failure))
    {
      if id.Some? && id.value != "" {
        var o := api.GetHistoryDetail(id.value, reply);
        match o {
          case Returned(data) =>
            detail := HistoryDetailOf(data);
          case Thrown(f) =>
            error := DetailErrorText(f);
        }
        loading := false;
      }
    }
  }
}
