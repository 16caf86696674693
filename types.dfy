/** The shapes of the data the client exchanges with the prediction service,
    and how a decoded JSON body is read as one of them. */
module Types {
  import opened Js

  /** The profile values every assessment takes from the user's profile.
      `None` stands for both undefined and null. */
  datatype PersonalDefaults = PersonalDefaults(age: Option<real>, highBloodPressure: Option<real>)

  datatype User = User(id: string, email: string, fullName: string, personalDefaults: Option<PersonalDefaults>)

  /** The three classifiers the service offers. */
  datatype ModelType = Logistic | RandomForest | Svm
  {
    /** The enum's string value, used as the last segment of the prediction path. */
    function Slug(): (s: string)
      ensures s in ["logistic", "random_forest", "svm"]
    {
      match this
      case Logistic => "logistic"
      case RandomForest => "random_forest"
      case Svm => "svm"
    }
  }

  /** The models in declaration order, as `Object.values(ModelType)` lists them. */
  const AllModels: seq<ModelType> := [Logistic, RandomForest, Svm]

  datatype PredictionResponse = PredictionResponse(
    modelUsed: string,
    predictionLabel: string,
    predictionScore: real,
    probability: map<string, real>)

  datatype HistoryItem = HistoryItem(
    id: string,
    timestamp: string,
    modelUsed: string,
    predictionLabel: string,
    predictionScore: real)

  /** A stored prediction with the inputs it was made from (the properties of
      its `input_data` object, in order) and its per-label probabilities. */
  datatype HistoryDetail = HistoryDetail(item: HistoryItem, inputData: seq<(string, Json)>, probability: map<string, real>)

  /** The fields of a prediction input that take the values 0 and 1. */
  const BinaryFields: seq<string> := [
    "high_blood_pressure", "heart_disease",
    "chest_pain", "shortness_of_breath", "irregular_heartbeat", "fatigue_weakness",
    "dizziness", "swelling_edema", "pain_neck_jaw", "excessive_sweating",
    "persistent_cough", "nausea_vomiting", "chest_discomfort_activity",
    "cold_hands_feet", "snoring_sleep_apnea", "anxiety_feeling_doom"]

  /** A prediction is "at risk" exactly when its score is 1 (`=== 1`). */
  predicate AtRisk(score: real)
    ensures (score == 0.0 || score == 1.0) ==> (AtRisk(score) <==> Truthy(Some(JNum(score))))
  {
    score == 1.0
  }

  // ---------------------------------------------------------------------------
  // Probability lookup: each screen resolves the two label spellings the
  // service uses, with `??`, so a present key with value 0 is used.

  /** `p[first] ?? p[second] ?? 0`. */
  function NullishLookup(p: map<string, real>, first: string, second: string): (r: real)
    ensures first in p ==> r == p[first]
    ensures first !in p && second in p ==> r == p[second]
    ensures first !in p && second !in p ==> r == 0.0
  {
    if first in p then p[first] else if second in p then p[second] else 0.0
  }

  /** The probability of being at risk: `at_risk`, else `"1"`, else 0. */
  function RiskProbability(p: map<string, real>): (r: real)
    ensures "at_risk" in p ==> r == p["at_risk"]
    ensures "at_risk" !in p && "1" in p ==> r == p["1"]
    ensures "at_risk" !in p && "1" !in p ==> r == 0.0
  {
    NullishLookup(p, "at_risk", "1")
  }

  /** The probability of not being at risk: `not_at_risk`, else `"0"`, else 0. */
  function SafeProbability(p: map<string, real>): (r: real)
    ensures "not_at_risk" in p ==> r == p["not_at_risk"]
    ensures "not_at_risk" !in p && "0" in p ==> r == p["0"]
    ensures "not_at_risk" !in p && "0" !in p ==> r == 0.0
  {
    NullishLookup(p, "not_at_risk", "0")
  }

  // ---------------------------------------------------------------------------
  // Reading decoded bodies. The service's bodies are taken to have the
  // declared shapes; a field whose JSON type differs reads as absent.

  function StringField(j: Json, key: string): (s: string)
    ensures Property(j, key).Some? && Property(j, key).value.JStr? ==> s == Property(j, key).value.s
    ensures !(Property(j, key).Some? && Property(j, key).value.JStr?) ==> s == ""
  {
    match Property(j, key)
    case Some(JStr(s)) => s
    case _ => ""
  }

  function NumberField(j: Json, key: string): (n: Option<real>)
    ensures n.Some? <==> Property(j, key).Some? && Property(j, key).value.JNum?
    ensures n.Some? ==> Property(j, key) == Some(JNum(n.value))
  {
    match Property(j, key)
    case Some(JNum(n)) => Some(n)
    case _ => None
  }

  function DefaultsOf(j: Json): (d: Option<PersonalDefaults>)
    ensures d.Some? <==> Property(j, "personal_defaults").Some? && Property(j, "personal_defaults").value.JObj?
    ensures d.Some? ==>
      d.value.age == NumberField(Property(j, "personal_defaults").value, "age") &&
      d.value.highBloodPressure == NumberField(Property(j, "personal_defaults").value, "high_blood_pressure")
  {
    match Property(j, "personal_defaults")
    case Some(JObj(fields)) =>
      Some(PersonalDefaults(NumberField(JObj(fields), "age"), NumberField(JObj(fields), "high_blood_pressure")))
    case _ => None
  }

  /** The identity a `/users/me` body denotes; a falsy body (null, false, 0,
      "") leaves no user, as `setUser(userData)` followed by `!user` does. */
  function UserOf(j: Json): (u: Option<User>)
    ensures u.None? <==> !Truthy(Some(j))
    ensures u.Some? ==> u.value.personalDefaults == DefaultsOf(j)
    ensures u.Some? ==>
      u.value.id == StringField(j, "id") && u.value.email == StringField(j, "email") &&
      u.value.fullName == StringField(j, "full_name")
  {
    if Truthy(Some(j)) then
      Some(User(StringField(j, "id"), StringField(j, "email"), StringField(j, "full_name"), DefaultsOf(j)))
    else None
  }

  /** The `access_token` of a token response, or "" when it is not a string. */
  function AccessTokenOf(j: Json): (t: string)
    ensures Property(j, "access_token").Some? && Property(j, "access_token").value.JStr? ==>
      t == Property(j, "access_token").value.s
  {
    StringField(j, "access_token")
  }

  /** The number-valued properties of an object, as a string-keyed record of numbers. */
  function NumberMap(fields: seq<(string, Json)>): (m: map<string, real>)
    ensures forall k :: k in m <==> FieldLookup(fields, k).Some? && FieldLookup(fields, k).value.JNum?
    ensures forall k :: k in m ==> FieldLookup(fields, k) == Some(JNum(m[k]))
  {
    if |fields| == 0 then map[]
    else
      var rest := NumberMap(fields[1..]);
      match fields[0].1
      case JNum(n) => rest[fields[0].0 := n]
      case _ => rest - {fields[0].0}
  }

  /** The `probability` record of a body; a missing or non-object one has no keys. */
  function ProbabilityOf(j: Json): (m: map<string, real>)
    ensures forall k :: k in m <==> (Property(j, "probability").Some? && Property(j, "probability").value.JObj? &&
      Property(Property(j, "probability").value, k).Some? && Property(Property(j, "probability").value, k).value.JNum?)
    ensures forall k :: k in m ==> Property(Property(j, "probability").value, k) == Some(JNum(m[k]))
  {
    match Property(j, "probability")
    case Some(JObj(fields)) => NumberMap(fields)
    case _ => map[]
  }

  /** The score of a record; a missing or non-number one is never 1. */
  function ScoreOf(j: Json): (score: real)
    ensures AtRisk(score) <==> Property(j, "prediction_score") == Some(JNum(1.0))
    ensures NumberField(j, "prediction_score").Some? ==> score == NumberField(j, "prediction_score").value
  {
    match NumberField(j, "prediction_score")
    case Some(n) => n
    case None => 0.0
  }

  /** A prediction body as the assessment screen holds it; a falsy body holds no result. */
  function PredictionOf(j: Json): (p: Option<PredictionResponse>)
    ensures p.None? <==> !Truthy(Some(j))
    ensures p.Some? ==> (AtRisk(p.value.predictionScore) <==> Property(j, "prediction_score") == Some(JNum(1.0)))
    ensures p.Some? ==>
      p.value.modelUsed == StringField(j, "model_used") &&
      p.value.predictionLabel == StringField(j, "prediction_label") &&
      p.value.predictionScore == ScoreOf(j) && p.value.probability == ProbabilityOf(j)
  {
    if Truthy(Some(j)) then
      Some(PredictionResponse(StringField(j, "model_used"), StringField(j, "prediction_label"), ScoreOf(j), ProbabilityOf(j)))
    else None
  }

  function HistoryItemOf(j: Json): (h: HistoryItem)
    ensures AtRisk(h.predictionScore) <==> Property(j, "prediction_score") == Some(JNum(1.0))
    ensures h.id == StringField(j, "id") && h.timestamp == StringField(j, "timestamp")
    ensures h.modelUsed == StringField(j, "model_used") && h.predictionLabel == StringField(j, "prediction_label")
    ensures h.predictionScore == ScoreOf(j)
  {
    HistoryItem(StringField(j, "id"), StringField(j, "timestamp"), StringField(j, "model_used"),
      StringField(j, "prediction_label"), ScoreOf(j))
  }

  /** A history body: one record per array element, in order. */
  function HistoryListOf(j: Json): (h: seq<HistoryItem>)
    ensures j.JArr? ==> |h| == |j.items| && forall i :: 0 <= i < |h| ==> h[i] == HistoryItemOf(j.items[i])
    ensures !j.JArr? ==> h == []
  {
    if j.JArr? then ItemsOf(j.items) else []
  }

  function ItemsOf(items: seq<Json>): (h: seq<HistoryItem>)
    ensures |h| == |items| && forall i :: 0 <= i < |h| ==> h[i] == HistoryItemOf(items[i])
  {
    if |items| == 0 then [] else [HistoryItemOf(items[0])] + ItemsOf(items[1..])
  }

  /** A history-detail body; a falsy body holds no record. */
  function HistoryDetailOf(j: Json): (d: Option<HistoryDetail>)
    ensures d.None? <==> !Truthy(Some(j))
    ensures d.Some? ==> d.value.item == HistoryItemOf(j) && d.value.probability == ProbabilityOf(j)
    ensures d.Some? && Property(j, "input_data").Some? && Property(j, "input_data").value.JObj? ==>
      d.value.inputData == Property(j, "input_data").value.fields
  {
    if Truthy(Some(j)) then
      var inputs := match Property(j, "input_data") case Some(JObj(fields)) => fields case _ => [];
      Some(HistoryDetail(HistoryItemOf(j), inputs, ProbabilityOf(j)))
    else None
  }
}
