/** The assessment screen: the form it starts from, the symptom toggle, and
    the rule that a prediction is only requested with the profile's age and
    hypertension, which override whatever the form holds. */
module Assessment {
  import opened Js
  import opened Types
  import opened Api

  const ProfilePath: string := "/profile"
  const DefaultsAlert: string :=
    "Please set up your profile defaults (Age and Hypertension history) before running an assessment."
  /** The general health score a new form starts with. */
  const InitialRiskScore: real := 50.0

  /** The symptom checklist: each field key with its label, in display order. */
  const Symptoms: seq<(string, string)> := [
    ("chest_pain", "Chest Pain"),
    ("shortness_of_breath", "Shortness of Breath"),
    ("irregular_heartbeat", "Irregular Heartbeat"),
    ("fatigue_weakness", "Fatigue / Weakness"),
    ("dizziness", "Dizziness"),
    ("swelling_edema", "Swelling (Edema)"),
    ("pain_neck_jaw", "Pain in Neck/Jaw"),
    ("excessive_sweating", "Excessive Sweating"),
    ("persistent_cough", "Persistent Cough"),
    ("nausea_vomiting", "Nausea / Vomiting"),
    ("chest_discomfort_activity", "Chest Discomfort during Activity"),
    ("cold_hands_feet", "Cold Hands / Feet"),
    ("snoring_sleep_apnea", "Snoring / Sleep Apnea"),
    ("anxiety_feeling_doom", "Anxiety / Feeling of Doom")]

  function SymptomKeys(): (ks: seq<string>)
    ensures |ks| == |Symptoms| && forall i :: 0 <= i < |Symptoms| ==> ks[i] == Symptoms[i].0
  {
    seq(|Symptoms|, i requires 0 <= i < |Symptoms| => Symptoms[i].0)
  }

  /** The checklist has 14 distinct keys, each one a 0/1 field of the prediction input. */
  lemma SymptomsWellFormed()
    ensures |Symptoms| == 14
    ensures Distinct(SymptomKeys())
    ensures forall i :: 0 <= i < |Symptoms| ==> Symptoms[i].0 in BinaryFields
  {
    var ks := SymptomKeys();
    assert ks == BinaryFields[2..];
    BinaryFieldsDistinct();
    forall i, j | 0 <= i < j < |ks|
      ensures ks[i] != ks[j]
    {
      assert ks[i] == BinaryFields[i + 2] && ks[j] == BinaryFields[j + 2];
    }
  }

  /** A name's length and first two letters, which already tell the binary field names apart. */
  function Signature(name: string): (int, char, char)
  {
    if |name| < 2 then (|name|, ' ', ' ') else (|name|, name[0], name[1])
  }

  function Signatures(names: seq<string>): seq<(int, char, char)>
  {
    seq(|names|, k requires 0 <= k < |names| => Signature(names[k]))
  }

  /** The binary field names have pairwise different signatures, so they differ pairwise. */
  lemma BinaryFieldsDistinct()
    ensures Signatures(BinaryFields) == [
      (19, 'h', 'i'), (13, 'h', 'e'), (10, 'c', 'h'), (19, 's', 'h'), (19, 'i', 'r'), (16, 'f', 'a'),
      (9, 'd', 'i'), (14, 's', 'w'), (13, 'p', 'a'), (18, 'e', 'x'), (16, 'p', 'e'), (15, 'n', 'a'),
      (25, 'c', 'h'), (15, 'c', 'o'), (19, 's', 'n'), (20, 'a', 'n')]
    ensures Distinct(BinaryFields)
  {
    assert Signatures(BinaryFields) == [
      (19, 'h', 'i'), (13, 'h', 'e'), (10, 'c', 'h'), (19, 's', 'h'), (19, 'i', 'r'), (16, 'f', 'a'),
      (9, 'd', 'i'), (14, 's', 'w'), (13, 'p', 'a'), (18, 'e', 'x'), (16, 'p', 'e'), (15, 'n', 'a'),
      (25, 'c', 'h'), (15, 'c', 'o'), (19, 's', 'n'), (20, 'a', 'n')];
  }

  // ---------------------------------------------------------------------------
  // Profile defaults

  /** `user?.personal_defaults?.age`. */
  function DefaultAge(user: Option<User>): (age: Option<real>)
    ensures user.None? || user.value.personalDefaults.None? ==> age.None?
    ensures user.Some? && user.value.personalDefaults.Some? ==> age == user.value.personalDefaults.value.age
  {
    if user.Some? && user.value.personalDefaults.Some? then user.value.personalDefaults.value.age else None
  }

  /** `user?.personal_defaults?.high_blood_pressure`. */
  function DefaultHbp(user: Option<User>): (hbp: Option<real>)
    ensures user.None? || user.value.personalDefaults.None? ==> hbp.None?
    ensures user.Some? && user.value.personalDefaults.Some? ==> hbp == user.value.personalDefaults.value.highBloodPressure
  {
    if user.Some? && user.value.personalDefaults.Some? then user.value.personalDefaults.value.highBloodPressure else None
  }

  /** An assessment can run only with a positive age and a hypertension value on the profile. */
  predicate HasDefaults(user: Option<User>)
    ensures HasDefaults(user) ==> user.Some? && user.value.personalDefaults.Some?
    ensures HasDefaults(user) ==>
      DefaultAge(user).Some? && DefaultHbp(user).Some? &&
      OrZero(DefaultAge(user)) == DefaultAge(user).value > 0.0 && OrZero(DefaultHbp(user)) == DefaultHbp(user).value
  {
    DefaultAge(user).Some? && DefaultAge(user).value > 0.0 && DefaultHbp(user).Some?
  }

  /** `x || 0` for a number that may be undefined or null (0 itself gives 0 either way). */
  function OrZero(x: Option<real>): (r: real)
    ensures x.Some? ==> r == x.value
    ensures x.None? ==> r == 0.0
  {
    if x.Some? then x.value else 0.0
  }

  /** `hasDefaults` in full: both values present and the age positive,
      whatever is missing (no user, no defaults record, or the field). */
  lemma HasDefaultsIff(user: Option<User>)
    ensures HasDefaults(user) <==>
      user.Some? && user.value.personalDefaults.Some? &&
      user.value.personalDefaults.value.age.Some? && user.value.personalDefaults.value.age.value > 0.0 &&
      user.value.personalDefaults.value.highBloodPressure.Some?
  {
  }

  // ---------------------------------------------------------------------------
  // Form data

  function Zeroed(ks: seq<string>): (e: Entries)
    ensures Keys(e) == ks && forall i :: 0 <= i < |e| ==> e[i].1 == 0.0
  {
    if |ks| == 0 then [] else [(ks[0], 0.0)] + Zeroed(ks[1..])
  }

  /** The field keys of a form, in the order the form lists them. */
  function FormKeys(): seq<string>
  {
    ["age", "high_blood_pressure", "stroke_risk_percentage"] + SymptomKeys()
  }

  /** The form a new assessment starts from. */
  function InitialForm(user: Option<User>): (form: Entries)
    ensures Keys(form) == FormKeys()
  {
    var head := [("age", OrZero(DefaultAge(user))), ("high_blood_pressure", OrZero(DefaultHbp(user))),
      ("stroke_risk_percentage", InitialRiskScore)];
    assert Keys(head) == ["age", "high_blood_pressure", "stroke_risk_percentage"];
    KeysAppend(head, Zeroed(SymptomKeys()));
    head + Zeroed(SymptomKeys())
  }

  lemma {:induction false} KeysAppend(a: Entries, b: Entries)
    ensures Keys(a + b) == Keys(a) + Keys(b)
  {
    if |a| > 0 {
      assert (a + b)[1..] == a[1..] + b;
      KeysAppend(a[1..], b);
    }
  }

  predicate Apart(sigs: seq<(int, char, char)>)
  {
    forall i, j :: 0 <= i < j < |sigs| ==> sigs[i] != sigs[j]
  }

  lemma FormSignatures()
    ensures Signatures(FormKeys()) == [
      (3, 'a', 'g'), (19, 'h', 'i'), (22, 's', 't'),
      (10, 'c', 'h'), (19, 's', 'h'), (19, 'i', 'r'), (16, 'f', 'a'),
      (9, 'd', 'i'), (14, 's', 'w'), (13, 'p', 'a'), (18, 'e', 'x'), (16, 'p', 'e'), (15, 'n', 'a'),
      (25, 'c', 'h'), (15, 'c', 'o'), (19, 's', 'n'), (20, 'a', 'n')]
  {
    var head := ["age", "high_blood_pressure", "stroke_risk_percentage"];
    assert SymptomKeys() == BinaryFields[2..];
    assert Signatures(head) == [(3, 'a', 'g'), (19, 'h', 'i'), (22, 's', 't')];
    BinaryFieldsDistinct();
    assert Signatures(FormKeys()) == Signatures(head) + Signatures(BinaryFields)[2..];
  }

  lemma FormSignaturesApart()
    ensures Apart([
      (3, 'a', 'g'), (19, 'h', 'i'), (22, 's', 't'),
      (10, 'c', 'h'), (19, 's', 'h'), (19, 'i', 'r'), (16, 'f', 'a'),
      (9, 'd', 'i'), (14, 's', 'w'), (13, 'p', 'a'), (18, 'e', 'x'), (16, 'p', 'e'), (15, 'n', 'a'),
      (25, 'c', 'h'), (15, 'c', 'o'), (19, 's', 'n'), (20, 'a', 'n')])
  {
  }

  lemma FormKeysDistinct()
    ensures Distinct(FormKeys())
  {
    FormSignatures();
    FormSignaturesApart();
    var ks := FormKeys();
    forall i, j | 0 <= i < j < |ks|
      ensures ks[i] != ks[j]
    {
      assert Signatures(ks)[i] != Signatures(ks)[j];
    }
  }

  /** The initial form takes age and hypertension from the profile (0 where
      missing), starts the health score at 50 and every symptom at 0. */
  lemma InitialFormValues(user: Option<User>)
    ensures Get(InitialForm(user), "age") == Some(OrZero(DefaultAge(user)))
    ensures Get(InitialForm(user), "high_blood_pressure") == Some(OrZero(DefaultHbp(user)))
    ensures Get(InitialForm(user), "stroke_risk_percentage") == Some(InitialRiskScore)
    ensures forall i :: 0 <= i < |Symptoms| ==> Get(InitialForm(user), Symptoms[i].0) == Some(0.0)
  {
    var f := InitialForm(user);
    FormKeysDistinct();
    GetAt(f, 0);
    GetAt(f, 1);
    GetAt(f, 2);
    forall i | 0 <= i < |Symptoms|
      ensures Get(f, Symptoms[i].0) == Some(0.0)
    {
      assert Keys(f)[i + 3] == Symptoms[i].0;
      GetAt(f, i + 3);
    }
  }

  /** `handleToggle(key)`: the field becomes 0 if it was 1, and 1 otherwise. */
  function Toggled(form: Entries, key: string): (r: Entries)
    ensures Get(r, key) == Some(0.0) || Get(r, key) == Some(1.0)
  {
    var v := if Get(form, key) == Some(1.0) then 0.0 else 1.0;
    GetSetSame(form, key, v);
    Set(form, key, v)
  }

  /** The toggle flips its own field and touches no other. */
  lemma ToggleFlips(form: Entries, key: string)
    ensures Get(Toggled(form, key), key) == Some(if Get(form, key) == Some(1.0) then 0.0 else 1.0)
    ensures forall k :: k != key ==> Get(Toggled(form, key), k) == Get(form, k)
    ensures key in Keys(form) ==> Keys(Toggled(form, key)) == Keys(form)
  {
    GetSetSame(form, key, if Get(form, key) == Some(1.0) then 0.0 else 1.0);
    forall k | k != key
      ensures Get(Toggled(form, key), k) == Get(form, k)
    {
      GetSetOther(form, key, if Get(form, key) == Some(1.0) then 0.0 else 1.0, k);
    }
    if key in Keys(form) {
      SetKeepsKeys(form, key, if Get(form, key) == Some(1.0) then 0.0 else 1.0);
    }
  }

  /** On a 0/1 field, toggling twice reads back the form's value everywhere. */
  lemma ToggleTwice(form: Entries, key: string)
    requires Get(form, key) == Some(0.0) || Get(form, key) == Some(1.0)
    ensures forall k :: Get(Toggled(Toggled(form, key), key), k) == Get(form, k)
  {
    ToggleFlips(form, key);
    ToggleFlips(Toggled(form, key), key);
  }

  /** The submitted record: the form with age and hypertension replaced by the profile's values. */
  function Payload(form: Entries, age: real, hbp: real): (r: Entries)
    ensures "age" in Keys(r) && "high_blood_pressure" in Keys(r)
    ensures forall x :: x in Keys(form) ==> x in Keys(r)
  {
    Set(Set(form, "age", age), "high_blood_pressure", hbp)
  }

  /** The payload carries the profile's values and otherwise the form's. */
  lemma PayloadOverrides(form: Entries, age: real, hbp: real)
    ensures Get(Payload(form, age, hbp), "age") == Some(age)
    ensures Get(Payload(form, age, hbp), "high_blood_pressure") == Some(hbp)
    ensures forall k :: k != "age" && k != "high_blood_pressure" ==> Get(Payload(form, age, hbp), k) == Get(form, k)
  {
    GetSetSame(form, "age", age);
    GetSetOther(Set(form, "age", age), "high_blood_pressure", hbp, "age");
    GetSetSame(Set(form, "age", age), "high_blood_pressure", hbp);
    forall k | k != "age" && k != "high_blood_pressure"
      ensures Get(Payload(form, age, hbp), k) == Get(form, k)
    {
      GetSetOther(Set(form, "age", age), "high_blood_pressure", hbp, k);
      GetSetOther(form, "age", age, k);
    }
  }

  /** A form with both fields keeps its keys, and their order, in the payload. */
  lemma PayloadKeepsKeys(form: Entries, age: real, hbp: real)
    requires "age" in Keys(form) && "high_blood_pressure" in Keys(form)
    ensures Keys(Payload(form, age, hbp)) == Keys(form)
  {
    SetKeepsKeys(form, "age", age);
    SetKeepsKeys(Set(form, "age", age), "high_blood_pressure", hbp);
  }

  // ---------------------------------------------------------------------------
  // Result display

  /** What the result card shows: the label as its heading, the model as shown,
      the two probabilities behind the percentages, and whether the red styling
      and the high-risk recommendations are chosen. */
  datatype ResultCard = ResultCard(heading: string, model: string, risk: real, safe: real, highRisk: bool)

  function ResultView(res: PredictionResponse): (card: ResultCard)
    ensures card.heading == res.predictionLabel
    ensures card.highRisk <==> res.predictionScore == 1.0
    ensures card.model == ModelLabel(res.modelUsed)
    ensures card.risk == RiskProbability(res.probability) && card.safe == SafeProbability(res.probability)
  {
    ResultCard(res.predictionLabel, ModelLabel(res.modelUsed), RiskProbability(res.probability),
      SafeProbability(res.probability), AtRisk(res.predictionScore))
  }

  /** The card of a prediction body: red iff the body's score is 1, and the risk
      figure is the body's `at_risk` number, else its `"1"` number, else 0. */
  lemma ResultShowsBody(j: Json)
    requires PredictionOf(j).Some?
    ensures ResultView(PredictionOf(j).value).highRisk <==> Property(j, "prediction_score") == Some(JNum(1.0))
    ensures var p := Property(j, "probability");
      p.Some? && Property(p.value, "at_risk").Some? && Property(p.value, "at_risk").value.JNum? ==>
      ResultView(PredictionOf(j).value).risk == Property(p.value, "at_risk").value.n
    ensures var p := Property(j, "probability");
      p.Some? && !(Property(p.value, "at_risk").Some? && Property(p.value, "at_risk").value.JNum?) &&
      Property(p.value, "1").Some? && Property(p.value, "1").value.JNum? ==>
      ResultView(PredictionOf(j).value).risk == Property(p.value, "1").value.n
    ensures var p := Property(j, "probability");
      !(p.Some? && p.value.JObj?) ==> ResultView(PredictionOf(j).value).risk == 0.0
  {
    var m := PredictionOf(j).value.probability;
    assert m == ProbabilityOf(j);
  }

  /** The model picker: one option per model, in declaration order, each
      shown with its first `_` as a space. */
  function PickerLabels(): (labels: seq<string>)
    ensures labels == ["logistic", "random forest", "svm"]
  {
    LogisticLabel();
    RandomForestLabel();
    SvmLabel();
    [ModelLabel(AllModels[0].Slug()), ModelLabel(AllModels[1].Slug()), ModelLabel(AllModels[2].Slug())]
  }

  /** `model_used.replace('_', ' ')`: only the first underscore becomes a space. */
  function ModelLabel(modelUsed: string): (shown: string)
    ensures |shown| == |modelUsed|
    ensures forall i :: 0 <= i < |modelUsed| ==>
      shown[i] == (if modelUsed[i] == '_' && '_' !in modelUsed[..i] then ' ' else modelUsed[i])
    ensures Occurrences(modelUsed, '_') <= 1 ==> shown == ReplaceAll(modelUsed, '_', ' ')
  {
    var replaced := ReplaceFirst(modelUsed, '_', ' ');
    if Occurrences(modelUsed, '_') <= 1 then
      ReplaceFirstIsReplaceAll(modelUsed, '_', ' ');
      replaced
    else replaced
  }

  /** The labels of the three models the service offers. */
  lemma LogisticLabel()
    ensures ModelLabel(Logistic.Slug()) == "logistic"
  {
    ReplaceFirstAbsent("logistic", '_', ' ');
  }

  lemma SvmLabel()
    ensures ModelLabel(Svm.Slug()) == "svm"
  {
    ReplaceFirstAbsent("svm", '_', ' ');
  }

  lemma RandomForestLabel()
    ensures ModelLabel(RandomForest.Slug()) == "random forest"
  {
    assert "random_forest" == "random" + ['_'] + "forest";
    ReplaceFirstAt("random", "forest", '_', ' ');
    assert "random" + [' '] + "forest" == "random forest";
  }

  // ---------------------------------------------------------------------------
  // The screen's state

  class AssessmentPage {
    const api: ApiService
    const user: Option<User>
    var form: Entries
    var model: ModelType
    var loading: bool
    var result: Option<PredictionResponse>
    /** The messages shown with `alert`, oldest first. */
    var alerts: seq<string>

    constructor (api: ApiService, user: Option<User>)
      ensures this.api == api && this.user == user
      ensures form == InitialForm(user) && model == RandomForest && !loading && result == None && alerts == []
    {
      this.api := api;
      this.user := user;
      form := InitialForm(user);
      model := RandomForest;
      loading := false;
      result := None;
      alerts := [];
    }

    method Toggle(key: string)
      modifies this`form
      ensures form == Toggled(old(form), key)
    {
      form := Toggled(form, key);
    }

    /** `handleChange`: the named field takes the parsed number. */
    method Change(name: string, value: real)
      modifies this`form
      ensures form == Set(old(form), name, value)
    {
      form := Set(form, name, value);
    }

    method SelectModel(m: ModelType)
      modifies this`model
      ensures model == m
    {
      model := m;
    }

    /** "Assess Again": back to the form, which keeps its values. */
    method Reset()
      modifies this`result
      ensures result == None
    {
      result := None;
    }

    /** `handleSubmit`: without profile defaults, alert and go to the profile,
        sending nothing; otherwise send the payload to the chosen model. */
    method Submit(reply: Exchange)
      modifies this`loading, this`result, this`alerts, api, api.browser
      ensures old(api.Valid()) ==> api.Valid()
      ensures !HasDefaults(user) ==>
        api.browser.requests == old(api.browser.requests) && api.browser.hash == "#" + ProfilePath &&
        api.token == old(api.token) && api.browser.storage == old(api.browser.storage) &&
        alerts == old(alerts) + [DefaultsAlert] && result == old(result) && loading == old(loading)
      ensures HasDefaults(user) ==>
        var sent := Payload(form, DefaultAge(user).value, DefaultHbp(user).value);
        |api.browser.requests| == |old(api.browser.requests)| + 1 &&
        api.browser.requests[..|old(api.browser.requests)|] == old(api.browser.requests) &&
        Last(api.browser.requests).verb == "POST" &&
        Last(api.browser.requests).path == "/predict/" + model.Slug() &&
        Last(api.browser.requests).body == JsonBody(EntriesJson(sent)) &&
        BuiltHeaders(Last(api.browser.requests).headers, old(api.token), false) &&
        api.State() == AfterReply(reply, old(api.State())) && !loading &&
        (Settle(reply).Returned? ==> result == PredictionOf(Settle(reply).value) && alerts == old(alerts)) &&
        (Settle(reply).Thrown? ==> result == None && alerts == old(alerts) + [MessageOf(Settle(reply).failure)])
    {
      if !HasDefaults(user) {
        alerts := alerts + [DefaultsAlert];
        api.browser.Navigate(ProfilePath);
        return;
      }
      loading := true;
      result := None;
      var payload := Payload(form, DefaultAge(user).value, DefaultHbp(user).value);
      var o := api.Predict(model, payload, reply);
      match o {
        case Returned(data) =>
          result := PredictionOf(data);
        case Thrown(f) =>
          alerts := alerts + [MessageOf(f)];
      }
      loading := false;
    }
  }
}
