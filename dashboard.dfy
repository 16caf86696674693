/** The dashboard: the summary counts, the trend series, the recent-activity
    list and the profile status, all computed from the last ten predictions. */
module Dashboard {
  import opened Js
  import opened Types
  import opened Api
  import opened Ui
  import Assessment

  const RecentCount: nat := 5
  const DashboardLimit: nat := 10

  // ---------------------------------------------------------------------------
  // Counting

  /** `history.filter(h => h.prediction_score === 1)`. */
  function AtRiskItems(h: seq<HistoryItem>): (r: seq<HistoryItem>)
    ensures |r| <= |h|
    ensures forall x :: x in r ==> x in h && AtRisk(x.predictionScore)
    ensures forall x :: x in h && AtRisk(x.predictionScore) ==> x in r
  {
    if |h| == 0 then []
    else
      var rest := AtRiskItems(h[1..]);
      assert forall x :: x in h[1..] ==> x in h;
      assert forall x :: x in h ==> x == h[0] || x in h[1..];
      if AtRisk(h[0].predictionScore) then [h[0]] + rest else rest
  }

  /** The "At Risk Results" figure. */
  function AtRiskCount(h: seq<HistoryItem>): (n: nat)
    ensures n <= |h|
  {
    |AtRiskItems(h)|
  }

  /** The filter distributes over any split of the history, so the count adds up. */
  lemma {:induction false} AtRiskItemsAppend(a: seq<HistoryItem>, b: seq<HistoryItem>)
    ensures AtRiskItems(a + b) == AtRiskItems(a) + AtRiskItems(b)
    ensures AtRiskCount(a + b) == AtRiskCount(a) + AtRiskCount(b)
  {
    if |a| > 0 {
      assert (a + b)[1..] == a[1..] + b;
      assert (a + b)[0] == a[0];
      AtRiskItemsAppend(a[1..], b);
    } else {
      assert a + b == b;
    }
  }

  /** The count is the whole history exactly when every item is at risk,
      and zero exactly when none is. */
  lemma {:induction false} AtRiskCountExtremes(h: seq<HistoryItem>)
    ensures AtRiskCount(h) == |h| <==> forall i :: 0 <= i < |h| ==> AtRisk(h[i].predictionScore)
    ensures AtRiskCount(h) == 0 <==> forall i :: 0 <= i < |h| ==> !AtRisk(h[i].predictionScore)
  {
    if |h| > 0 {
      AtRiskCountExtremes(h[1..]);
      assert forall i :: 1 <= i < |h| ==> h[i] == h[1..][i - 1];
    }
  }

  // ---------------------------------------------------------------------------
  // Trend chart

  /** One point of the trend series (its date text is not modelled). */
  datatype ChartPoint = ChartPoint(name: string, score: real, caption: string)

  /** `slice().reverse()`: a reversed copy. */
  function Reversed<T>(s: seq<T>): (r: seq<T>)
    ensures |r| == |s| && forall i :: 0 <= i < |s| ==> r[i] == s[|s| - 1 - i]
  {
    if |s| == 0 then [] else Reversed(s[1..]) + [s[0]]
  }

  /** Reversing twice gives the sequence back. */
  lemma ReversedTwice<T>(s: seq<T>)
    ensures Reversed(Reversed(s)) == s
  {
  }

  /** `map((h, idx) => ...)` with points numbered from `start + 1`. */
  function Points(items: seq<HistoryItem>, start: nat): (ps: seq<ChartPoint>)
    ensures |ps| == |items|
    ensures forall i :: 0 <= i < |items| ==>
      ps[i] == ChartPoint("Test " + NatText(start + i + 1), items[i].predictionScore, items[i].predictionLabel)
  {
    if |items| == 0 then [] else [ChartPoint("Test " + NatText(start + 1), items[0].predictionScore, items[0].predictionLabel)] + Points(items[1..], start + 1)
  }

  /** The trend series: oldest first, so point i is the item n-1-i of the history (newest first). */
  function Chart(h: seq<HistoryItem>): (c: seq<ChartPoint>)
    ensures |c| == |h|
    ensures forall i :: 0 <= i < |h| ==>
      c[i] == ChartPoint("Test " + NatText(i + 1), h[|h| - 1 - i].predictionScore, h[|h| - 1 - i].predictionLabel)
  {
    Points(Reversed(h), 0)
  }

  /** The points have pairwise different names. */
  lemma ChartNamesDistinct(h: seq<HistoryItem>, i: nat, j: nat)
    requires i < j < |h|
    ensures Chart(h)[i].name != Chart(h)[j].name
  {
    var c := Chart(h);
    var a, b := NatText(i + 1), NatText(j + 1);
    assert c[i].name == "Test " + a;
    assert c[j].name == "Test " + b;
    if c[i].name == c[j].name {
      assert a == c[i].name[5..];
      assert b == c[j].name[5..];
      NatTextInjective(i + 1, j + 1);
    }
  }

  /** The chart is drawn only when there is history; otherwise a placeholder. */
  datatype TrendPanel = NotEnoughData | Trend(points: seq<ChartPoint>)

  function TrendView(h: seq<HistoryItem>): (p: TrendPanel)
    ensures p.NotEnoughData? <==> |h| == 0
    ensures p.Trend? ==> p.points == Chart(h)
  {
    if |h| > 0 then Trend(Chart(h)) else NotEnoughData
  }

  // ---------------------------------------------------------------------------
  // Recent activity

  /** `history.slice(0, 5)`. */
  function Recent(h: seq<HistoryItem>): (r: seq<HistoryItem>)
    ensures |r| == if |h| < RecentCount then |h| else RecentCount
    ensures forall i :: 0 <= i < |r| ==> r[i] == h[i]
  {
    if |h| < RecentCount then h else h[..RecentCount]
  }

  /** The badge a recent item carries: its variant key and its text. */
  function RiskBadge(item: HistoryItem): (badge: (string, string))
    ensures AtRisk(item.predictionScore) ==> badge == ("risk", "Risk")
    ensures !AtRisk(item.predictionScore) ==> badge == ("success", "Safe")
  {
    if AtRisk(item.predictionScore) then ("risk", "Risk") else ("success", "Safe")
  }

  /** The badge's final style is red exactly for an at-risk item: "Risk" is not
      one of the texts the badge recognises, so the `risk` variant decides. */
  method RiskBadgeStyle(item: HistoryItem) returns (style: string)
    ensures AtRisk(item.predictionScore) ==> style == RiskStyle && style == DangerStyle
    ensures !AtRisk(item.predictionScore) ==> style == SuccessStyle
  {
    var badge := RiskBadge(item);
    style := Badge(badge.1, Some(badge.0));
  }

  /** The recent-activity panel: loading, then an empty note, then the list. */
  datatype RecentPanel = RecentLoading | NoAssessments | RecentList(items: seq<HistoryItem>)

  function RecentView(loading: bool, h: seq<HistoryItem>): (p: RecentPanel)
    ensures p.RecentLoading? <==> loading
    ensures p.NoAssessments? <==> !loading && |h| == 0
    ensures p.RecentList? ==> p.items == Recent(h) && 0 < |p.items| <= RecentCount
  {
    if loading then RecentLoading else if |h| == 0 then NoAssessments else RecentList(Recent(h))
  }

  // ---------------------------------------------------------------------------
  // Profile status

  function ProfileStatus(user: Option<User>): (status: string)
    ensures status == "Optimized" <==>
      user.Some? && user.value.personalDefaults.Some? &&
      user.value.personalDefaults.value.age.Some? && user.value.personalDefaults.value.age.value > 0.0
    ensures status != "Optimized" ==> status == "Setup Needed"
  {
    var age := if user.Some? && user.value.personalDefaults.Some? then user.value.personalDefaults.value.age else None;
    if age.Some? && age.value != 0.0 && age.value > 0.0 then "Optimized" else "Setup Needed"
  }

  /** The dashboard's status checks the age only: a profile that can run assessments
      always reads "Optimized", but one without a hypertension value reads so too. */
  lemma ProfileStatusWeakerThanDefaults(user: Option<User>)
    ensures Assessment.HasDefaults(user) ==> ProfileStatus(user) == "Optimized"
    ensures var u := Some(User("u", "e", "n", Some(PersonalDefaults(Some(40.0), None))));
      ProfileStatus(u) == "Optimized" && !Assessment.HasDefaults(u)
  {
  }

  // ---------------------------------------------------------------------------
  // The screen's state

  class DashboardPage {
    const api: ApiService
    const user: Option<User>
    var history: seq<HistoryItem>
    var loading: bool

    constructor (api: ApiService, user: Option<User>)
      ensures this.api == api && this.user == user && history == [] && loading
    {
      this.api := api;
      this.user := user;
      history := [];
      loading := true;
    }

    /** The mount effect: the ten latest predictions; a failure leaves the history as it was. */
    method Load(reply: Exchange)
      modifies this`history, this`loading, api, api.browser
      ensures old(api.Valid()) ==> api.Valid()
      ensures !loading
      ensures |api.browser.requests| == |old(api.browser.requests)| + 1
      ensures api.browser.requests[..|old(api.browser.requests)|] == old(api.browser.requests)
      ensures var req := Last(api.browser.requests);
        req.verb == "GET" && req.path == HistoryPath(0, DashboardLimit) && req.body == NoBody &&
        BuiltHeaders(req.headers, old(api.token), false)
      ensures api.State() == AfterReply(reply, old(api.State()))
      ensures Settle(reply).Returned? ==> history == HistoryListOf(Settle(reply).value)
      ensures Settle(reply).Thrown? ==> history == old(history)
    {
      var o := api.GetHistory(0, DashboardLimit, reply);
      if o.Returned? {
        history := HistoryListOf(o.value);
      }
      loading := false;
    }
  }
}
