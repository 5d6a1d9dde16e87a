/**
 * The report lookup page: a saved report is fetched by its four-digit id and shown with a
 * five-step verdict and a label per reading. The page moves between the steps search,
 * loading, found, not-found and error; each user action and each settled fetch is one
 * transition, and the two effects that react to the URL's `?id=` and to the input are folded
 * into the transitions that trigger them.
 */
module Lookup {
  import opened Wrappers
  import opened Strings
  import opened Json
  import Vitals

  // ---------------------------------------------------------------------------------------
  // Scoring a saved report
  // ---------------------------------------------------------------------------------------

  /** `computeScore`: the score of the report's pulse, systolic and diastolic fields. */
  function ComputeScore(report: Js): (s: nat)
    ensures s <= 6
  {
    Vitals.Score(Vitals.Reading(Get(report, "bpm")), Vitals.Reading(Get(report, "bpv1")),
                 Vitals.Reading(Get(report, "bpv0")))
  }

  /** The label `getVitalStatus` gives a field of the report: `bpm`, `bpv1` as "sys", `bpv0` as "dia". */
  function FieldStatus(kind: string, report: Js): (st: Vitals.Status)
    ensures st == Vitals.NoStatus <==> kind != "bpm" && kind != "sys" && kind != "dia"
  {
    var field := if kind == "sys" then "bpv1" else if kind == "dia" then "bpv0" else kind;
    Vitals.VitalStatus(kind, Get(report, field))
  }

  /** The computed score is what the three labels shown on the page stand for. */
  lemma ComputeScoreIsSumOfStatuses(report: Js)
    ensures ComputeScore(report) == Vitals.StatusPoints(FieldStatus("bpm", report))
      + Vitals.StatusPoints(FieldStatus("sys", report)) + Vitals.StatusPoints(FieldStatus("dia", report))
  {
    Vitals.StatusMatchesPoints(Vitals.Reading(Get(report, "bpm")));
    Vitals.StatusMatchesPoints(Vitals.Reading(Get(report, "bpv1")));
    Vitals.StatusMatchesPoints(Vitals.Reading(Get(report, "bpv0")));
  }

  /** The report of a measurement, as the measurement screen's five fields. */
  function AsReport(r: Vitals.VitalResult): Js {
    JObj(map["bpm" := r.bpm, "bpv1" := r.bpv1, "bpv0" := r.bpv0, "S2" := r.S2, "LTv" := r.LTv])
  }

  /** The lookup page scores a measurement exactly as the measurement screen does. */
  lemma SameScoreAsCapture(r: Vitals.VitalResult)
    ensures ComputeScore(AsReport(r)) == Vitals.ResultScore(r)
  {
    var m := AsReport(r);
    assert Get(m, "bpm") == r.bpm && Get(m, "bpv1") == r.bpv1 && Get(m, "bpv0") == r.bpv0;
  }

  /** The five verdicts of the lookup page: 絶好調, 良好, 普通, やや注意, 要確認. */
  datatype Verdict = Excellent | Good | Fair | Caution | Check

  /** A verdict's place from worst (0) to best (4). */
  function Rank(v: Verdict): nat {
    match v
    case Check => 0
    case Caution => 1
    case Fair => 2
    case Good => 3
    case Excellent => 4
  }

  /** The verdict of a score; NaN (`None`) fails every threshold. */
  function VerdictOf(score: Option<real>): (v: Verdict)
    ensures v == Excellent <==> score.Some? && score.value >= 6.0
    ensures v == Good <==> score.Some? && 5.0 <= score.value < 6.0
    ensures v == Fair <==> score.Some? && 3.0 <= score.value < 5.0
    ensures v == Caution <==> score.Some? && 1.0 <= score.value < 3.0
    ensures v == Check <==> score.None? || score.value < 1.0
  {
    match score
    case None => Check
    case Some(x) =>
      if x >= 6.0 then Excellent
      else if x >= 5.0 then Good
      else if x >= 3.0 then Fair
      else if x >= 1.0 then Caution
      else Check
  }

  /** A higher score never gets a worse verdict. */
  lemma VerdictMonotone(a: real, b: real)
    requires a <= b
    ensures Rank(VerdictOf(Some(a))) <= Rank(VerdictOf(Some(b)))
  {
  }

  /** `report.score ?? computeScore(report)`, as the number the thresholds compare against. */
  function EffectiveScore(report: Js): (score: Option<real>)
    ensures Nullish(Get(report, "score")) ==> score == Some(ComputeScore(report) as real)
    ensures Get(report, "score").JNum? ==> score == Some(Get(report, "score").n)
  {
    var stored := Get(report, "score");
    if Nullish(stored) then Some(ComputeScore(report) as real) else ToNumber(stored)
  }

  /**
   * `getOverallEvaluation`, reduced to its verdict: the first of the thresholds 6, 5, 3 and 1
   * that the effective score reaches, and 要確認 when it reaches none or is NaN.
   */
  function Evaluation(report: Js): (v: Verdict)
    ensures var s := EffectiveScore(report); v == Excellent <==> s.Some? && s.value >= 6.0
    ensures var s := EffectiveScore(report); v == Good <==> s.Some? && 5.0 <= s.value < 6.0
    ensures var s := EffectiveScore(report); v == Fair <==> s.Some? && 3.0 <= s.value < 5.0
    ensures var s := EffectiveScore(report); v == Caution <==> s.Some? && 1.0 <= s.value < 3.0
    ensures var s := EffectiveScore(report); v == Check <==> s.None? || s.value < 1.0
    ensures Nullish(Get(report, "score")) ==> v != Check || ComputeScore(report) == 0
  {
    VerdictOf(EffectiveScore(report))
  }

  /**
   * Without a stored score the five verdicts refine the measurement screen's three grades:
   * 絶好調 and 良好 are its 良好, 普通 its やや注意, and やや注意 and 要確認 its 要確認.
   * 絶好調 needs all three readings in their normal bands, 要確認 none in its borderline band.
   */
  lemma ComputedVerdictRefinesGrade(report: Js)
    requires Nullish(Get(report, "score"))
    ensures var g := Vitals.GradeOf(ComputeScore(report));
      && (Evaluation(report) in {Excellent, Good} <==> g == Vitals.Good)
      && (Evaluation(report) == Fair <==> g == Vitals.SomewhatCautious)
      && (Evaluation(report) in {Caution, Check} <==> g == Vitals.NeedsCheck)
    ensures Evaluation(report) == Excellent <==>
      (&& FieldStatus("bpm", report) == Vitals.Normal
       && FieldStatus("sys", report) == Vitals.Normal
       && FieldStatus("dia", report) == Vitals.Normal)
    ensures Evaluation(report) == Check <==>
      (&& FieldStatus("bpm", report) == Vitals.Check
       && FieldStatus("sys", report) == Vitals.Check
       && FieldStatus("dia", report) == Vitals.Check)
  {
    ComputeScoreIsSumOfStatuses(report);
  }

  /** A stored score decides the verdict, whatever the readings say. */
  lemma StoredScoreDecides(report: Js, other: Js)
    requires !Nullish(Get(report, "score")) && Get(other, "score") == Get(report, "score")
    ensures Evaluation(report) == Evaluation(other)
  {
  }

  // ---------------------------------------------------------------------------------------
  // The input field
  // ---------------------------------------------------------------------------------------

  /** `/^\d{4}$/`: exactly four decimal digits. */
  predicate FourDigits(s: string) {
    |s| == 4 && AllDigits(s)
  }

  /** `value.replace(/\D/g, "").slice(0, 4)`: the first four digits typed, in order. */
  function Sanitize(raw: string): (r: string)
    ensures AllDigits(r) && |r| <= 4 && |r| <= |DigitsOf(raw)|
    ensures r == DigitsOf(raw)[..|r|]
    ensures |r| == 4 || r == DigitsOf(raw)
  {
    Take(DigitsOf(raw), 4)
  }

  /** Sanitising leaves a string alone exactly when it is at most four digits. */
  lemma SanitizeFixpoint(s: string)
    ensures Sanitize(s) == s <==> AllDigits(s) && |s| <= 4
  {
    DigitsOfFixpoint(s);
  }

  /** Sanitising twice is sanitising once. */
  lemma SanitizeIdempotent(raw: string)
    ensures Sanitize(Sanitize(raw)) == Sanitize(raw)
  {
    SanitizeFixpoint(Sanitize(raw));
  }

  /** Typing more keeps what was already there: sanitising respects prefixes. */
  lemma {:induction false} SanitizeAppend(a: string, b: string)
    requires |DigitsOf(a)| <= 4
    ensures Sanitize(a + b) == Take(Sanitize(a) + DigitsOf(b), 4)
  {
    DigitsOfAppend(a, b);
  }

  // ---------------------------------------------------------------------------------------
  // The page
  // ---------------------------------------------------------------------------------------

  datatype LookupStep = Search | Loading | Found | NotFound | Failed

  /** The error text the page shows for every kind of failure. */
  const LookupFailed: string := "レポートの取得に失敗しました。しばらく時間をおいて再度お試しください。"

  /**
   * The page's state: the step, the input, the report shown, the error text, the `id` of the
   * URL's query string, and the id of the fetch in flight, if any.
   */
  datatype Page = Page(step: LookupStep, inputId: string, report: Option<Js>, errorMsg: string,
                       url: string, pending: Option<string>)

  /** The search form, with its input, is on screen in these steps. */
  predicate FormShown(step: LookupStep) {
    step == Search || step == NotFound || step == Failed
  }

  /** How a lookup fetch settles: aborted after ten seconds, rejected, or answered. `body` is `None` when the answer is not JSON. */
  datatype FetchOutcome = TimedOut | Rejected | Answered(status: int, body: Option<Js>)

  /** What the page makes of a settled fetch. */
  datatype Answer = FoundReport(report: Js) | Missing | Failure

  /** `res.ok`. */
  predicate StatusOk(status: int) {
    200 <= status <= 299
  }

  /**
   * The classification in `handleSearch`: 404 is "not found"; any other status outside
   * 200-299, a timeout, a rejected fetch, a body that is not JSON and a `null` body all fail
   * alike; otherwise the body's `report` is shown when truthy and "not found" otherwise.
   */
  function Classify(o: FetchOutcome): (a: Answer)
    ensures a.FoundReport? <==>
      (&& o.Answered? && StatusOk(o.status) && o.body.Some? && !Nullish(o.body.value)
       && Truthy(Get(o.body.value, "report")))
    ensures a.FoundReport? ==> a.report == Get(o.body.value, "report")
    ensures a == Missing <==>
      (o.Answered? && (o.status == 404 || (StatusOk(o.status) && o.body.Some? && !Nullish(o.body.value)
                                          && !Truthy(Get(o.body.value, "report")))))
    ensures a == Failure <==>
      (|| !o.Answered?
       || (o.status != 404 && !StatusOk(o.status))
       || (StatusOk(o.status) && (o.body.None? || Nullish(o.body.value))))
  {
    match o
    case TimedOut => Failure
    case Rejected => Failure
    case Answered(status, body) =>
      if status == 404 then Missing
      else if !StatusOk(status) then Failure
      else match body
        case None => Failure
        case Some(data) =>
          match Member(data, "report")
          case None => Failure
          case Some(report) => if Truthy(report) then FoundReport(report) else Missing
  }

  /** `handleSearch(id)` up to the fetch: a trimmed id of four digits starts a lookup, anything else is ignored. */
  function StartSearch(p: Page, id: string): (t: Page)
    ensures !FourDigits(Trim(id)) ==> t == p
    ensures FourDigits(Trim(id)) ==>
      && t.step == Loading && t.report.None? && t.errorMsg == "" && t.pending == Some(Trim(id))
      && t.inputId == p.inputId && t.url == p.url
  {
    var searchId := Trim(id);
    if !FourDigits(searchId) then p
    else p.(step := Loading, report := None, errorMsg := "", pending := Some(searchId))
  }

  /** The effect on the input: a four-digit input equal to the URL's id is searched at once from the search step. */
  function AutoSearch(p: Page): (t: Page)
    ensures t != p ==> FourDigits(p.inputId) && p.inputId == p.url && p.step == Search
    ensures FourDigits(p.inputId) && p.inputId == p.url && p.step == Search ==> t.step == Loading
  {
    if FourDigits(p.inputId) && p.url == p.inputId && p.step == Search then StartSearch(p, p.inputId)
    else p
  }

  /** The effect on the URL: a four-digit `?id=` is copied into the input. */
  function Prefill(p: Page): (t: Page)
    ensures FourDigits(p.url) ==> t.inputId == p.url
    ensures !FourDigits(p.url) ==> t == p
    ensures t.(inputId := p.inputId) == p
  {
    if FourDigits(p.url) then p.(inputId := p.url) else p
  }

  /** The page as it first renders for a URL whose query `id` is `url` (`""` when absent). */
  function Mount(url: string): (p: Page)
    ensures FourDigits(url) ==> p.step == Loading && p.pending == Some(url) && p.inputId == url
    ensures !FourDigits(url) ==> p.step == Search && p.inputId == "" && p.pending.None?
  {
    var p0 := Page(Search, "", None, "", url, None);
    var p1 := Prefill(p0);
    if p1.inputId != p0.inputId then AutoSearch(p1) else p1
  }

  /** Typing changed the input into the URL's four-digit id, which the input effect then looks up. */
  predicate TypedUrlId(p: Page, val: string) {
    val != p.inputId && FourDigits(val) && val == p.url
  }

  /**
   * `handleInputChange`, followed by the input effect when the input changed. The step goes
   * back to search, and the report is dropped, only from found, not-found and error; from any
   * step but loading, typing the URL's id starts its lookup.
   */
  function OnInput(p: Page, raw: string): (t: Page)
    ensures p.step == Search || p.step == Loading ==>
      t.step == p.step || (p.step == Search && t.step == Loading)
    ensures p.step != Search && p.step != Loading ==>
      t.report.None? && (t.step == Search || (t.step == Loading && t.pending == Some(t.url)))
    ensures t.inputId == Sanitize(raw)
    ensures p.step == Loading ==> t == p.(inputId := Sanitize(raw))
    ensures p.step != Loading ==> (t.step == Loading <==> TypedUrlId(p, Sanitize(raw)))
    ensures p.step != Loading && TypedUrlId(p, Sanitize(raw)) ==>
      t == p.(step := Loading, inputId := p.url, report := None, errorMsg := "", pending := Some(p.url))
    ensures p.step == Search && !TypedUrlId(p, Sanitize(raw)) ==> t == p.(inputId := Sanitize(raw))
    ensures p.step != Search && p.step != Loading && !TypedUrlId(p, Sanitize(raw)) ==>
      t == p.(step := Search, inputId := Sanitize(raw), report := None)
  {
    var val := Sanitize(raw);
    var p1 := p.(inputId := val);
    var p2 := if p.step != Search && p.step != Loading then p1.(step := Search, report := None) else p1;
    if val != p.inputId then AutoSearch(p2) else p2
  }

  /**
   * The form's submission: `handleSearch(inputId)`. A trimmed input of four digits starts a
   * lookup of exactly that id; any other input leaves the page as it was.
   */
  function OnSubmit(p: Page): (t: Page)
    ensures t.inputId == p.inputId && t.url == p.url
    ensures FourDigits(Trim(p.inputId)) ==>
      t.step == Loading && t.report.None? && t.errorMsg == "" && t.pending == Some(Trim(p.inputId))
    ensures !FourDigits(Trim(p.inputId)) ==> t == p
  {
    StartSearch(p, p.inputId)
  }

  /**
   * The input only ever holds what `Sanitize` leaves, so submitting it looks up the typed id
   * itself: four digits start that lookup, fewer are ignored.
   */
  lemma SubmitTypedId(p: Page, raw: string)
    ensures var q := p.(inputId := Sanitize(raw));
      && (|Sanitize(raw)| == 4 ==> OnSubmit(q).step == Loading && OnSubmit(q).pending == Some(Sanitize(raw)))
      && (|Sanitize(raw)| < 4 ==> OnSubmit(q) == q)
  {
    var id := Sanitize(raw);
    if |id| > 0 {
      TrimUnspaced(id);
    }
  }

  /**
   * The fetch settles. A found report is shown and the URL takes the searched id, whose
   * effect then copies it into the input; otherwise the step tells not-found from error.
   */
  function OnSettled(p: Page, o: FetchOutcome): (t: Page)
    ensures t.pending.None?
    ensures t.step == (match Classify(o) case FoundReport(_) => Found case Missing => NotFound case Failure => Failed)
    ensures Classify(o).FoundReport? ==> t.report == Some(Classify(o).report)
    ensures Classify(o) == Failure ==> t.errorMsg == LookupFailed
  {
    var searchId := p.pending.GetOr(p.inputId);
    match Classify(o)
    case FoundReport(report) =>
      Prefill(p.(step := Found, report := Some(report), pending := None, url := searchId))
    case Missing => p.(step := NotFound, pending := None)
    case Failure => p.(step := Failed, errorMsg := LookupFailed, pending := None)
  }

  /** `handleReset`: back to an empty search, with the URL's id removed. */
  function OnReset(p: Page): (t: Page)
    ensures t.step == Search && t.inputId == "" && t.report.None? && t.errorMsg == "" && t.url == ""
  {
    Page(Search, "", None, "", "", p.pending)
  }

  datatype Event = Typed(raw: string) | Submitted | Settled(outcome: FetchOutcome) | ResetPressed

  /**
   * What the screen lets happen: typing and submitting need the form, and the search button
   * is disabled unless the input has four characters; a fetch settles only while loading; the
   * reset button exists only beside a found report.
   */
  predicate Enabled(p: Page, e: Event) {
    match e
    case Typed(_) => FormShown(p.step)
    case Submitted => FormShown(p.step) && |p.inputId| == 4
    case Settled(_) => p.step == Loading
    case ResetPressed => p.step == Found
  }

  function Next(p: Page, e: Event): Page
    requires Enabled(p, e)
  {
    match e
    case Typed(raw) => OnInput(p, raw)
    case Submitted => OnSubmit(p)
    case Settled(o) => OnSettled(p, o)
    case ResetPressed => OnReset(p)
  }

  /**
   * What always holds on the page: the input is at most four digits; a fetch is in flight
   * exactly while loading, for the id in the input; a report is held exactly on the found step,
   * and is truthy; a found report's id is in the URL; the error step carries the error text.
   */
  predicate Inv(p: Page) {
    && AllDigits(p.inputId) && |p.inputId| <= 4
    && (p.pending.Some? <==> p.step == Loading)
    && (p.pending.Some? ==> p.pending.value == p.inputId && FourDigits(p.inputId))
    && (p.report.Some? <==> p.step == Found)
    && (p.report.Some? ==> Truthy(p.report.value))
    && (p.step == Found ==> p.url == p.inputId)
    && (p.step == Failed ==> p.errorMsg == LookupFailed)
  }

  lemma MountInv(url: string)
    ensures Inv(Mount(url))
  {
  }

  /** Every enabled event keeps the page consistent. */
  lemma NextPreservesInv(p: Page, e: Event)
    requires Inv(p) && Enabled(p, e)
    ensures Inv(Next(p, e))
  {
    match e
    case Typed(raw) => TypedPreservesInv(p, raw);
    case Submitted => TrimDigits(p.inputId);
    case Settled(o) =>
    case ResetPressed =>
  }

  lemma TypedPreservesInv(p: Page, raw: string)
    requires Inv(p) && FormShown(p.step)
    ensures Inv(OnInput(p, raw))
  {
    var val := Sanitize(raw);
    if FourDigits(val) {
      TrimDigits(val);
    }
  }

  /**
   * The search button always starts a lookup: with the button enabled, the input is four
   * digits, so the page goes to loading and fetches exactly that id.
   */
  lemma SubmitAlwaysSearches(p: Page)
    requires Inv(p) && Enabled(p, Submitted)
    ensures Next(p, Submitted).step == Loading && Next(p, Submitted).pending == Some(p.inputId)
  {
    TrimDigits(p.inputId);
  }

  /** A found report's `?id=` is already in the input, so the URL effect changes nothing and no second search starts. */
  lemma FoundUrlIsQuiet(p: Page, o: FetchOutcome)
    requires Inv(p) && p.step == Loading && Classify(o).FoundReport?
    ensures var t := OnSettled(p, o); t.inputId == p.inputId && t.url == p.inputId
  {
  }

  /** Typing never starts a search while one is loading, and never changes the step of a loading page. */
  lemma TypingWhileLoading(p: Page, raw: string)
    requires p.step == Loading
    ensures OnInput(p, raw).step == Loading && OnInput(p, raw).pending == p.pending
  {
  }

  /** Reset is idempotent. */
  lemma ResetIdempotent(p: Page)
    ensures OnReset(OnReset(p)) == OnReset(p)
  {
  }

  /** A well-formed report reached from the URL ends, after one reply, on the found step with that report. */
  lemma UrlLookupShowsReport(url: string, report: Js)
    requires FourDigits(url) && Truthy(report)
    ensures var t := OnSettled(Mount(url), Answered(200, Some(JObj(map["report" := report]))));
      t.step == Found && t.report == Some(report) && t.url == url && t.inputId == url
  {
    TrimDigits(url);
  }
}
