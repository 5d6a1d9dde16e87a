/**
 * The scoring rules both pages share: each of pulse, systolic and diastolic pressure earns two
 * points inside its normal band, one point inside the wider borderline band and nothing
 * otherwise; the measurement screen grades the sum in three steps and labels each reading.
 */
module Vitals {
  import opened Wrappers
  import Json
  import JsNumber

  /** A normal band `[innerLo, innerHi]` and a borderline band `[outerLo, outerHi]`, both closed. */
  datatype Bands = Bands(innerLo: real, innerHi: real, outerLo: real, outerHi: real) {
    /** The normal band lies inside the borderline band. */
    predicate Nested() {
      outerLo <= innerLo <= innerHi <= outerHi
    }
  }

  const BpmBands: Bands := Bands(60.0, 100.0, 50.0, 110.0)
  const SysBands: Bands := Bands(90.0, 130.0, 80.0, 140.0)
  const DiaBands: Bands := Bands(60.0, 85.0, 50.0, 90.0)

  /** `v >= lo && v <= hi` for a parsed number; NaN (`None`) fails every comparison. */
  predicate Within(v: Option<real>, lo: real, hi: real) {
    v.Some? && lo <= v.value <= hi
  }

  /** `parseFloat(value)`: the value is first turned into a string, then read as a number. */
  function Reading(value: Json.Js): Option<real> {
    JsNumber.ParseFloat(Json.ToStr(value))
  }

  /** What one reading adds to the score. */
  function Points(v: Option<real>, b: Bands): (p: nat)
    ensures p <= 2
    ensures p > 0 ==> v.Some?
  {
    if Within(v, b.innerLo, b.innerHi) then 2
    else if Within(v, b.outerLo, b.outerHi) then 1
    else 0
  }

  /** The score of pulse, systolic and diastolic readings. */
  function Score(bpm: Option<real>, sys: Option<real>, dia: Option<real>): (s: nat)
    ensures s <= 6
  {
    Points(bpm, BpmBands) + Points(sys, SysBands) + Points(dia, DiaBands)
  }

  /** The five fields of a measurement as the measurement screen keeps them. */
  datatype VitalResult = VitalResult(bpm: Json.Js, bpv1: Json.Js, bpv0: Json.Js, S2: Json.Js, LTv: Json.Js)

  /** The score of a measurement: `bpv1` is the systolic and `bpv0` the diastolic pressure. */
  function ResultScore(r: VitalResult): (s: nat)
    ensures s <= 6
  {
    Score(Reading(r.bpm), Reading(r.bpv1), Reading(r.bpv0))
  }

  /** The overall verdict of the measurement screen: 良好, やや注意 or 要確認. */
  datatype Grade = Good | SomewhatCautious | NeedsCheck

  function GradeOf(score: nat): Grade {
    if score >= 5 then Good
    else if score >= 3 then SomewhatCautious
    else NeedsCheck
  }

  /** `getOverallEvaluation` of the measurement screen, reduced to its label. */
  function Evaluation(r: VitalResult): (g: Grade)
    ensures g == Good <==> ResultScore(r) >= 5
    ensures g == SomewhatCautious <==> 3 <= ResultScore(r) <= 4
    ensures g == NeedsCheck <==> ResultScore(r) <= 2
  {
    GradeOf(ResultScore(r))
  }

  /** The label of one reading: 正常, やや注意, 要確認, or "—" for a kind the screen does not know. */
  datatype Status = Normal | Caution | Check | NoStatus

  /** `getVitalStatus(type, value)`: the label of `parseFloat(value)` as a reading of kind `type`. */
  function VitalStatus(kind: string, value: Json.Js): (st: Status)
    ensures st == NoStatus <==> kind != "bpm" && kind != "sys" && kind != "dia"
  {
    StatusFor(kind, Reading(value))
  }

  /**
   * The decision of `getVitalStatus` on a parsed reading. The bands are written out per kind,
   * as the screens do, independently of the `Bands` constants used for the score.
   */
  function StatusFor(kind: string, v: Option<real>): (st: Status)
    ensures st == NoStatus <==> kind != "bpm" && kind != "sys" && kind != "dia"
  {
    if kind == "bpm" then
      if Within(v, 60.0, 100.0) then Normal else if Within(v, 50.0, 110.0) then Caution else Check
    else if kind == "sys" then
      if Within(v, 90.0, 130.0) then Normal else if Within(v, 80.0, 140.0) then Caution else Check
    else if kind == "dia" then
      if Within(v, 60.0, 85.0) then Normal else if Within(v, 50.0, 90.0) then Caution else Check
    else NoStatus
  }

  /** The points a label stands for: 正常 2, やや注意 1, 要確認 0. */
  function StatusPoints(st: Status): nat {
    match st
    case Normal => 2
    case Caution => 1
    case Check => 0
    case NoStatus => 0
  }

  /**
   * The label shown next to each reading agrees with the points that reading adds to the
   * score, for each of the three kinds.
   */
  lemma StatusMatchesPoints(v: Option<real>)
    ensures StatusPoints(StatusFor("bpm", v)) == Points(v, BpmBands)
    ensures StatusPoints(StatusFor("sys", v)) == Points(v, SysBands)
    ensures StatusPoints(StatusFor("dia", v)) == Points(v, DiaBands)
  {
  }

  /** The score is the sum of what the three labels stand for. */
  lemma ScoreIsSumOfStatuses(r: VitalResult)
    ensures ResultScore(r) == StatusPoints(VitalStatus("bpm", r.bpm))
      + StatusPoints(VitalStatus("sys", r.bpv1)) + StatusPoints(VitalStatus("dia", r.bpv0))
  {
    StatusMatchesPoints(Reading(r.bpm));
    StatusMatchesPoints(Reading(r.bpv1));
    StatusMatchesPoints(Reading(r.bpv0));
  }

  /**
   * With nested bands a reading earns a point exactly when it lies in the borderline band,
   * and two exactly when it lies in the normal band; the three bands used are nested.
   */
  lemma PointsCharacterised(v: Option<real>, b: Bands)
    requires b.Nested()
    ensures Points(v, b) == 2 <==> Within(v, b.innerLo, b.innerHi)
    ensures Points(v, b) >= 1 <==> Within(v, b.outerLo, b.outerHi)
    ensures BpmBands.Nested() && SysBands.Nested() && DiaBands.Nested()
  {
  }

  /** Only a measurement whose three readings all parse can be graded 良好. */
  lemma GoodNeedsAllReadings(r: VitalResult)
    requires Evaluation(r) == Good
    ensures Reading(r.bpm).Some? && Reading(r.bpv1).Some? && Reading(r.bpv0).Some?
  {
  }
}
