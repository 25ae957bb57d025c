/**
 * The batch-prediction page: which uploads it accepts, how it keeps the
 * list of recent runs, how it decorates attack labels, and how it turns the
 * per-sample results of a run into the confidence histogram and the
 * per-batch time series it charts.
 */
module BatchPrediction {
  import opened Wrappers
  import opened Strings
  import opened Lookup
  import opened Numbers

  // ---------------------------------------------------------------------
  // Upload acceptance
  // ---------------------------------------------------------------------

  /** The part of a browser `File` the page looks at. */
  datatype UploadedFile = UploadedFile(name: string, mimeType: string)

  const CsvMimeType := "text/csv"
  const CsvExtension := ".csv"
  const InvalidFileMessage := "Please upload a valid CSV file (.csv)"

  /** The rule shared by the file picker and the drop zone. */
  predicate IsValidCsv(f: UploadedFile)
    ensures f.mimeType == CsvMimeType ==> IsValidCsv(f)
    ensures f.mimeType != CsvMimeType && |f.name| < |CsvExtension| ==> !IsValidCsv(f)
  {
    f.mimeType == CsvMimeType || EndsWith(Lower(f.name), CsvExtension)
  }

  /**
   * A file is accepted exactly when its type is "text/csv" or its name ends
   * in ".csv" written in any mix of upper and lower case.
   */
  lemma CsvAcceptanceRule(f: UploadedFile)
    ensures IsValidCsv(f) <==>
      f.mimeType == "text/csv" || (|f.name| >= 4 && Lower(f.name[|f.name| - 4..]) == ".csv")
  {
    var n := |f.name|;
    if n >= 4 {
      LowerAppend(f.name[..n - 4], f.name[n - 4..]);
      assert f.name[..n - 4] + f.name[n - 4..] == f.name;
      assert Lower(f.name)[n - 4..] == Lower(f.name[n - 4..]);
    }
  }

  // ---------------------------------------------------------------------
  // Server answer and per-sample results
  // ---------------------------------------------------------------------

  datatype RawPrediction = RawPrediction(prediction: string, confidence: real)
  datatype TopAttack = TopAttack(attack: string, count: nat, percentage: real)

  /** The batch endpoint's answer; `predictions` may be missing from it. */
  datatype BatchResponse = BatchResponse(
    totalSamples: nat,
    normalCount: nat,
    attackCount: nat,
    topAttacks: seq<TopAttack>,
    predictions: Option<seq<RawPrediction>>)

  /** How the request ended: an answer, or an error that may carry the server's message. */
  datatype ServiceOutcome = Answered(response: BatchResponse) | Failed(serverError: Option<string>)

  const DefaultFailureMessage := "Batch prediction failed"

  /** `err.response?.data?.error || "Batch prediction failed"`: an absent or empty message falls back. */
  function FailureText(serverError: Option<string>): (msg: string)
    ensures msg != ""
    ensures serverError.Some? && serverError.value != "" ==> msg == serverError.value
    ensures serverError.None? || serverError.value == "" ==> msg == DefaultFailureMessage
  {
    if serverError.Some? && serverError.value != "" then serverError.value else DefaultFailureMessage
  }

  /** The integer nearest to y, halves rounded away from zero (as `toFixed` does). */
  function NearestInt(y: real): (n: int)
    ensures y - 0.5 <= n as real <= y + 0.5
  {
    if y >= 0.0 then (y + 0.5).Floor else -((-y + 0.5).Floor)
  }

  /**
   * `parseFloat(x.toFixed(d))` for `scale == 10^d`: x rounded to the nearest
   * multiple of 1/scale, halves away from zero.
   */
  function RoundTo(x: real, scale: nat): (r: real)
    requires scale > 0
    ensures -0.5 / (scale as real) <= r - x <= 0.5 / (scale as real)
  {
    var n := NearestInt(x * scale as real);
    ScaleBack(n, scale as real, x);
    (n as real) / (scale as real)
  }

  lemma ScaleBack(n: int, s: real, x: real)
    requires s > 0.0
    requires x * s - 0.5 <= n as real <= x * s + 0.5
    ensures -0.5 / s <= n as real / s - x <= 0.5 / s
  {
    assert n as real / s - x == (n as real - x * s) / s;
  }

  /** One row of the per-sample table built from a server prediction. */
  datatype DetailedResult = DetailedResult(
    id: nat,
    sample: string,
    prediction: string,
    confidence: real,
    attackType: string)

  const NormalLabel := "Normal"

  function Detail(index: nat, p: RawPrediction): DetailedResult {
    DetailedResult(
      index + 1,
      "Sample " + DecimalString(index + 1),
      p.prediction,
      RoundTo(p.confidence * 100.0, 100),
      if p.prediction != NormalLabel then p.prediction else NormalLabel)
  }

  /**
   * The per-sample rows: one per prediction, in order, numbered from 1, with
   * the confidence as a percentage to two decimals. The attack type always
   * equals the prediction, since both branches of its conditional yield it.
   */
  function ToDetailed(preds: seq<RawPrediction>): (r: seq<DetailedResult>)
    ensures |r| == |preds|
    ensures forall i :: 0 <= i < |r| ==>
      r[i].id == i + 1 && r[i].prediction == preds[i].prediction && r[i].attackType == r[i].prediction
    ensures forall i :: 0 <= i < |r| ==> r[i].sample == "Sample " + DecimalString(i + 1)
    ensures forall i :: 0 <= i < |r| ==>
      -0.005 <= r[i].confidence - preds[i].confidence * 100.0 <= 0.005
  {
    seq(|preds|, i requires 0 <= i < |preds| => Detail(i, preds[i]))
  }

  // ---------------------------------------------------------------------
  // Recent-run history
  // ---------------------------------------------------------------------

  /** A JavaScript number as far as the detection rate needs one. */
  datatype JsNumber = Finite(value: real) | NaN | Infinity

  /** The clock readings stamped on a history entry. */
  datatype Stamp = Stamp(date: string, time: string)

  datatype HistoryEntry = HistoryEntry(
    date: string,
    time: string,
    total: nat,
    attacks: nat,
    normal: nat,
    filename: string,
    detectionRate: JsNumber)

  /**
   * `parseFloat(((attacks / total) * 100).toFixed(1))`: a percentage to one
   * decimal; dividing by a zero total gives NaN for 0/0 and Infinity otherwise.
   */
  function DetectionRate(attacks: nat, total: nat): (r: JsNumber)
    ensures total > 0 ==> r.Finite? && -0.05 <= r.value - (attacks as real / total as real) * 100.0 <= 0.05
    ensures total == 0 ==> (r == NaN <==> attacks == 0) && (r == Infinity <==> attacks > 0)
  {
    if total > 0 then Finite(RoundTo((attacks as real / total as real) * 100.0, 10))
    else if attacks == 0 then NaN
    else Infinity
  }

  /**
   * The entry recorded for a successful run: the file's name, the answer's
   * counts and the clock readings; with a non-empty batch the rate is a
   * finite percentage (up to rounding) of the samples.
   */
  function NewEntry(resp: BatchResponse, f: UploadedFile, stamp: Stamp): (e: HistoryEntry)
    ensures e.filename == f.name && e.date == stamp.date && e.time == stamp.time
    ensures e.total == resp.totalSamples && e.attacks == resp.attackCount && e.normal == resp.normalCount
    ensures e.detectionRate == DetectionRate(resp.attackCount, resp.totalSamples)
    ensures 0 < resp.totalSamples && resp.attackCount <= resp.totalSamples ==>
      e.detectionRate.Finite? && -0.05 <= e.detectionRate.value <= 100.05
  {
    HistoryEntry(stamp.date, stamp.time, resp.totalSamples, resp.attackCount, resp.normalCount,
                 f.name, DetectionRate(resp.attackCount, resp.totalSamples))
  }

  const HistoryLimit := 10

  /** `[entry, ...history].slice(0, 10)`: the new entry in front, the oldest dropped beyond ten. */
  function PushHistory(entry: HistoryEntry, history: seq<HistoryEntry>): (r: seq<HistoryEntry>)
    ensures |r| == Min(HistoryLimit, |history| + 1)
    ensures r[0] == entry
    ensures r[1..] == history[..|r| - 1]
  {
    ([entry] + history)[..Min(HistoryLimit, |history| + 1)]
  }

  /** The history after a sequence of successful uploads, starting from none. */
  function Replay(uploads: seq<HistoryEntry>): seq<HistoryEntry>
    decreases |uploads|
  {
    if |uploads| == 0 then []
    else PushHistory(uploads[|uploads| - 1], Replay(uploads[..|uploads| - 1]))
  }

  /** The last (at most ten) uploads, newest first. */
  function NewestFirst(uploads: seq<HistoryEntry>): seq<HistoryEntry> {
    seq(Min(HistoryLimit, |uploads|), i requires 0 <= i < Min(HistoryLimit, |uploads|) => uploads[|uploads| - 1 - i])
  }

  /** However many uploads succeed, the history holds exactly the ten most recent, newest first. */
  lemma {:induction false} HistoryKeepsNewest(uploads: seq<HistoryEntry>)
    ensures Replay(uploads) == NewestFirst(uploads)
    decreases |uploads|
  {
    if |uploads| > 0 {
      var before := uploads[..|uploads| - 1];
      HistoryKeepsNewest(before);
      var r := Replay(uploads);
      assert |r| == |NewestFirst(uploads)|;
      forall i | 0 <= i < |r|
        ensures r[i] == NewestFirst(uploads)[i]
      {
        if i > 0 {
          assert r[i] == r[1..][i - 1] == NewestFirst(before)[i - 1];
        }
      }
    }
  }

  /**
   * Two uploads that overlap (a file dropped while another is still being
   * processed), as the handlers are written: each one pushes its entry onto
   * the history of the render that created it. Both start from `h`; the first
   * answer records e1, and the second answer, built on the same `h`,
   * replaces that history, so e1 is lost.
   */
  lemma OverlapLosesEntry(h: seq<HistoryEntry>, e1: HistoryEntry, e2: HistoryEntry)
    requires e1 != e2 && e1 !in h
    ensures var afterFirst := PushHistory(e1, h);
            var afterSecond := PushHistory(e2, h);
            e1 in afterFirst && e1 !in afterSecond
  {
    var r := PushHistory(e2, h);
    forall k | 0 <= k < |r|
      ensures r[k] != e1
    {
      if k > 0 {
        assert r[k] == r[1..][k - 1] == h[k - 1];
      }
    }
  }

  /**
   * The same two uploads when each answer is pushed onto the history as it
   * is when the answer arrives (a functional state update): the result is
   * the history of the two uploads made one after the other.
   */
  lemma OverlapKeepsBoth(uploads: seq<HistoryEntry>, e1: HistoryEntry, e2: HistoryEntry)
    ensures PushHistory(e2, PushHistory(e1, Replay(uploads))) == NewestFirst(uploads + [e1, e2])
    ensures PushHistory(e2, PushHistory(e1, Replay(uploads)))[..2] == [e2, e1]
  {
    var all := uploads + [e1, e2];
    assert all[..|all| - 1] == uploads + [e1];
    assert (uploads + [e1])[..|uploads|] == uploads;
    HistoryKeepsNewest(all);
  }

  /**
   * Clearing the history while an upload is pending, as the handlers are
   * written: the answer pushes its entry onto the history captured when the
   * upload started, so the newest cleared entries come back. Pushing onto
   * the current, cleared history keeps only the new run.
   */
  lemma ClearUndoneByAnswer(h: seq<HistoryEntry>, e: HistoryEntry)
    requires |h| > 0
    ensures var captured := PushHistory(e, h);
            |captured| >= 2 && captured[1] == h[0]
    ensures PushHistory(e, []) == [e]
  {
    var captured := PushHistory(e, h);
    assert captured[1] == captured[1..][0] == h[0];
  }

  // ---------------------------------------------------------------------
  // Label decoration: colour and icon
  // ---------------------------------------------------------------------

  const OtherColor := "#9CA3AF"

  /** The colour table, in the order its entries are tried. */
  const AttackColors: seq<(string, string)> := [
    ("DDoS", "#EF4444"),
    ("PortScan", "#3B82F6"),
    ("Botnet", "#8B5CF6"),
    ("BruteForce", "#F59E0B"),
    ("Malware", "#10B981"),
    ("Normal", "#6B7280"),
    ("Other", OtherColor)
  ]

  /**
   * `getAttackColor`: the colour of the first key contained in the label,
   * ignoring case, else the "Other" colour; so the colour always comes from
   * the table, and any label mentioning DDoS is red.
   */
  function AttackColor(name: string): (c: string)
    ensures exists k :: 0 <= k < |AttackColors| && AttackColors[k].1 == c
    ensures KeyMatches(IgnoreCase, "DDoS", name) ==> c == "#EF4444"
    ensures c == OtherColor <==> FirstMatch(AttackColors, IgnoreCase, name) in {None, Some(6)}
    ensures match FirstMatch(AttackColors, IgnoreCase, name)
            case Some(k) => c == AttackColors[k].1
            case None => c == OtherColor
  {
    assert AttackColors[6].1 == OtherColor;
    Find(AttackColors, IgnoreCase, name, OtherColor)
  }

  datatype Icon = Shield | Activity | Cpu | Zap | AlertTriangle | Server | CheckCircle

  /** The icon table, in the order its entries are tried. */
  const AttackIcons: seq<(string, Icon)> := [
    ("DDoS", Shield),
    ("PortScan", Activity),
    ("Botnet", Cpu),
    ("BruteForce", Zap),
    ("Malware", AlertTriangle),
    ("SQL Injection", Server),
    ("Normal", CheckCircle)
  ]

  /**
   * `getAttackIcon`: the icon of the first key contained in the label,
   * ignoring case, else the warning triangle.
   */
  function AttackIcon(name: string): (icon: Icon)
    ensures exists k :: 0 <= k < |AttackIcons| && AttackIcons[k].1 == icon
    ensures icon == AlertTriangle <==> FirstMatch(AttackIcons, IgnoreCase, name) in {None, Some(4)}
    ensures match FirstMatch(AttackIcons, IgnoreCase, name)
            case Some(k) => icon == AttackIcons[k].1
            case None => icon == AlertTriangle
  {
    assert AttackIcons[4].1 == AlertTriangle;
    Find(AttackIcons, IgnoreCase, name, AlertTriangle)
  }

  /**
   * The two tables try the same first five keys in the same order, so a
   * label decided by one of those keys gets that key's colour and icon.
   */
  lemma ColorAndIconAgree(name: string, k: nat)
    requires k < 5
    ensures FirstMatch(AttackColors, IgnoreCase, name) == Some(k) <==>
            FirstMatch(AttackIcons, IgnoreCase, name) == Some(k)
  {
    assert forall j :: 0 <= j < 5 ==> AttackColors[j].0 == AttackIcons[j].0;
  }

  // ---------------------------------------------------------------------
  // Severity thresholds
  // ---------------------------------------------------------------------

  datatype Severity = Low | Medium | High

  function SeverityRank(s: Severity): nat {
    match s
    case Low => 0
    case Medium => 1
    case High => 2
  }

  /** The severity of an attack's share of the traffic, in percent. */
  function SeverityOf(percentage: real): (s: Severity)
    ensures s == High <==> percentage > 30.0
    ensures s == Low <==> percentage <= 10.0
  {
    if percentage > 30.0 then High else if percentage > 10.0 then Medium else Low
  }

  /** A larger share never gets a lower severity. */
  lemma SeverityMonotone(p: real, q: real)
    requires p <= q
    ensures SeverityRank(SeverityOf(p)) <= SeverityRank(SeverityOf(q))
  {
  }

  /**
   * The tone (red, amber, emerald = High, Medium, Low) of a history entry's
   * detection rate: the same thresholds, where NaN fails both comparisons
   * and Infinity passes both.
   */
  function RateSeverity(rate: JsNumber): (s: Severity)
    ensures rate.Finite? ==> s == SeverityOf(rate.value)
    ensures rate == NaN ==> s == Low
    ensures rate == Infinity ==> s == High
  {
    match rate
    case Finite(v) => if v > 30.0 then High else if v > 10.0 then Medium else Low
    case NaN => Low
    case Infinity => High
  }

  // ---------------------------------------------------------------------
  // Confidence distribution
  // ---------------------------------------------------------------------

  datatype ConfidenceRange = ConfidenceRange(name: string, min: real, max: real)

  /** The five histogram ranges, in the order they are tried. */
  const Ranges: seq<ConfidenceRange> := [
    ConfidenceRange("90-100%", 90.0, 100.0),
    ConfidenceRange("80-89%", 80.0, 89.0),
    ConfidenceRange("70-79%", 70.0, 79.0),
    ConfidenceRange("60-69%", 60.0, 69.0),
    ConfidenceRange("Below 60%", 0.0, 59.0)
  ]

  predicate InRange(c: real, r: ConfidenceRange) {
    c >= r.min && c <= r.max
  }

  function FirstRangeFrom(c: real, k: nat): (r: Option<nat>)
    requires k <= |Ranges|
    ensures r.Some? ==> k <= r.value < |Ranges| && InRange(c, Ranges[r.value])
    ensures r.Some? ==> forall j :: k <= j < r.value ==> !InRange(c, Ranges[j])
    ensures r.None? ==> forall j :: k <= j < |Ranges| ==> !InRange(c, Ranges[j])
    decreases |Ranges| - k
  {
    if k == |Ranges| then None
    else if InRange(c, Ranges[k]) then Some(k)
    else FirstRangeFrom(c, k + 1)
  }

  /**
   * The range a confidence is counted in: the first whose closed interval
   * holds it. The ranges are disjoint, so it is the only one; a value in a
   * gap between ranges, or outside [0, 100], is counted in none.
   */
  function BucketOf(c: real): (r: Option<nat>)
    ensures r.Some? ==> r.value < |Ranges| && InRange(c, Ranges[r.value])
    ensures r.Some? ==> forall j :: 0 <= j < |Ranges| && InRange(c, Ranges[j]) ==> j == r.value
    ensures r.None? <==> forall j :: 0 <= j < |Ranges| ==> !InRange(c, Ranges[j])
  {
    FirstRangeFrom(c, 0)
  }

  /** The colour ladder applied to a range's lower bound. */
  function RangeColor(min: real): (c: string)
    ensures c in {"#10B981", "#22C55E", "#F59E0B", "#F97316", "#EF4444"}
    ensures c == "#10B981" <==> min >= 90.0
    ensures c == "#22C55E" <==> 80.0 <= min < 90.0
    ensures c == "#F59E0B" <==> 70.0 <= min < 80.0
    ensures c == "#F97316" <==> 60.0 <= min < 70.0
    ensures c == "#EF4444" <==> min < 60.0
  {
    if min >= 90.0 then "#10B981"
    else if min >= 80.0 then "#22C55E"
    else if min >= 70.0 then "#F59E0B"
    else if min >= 60.0 then "#F97316"
    else "#EF4444"
  }

  datatype Bucket = Bucket(name: string, count: nat, color: string)

  /** How many results fall in range k. */
  function CountIn(results: seq<DetailedResult>, k: nat): nat
    decreases |results|
  {
    if |results| == 0 then 0
    else CountIn(results[..|results| - 1], k)
         + (if BucketOf(results[|results| - 1].confidence) == Some(k) then 1 else 0)
  }

  /** How many results fall in some range. */
  function Counted(results: seq<DetailedResult>): nat
    decreases |results|
  {
    if |results| == 0 then 0
    else Counted(results[..|results| - 1])
         + (if BucketOf(results[|results| - 1].confidence).Some? then 1 else 0)
  }

  function SumCounts(buckets: seq<Bucket>): nat
    decreases |buckets|
  {
    if |buckets| == 0 then 0 else buckets[0].count + SumCounts(buckets[1..])
  }

  /** Every result is counted at most once: the five counts add up to the results that fall in a range. */
  lemma {:induction false} BucketTotal(results: seq<DetailedResult>)
    ensures CountIn(results, 0) + CountIn(results, 1) + CountIn(results, 2)
            + CountIn(results, 3) + CountIn(results, 4) == Counted(results)
    ensures Counted(results) <= |results|
    decreases |results|
  {
    if |results| > 0 {
      BucketTotal(results[..|results| - 1]);
    }
  }

  /**
   * `prepareConfidenceDistributionData`: nothing for no results, otherwise
   * the five ranges in order, each with the number of results counted in it
   * and its colour; the counts never exceed the number of results.
   */
  method ConfidenceDistribution(results: seq<DetailedResult>) returns (buckets: seq<Bucket>)
    ensures |results| == 0 ==> buckets == []
    ensures |results| > 0 ==> |buckets| == |Ranges|
    ensures |results| > 0 ==> forall k :: 0 <= k < |Ranges| ==>
      buckets[k] == Bucket(Ranges[k].name, CountIn(results, k), RangeColor(Ranges[k].min))
    ensures SumCounts(buckets) == Counted(results) <= |results|
  {
    if |results| == 0 {
      return [];
    }
    var counts := new nat[|Ranges|](_ => 0);
    for i := 0 to |results|
      invariant forall k :: 0 <= k < |Ranges| ==> counts[k] == CountIn(results[..i], k)
    {
      var hit := RangeOf(results[i].confidence);
      if hit.Some? {
        counts[hit.value] := counts[hit.value] + 1;
      }
      assert results[..i + 1][..i] == results[..i];
    }
    assert results[..|results|] == results;
    buckets := seq(|Ranges|, k requires 0 <= k < |Ranges| reads counts =>
      Bucket(Ranges[k].name, counts[k], RangeColor(Ranges[k].min)));
    BucketTotal(results);
    SumOfFive(buckets);
  }

  /** The inner `for (const range of ranges)` search: the first range holding `c`, if any. */
  method RangeOf(c: real) returns (hit: Option<nat>)
    ensures hit == BucketOf(c)
  {
    var k := 0;
    while k < |Ranges|
      invariant 0 <= k <= |Ranges|
      invariant forall j :: 0 <= j < k ==> !InRange(c, Ranges[j])
    {
      if InRange(c, Ranges[k]) {
        return Some(k);
      }
      k := k + 1;
    }
    return None;
  }

  lemma SumOfFive(buckets: seq<Bucket>)
    requires |buckets| == 5
    ensures SumCounts(buckets)
      == buckets[0].count + buckets[1].count + buckets[2].count + buckets[3].count + buckets[4].count
  {
    assert SumCounts(buckets[4..]) == buckets[4].count;
    assert SumCounts(buckets[3..]) == buckets[3].count + buckets[4].count;
    assert SumCounts(buckets[2..]) == buckets[2].count + buckets[3].count + buckets[4].count;
  }

  /**
   * The ranges leave gaps: a confidence of 89.5% lies between "80-89%" and
   * "90-100%" and is counted in neither, so one such result yields counts
   * that add up to nothing.
   */
  lemma GapConfidenceUncounted()
    ensures BucketOf(89.5) == None
    ensures Counted([DetailedResult(1, "Sample 1", "DDoS", 89.5, "DDoS")]) == 0
  {
    var r := [DetailedResult(1, "Sample 1", "DDoS", 89.5, "DDoS")];
    assert r[..0] == [];
  }

  /**
   * The evident intent of the histogram: contiguous ranges [90, 100],
   * [80, 90), [70, 80), [60, 70), [0, 60), so that every confidence in
   * [0, 100] is counted exactly once, in the range the written code picks
   * whenever it picks one.
   */
  function IntendedBucketOf(c: real): (r: Option<nat>)
    ensures r.Some? <==> 0.0 <= c <= 100.0
    ensures r.Some? ==> r.value < |Ranges| && Ranges[r.value].min <= c
    ensures r.Some? && r.value > 0 ==> c < Ranges[r.value - 1].min
    ensures BucketOf(c).Some? ==> r == BucketOf(c)
  {
    if c < 0.0 || c > 100.0 then None
    else if c >= 90.0 then Some(0)
    else if c >= 80.0 then Some(1)
    else if c >= 70.0 then Some(2)
    else if c >= 60.0 then Some(3)
    else Some(4)
  }

  // ---------------------------------------------------------------------
  // Time series
  // ---------------------------------------------------------------------

  /** One point of the series: the batch number k of the label "Batch k" and the group's counts. */
  datatype Point = Point(batch: nat, attacks: nat, normal: nat, total: nat)

  const SeriesWindow := 100
  const SeriesGroups := 10

  /** The results of the chunk from position k on that are attacks. */
  function AttacksFrom(chunk: seq<DetailedResult>, k: nat): (n: nat)
    requires k <= |chunk|
    ensures n <= |chunk| - k
    decreases |chunk| - k
  {
    if k == |chunk| then 0
    else (if chunk[k].prediction != NormalLabel then 1 else 0) + AttacksFrom(chunk, k + 1)
  }

  /** The results of the chunk from position k on that are "Normal"; with the attacks they make up the rest of the chunk. */
  function NormalsFrom(chunk: seq<DetailedResult>, k: nat): (n: nat)
    requires k <= |chunk|
    ensures AttacksFrom(chunk, k) + n == |chunk| - k
    decreases |chunk| - k
  {
    if k == |chunk| then 0
    else (if chunk[k].prediction == NormalLabel then 1 else 0) + NormalsFrom(chunk, k + 1)
  }

  /** `chunk.filter(s => s.prediction !== "Normal").length` */
  function AttackCount(chunk: seq<DetailedResult>): (n: nat)
    ensures n <= |chunk|
  {
    AttacksFrom(chunk, 0)
  }

  /** `chunk.filter(s => s.prediction === "Normal").length`; the two filters split the chunk. */
  function NormalCount(chunk: seq<DetailedResult>): (n: nat)
    ensures AttackCount(chunk) + n == |chunk|
  {
    NormalsFrom(chunk, 0)
  }

  /** From position k on, no attack is counted exactly when every result there is "Normal". */
  lemma {:induction false} NoAttacksFrom(chunk: seq<DetailedResult>, k: nat)
    requires k <= |chunk|
    ensures AttacksFrom(chunk, k) == 0 <==> forall i :: k <= i < |chunk| ==> chunk[i].prediction == NormalLabel
    decreases |chunk| - k
  {
    if k < |chunk| {
      NoAttacksFrom(chunk, k + 1);
    }
  }

  /** A group counts no attack exactly when every result in it is "Normal". */
  lemma NoAttacksIffAllNormal(chunk: seq<DetailedResult>)
    ensures AttackCount(chunk) == 0 <==> forall i :: 0 <= i < |chunk| ==> chunk[i].prediction == NormalLabel
  {
    NoAttacksFrom(chunk, 0);
  }

  function Summary(chunk: seq<DetailedResult>, batch: nat): Point {
    Point(batch, AttackCount(chunk), NormalCount(chunk), |chunk|)
  }

  /**
   * The groups from position i on: `size` results at a time (the last group
   * may be shorter), the group starting at i labelled i / size + 1.
   */
  function GroupsAt(s: seq<DetailedResult>, size: nat, i: nat): seq<Point>
    requires size > 0
    decreases |s| - i
  {
    if i >= |s| then []
    else [Summary(s[i..Min(i + size, |s|)], i / size + 1)] + GroupsAt(s, size, i + size)
  }

  /** `Math.ceil(m / 10)` */
  function GroupSize(m: nat): nat {
    (m + SeriesGroups - 1) / SeriesGroups
  }

  /** The series the page charts: the first hundred results in ten (or fewer) groups. */
  function TimeSeriesOf(results: seq<DetailedResult>): seq<Point> {
    if |results| == 0 then []
    else
      var recent := results[..Min(SeriesWindow, |results|)];
      GroupsAt(recent, GroupSize(|recent|), 0)
  }

  function SumTotals(points: seq<Point>): nat
    decreases |points|
  {
    if |points| == 0 then 0 else points[0].total + SumTotals(points[1..])
  }

  /** ceil(n / size) for a positive size, counted one group at a time. */
  function Ceil(n: int, size: nat): nat
    requires size > 0
    decreases n
  {
    if n <= 0 then 0 else 1 + Ceil(n - size, size)
  }

  /** The quotient rounded up: n fits in Ceil groups of `size` but not in one fewer. */
  lemma {:induction false} CeilBounds(n: int, size: nat)
    requires size > 0
    ensures Ceil(n, size) == 0 <==> n <= 0
    ensures n > 0 ==> (Ceil(n, size) - 1) * size < n <= Ceil(n, size) * size
    decreases n
  {
    if n > 0 {
      CeilBounds(n - size, size);
      var c := Ceil(n - size, size);
      assert (c + 1) * size == c * size + size;
      if c > 0 {
        assert (c - 1) * size + size == c * size;
      }
    }
  }

  /** One group per `size` positions from i on, the last one possibly short. */
  lemma {:induction false} GroupsCount(s: seq<DetailedResult>, size: nat, i: nat)
    requires size > 0
    ensures |GroupsAt(s, size, i)| == Ceil(|s| - i, size)
    decreases |s| - i
  {
    if i < |s| {
      GroupsCount(s, size, i + size);
      assert |GroupsAt(s, size, i)| == 1 + |GroupsAt(s, size, i + size)|;
      assert Ceil(|s| - i, size) == 1 + Ceil(|s| - (i + size), size);
    }
  }

  /** The number of groups from i on is ceil((|s| - i) / size): all groups before the last are full. */
  lemma GroupsLength(s: seq<DetailedResult>, size: nat, i: nat)
    requires size > 0
    ensures i >= |s| <==> GroupsAt(s, size, i) == []
    ensures i < |s| ==> i + (|GroupsAt(s, size, i)| - 1) * size < |s| <= i + |GroupsAt(s, size, i)| * size
  {
    GroupsCount(s, size, i);
    CeilBounds(|s| - i, size);
  }

  /** The group totals add up to the number of results from i on. */
  lemma {:induction false} GroupsTotal(s: seq<DetailedResult>, size: nat, i: nat)
    requires size > 0 && i <= |s|
    ensures SumTotals(GroupsAt(s, size, i)) == |s| - i
    decreases |s| - i
  {
    if i < |s| {
      GroupsTotal(s, size, Min(i + size, |s|));
      if i + size > |s| {
        assert GroupsAt(s, size, i + size) == [] == GroupsAt(s, size, |s|);
      }
      assert GroupsAt(s, size, i)[1..] == GroupsAt(s, size, i + size);
    }
  }

  /**
   * Groups numbered consecutively from `first`, each non-empty, split into
   * attacks and normal traffic, and all but the last of full size.
   */
  predicate WellFormedGroups(g: seq<Point>, size: nat, first: nat) {
    forall j :: 0 <= j < |g| ==>
      && g[j].batch == first + j && 0 < g[j].total <= size
      && g[j].attacks + g[j].normal == g[j].total
      && (j < |g| - 1 ==> g[j].total == size)
  }

  /** Every grouping the page builds is well formed, numbered on from the label of its first group. */
  lemma {:induction false} GroupsPoints(s: seq<DetailedResult>, size: nat, i: nat)
    requires size > 0
    ensures WellFormedGroups(GroupsAt(s, size, i), size, i / size + 1)
    decreases |s| - i
  {
    if i < |s| {
      var rest := GroupsAt(s, size, i + size);
      GroupsPoints(s, size, i + size);
      DivStep(i, size);
      var g := GroupsAt(s, size, i);
      assert |rest| > 0 ==> i + size < |s|;
      forall j | 1 <= j < |g|
        ensures g[j] == rest[j - 1]
      {
      }
    }
  }

  lemma DivStep(i: nat, size: nat)
    requires size > 0
    ensures (i + size) / size == i / size + 1
  {
    var q := (i + size) / size;
    var q0 := i / size;
    var r := (i + size) % size;
    var r0 := i % size;
    assert q * size + r == (q0 + 1) * size + r0;
    assert (q - q0 - 1) * size == r0 - r;
    if q - q0 - 1 >= 1 {
      MulMonotone(1, q - q0 - 1, size);
    } else if q - q0 - 1 <= -1 {
      assert (q0 + 1 - q) * size == r - r0;
      MulMonotone(1, q0 + 1 - q, size);
    }
  }

  lemma MulMonotone(a: nat, b: nat, c: nat)
    requires a <= b
    ensures a * c <= b * c
  {
  }

  /** Where group j starts: j * size, written as repeated addition. */
  function Offset(j: nat, size: nat): nat {
    if j == 0 then 0 else Offset(j - 1, size) + size
  }

  /** Dropping the first j groups from i on leaves the groups from i + j * size on. */
  lemma {:induction false} GroupsSkip(s: seq<DetailedResult>, size: nat, i: nat, j: nat)
    requires size > 0
    requires j <= |GroupsAt(s, size, i)|
    ensures GroupsAt(s, size, i)[j..] == GroupsAt(s, size, i + Offset(j, size))
    decreases j
  {
    var g := GroupsAt(s, size, i);
    if j == 0 {
      assert g[0..] == g;
    } else {
      assert i < |s|;
      var rest := GroupsAt(s, size, i + size);
      assert g[1..] == rest;
      GroupsSkip(s, size, i + size, j - 1);
      var next := i + Offset(j, size);
      assert next == (i + size) + Offset(j - 1, size);
      calc {
        g[j..];
        g[1..][j - 1..];
        rest[j - 1..];
        GroupsAt(s, size, next);
      }
    }
  }

  /** Group j of the series summarises exactly results j * size up to (j + 1) * size, and is labelled "Batch j + 1". */
  lemma GroupContents(s: seq<DetailedResult>, size: nat, j: nat)
    requires size > 0
    requires j < |GroupsAt(s, size, 0)|
    ensures j * size < |s|
    ensures GroupsAt(s, size, 0)[j] == Summary(s[j * size..Min(j * size + size, |s|)], j + 1)
  {
    var o := Offset(j, size);
    GroupsSkip(s, size, 0, j);
    assert GroupsAt(s, size, 0)[j] == GroupsAt(s, size, o)[0];
    OffsetIsProduct(j, size);
    DivMul(j, size);
  }

  lemma {:induction false} OffsetIsProduct(j: nat, size: nat)
    ensures Offset(j, size) == j * size
  {
    if j > 0 {
      OffsetIsProduct(j - 1, size);
      assert (j - 1) * size + size == j * size;
    }
  }

  lemma DivMul(k: nat, size: nat)
    requires size > 0
    ensures (k * size) / size == k
  {
    var q := (k * size) / size;
    var r := (k * size) % size;
    assert k * size == q * size + r;
    assert (k - q) * size == r;
    if k - q >= 1 {
      MulMonotone(1, k - q, size);
    } else if k - q <= -1 {
      assert (q - k) * size == -r;
      MulMonotone(1, q - k, size);
    }
  }

  /** With groups of ceil(m / 10), m results never need more than ten groups. */
  lemma {:induction false} AtMostTenGroups(s: seq<DetailedResult>)
    requires 0 < |s| <= SeriesWindow
    ensures |GroupsAt(s, GroupSize(|s|), 0)| <= SeriesGroups
  {
    var size := GroupSize(|s|);
    var g := GroupsAt(s, size, 0);
    GroupsLength(s, size, 0);
    assert 10 * size >= |s|;
    if |g| > 10 {
      MulMonotone(10, |g| - 1, size);
    }
  }

  /**
   * The loop's invariant: the points built so far, followed by the groups
   * from position i on, give the whole grouping.
   */
  predicate SeriesSoFar(s: seq<DetailedResult>, size: nat, series: seq<Point>, i: nat)
    requires size > 0
  {
    series + GroupsAt(s, size, i) == GroupsAt(s, size, 0)
  }

  /** One turn of the grouping loop keeps its invariant: the group starting at i moves from the pending groups to the series. */
  lemma SeriesStep(s: seq<DetailedResult>, series: seq<Point>, i: nat, size: nat)
    requires size > 0 && i < |s|
    requires SeriesSoFar(s, size, series, i)
    ensures SeriesSoFar(s, size, series + [Summary(s[i..Min(i + size, |s|)], i / size + 1)], i + size)
  {
    var head := Summary(s[i..Min(i + size, |s|)], i / size + 1);
    assert series + ([head] + GroupsAt(s, size, i + size)) == (series + [head]) + GroupsAt(s, size, i + size);
  }

  /**
   * The charted series: nothing for no results; otherwise the first
   * min(100, n) results in at most ten consecutive groups labelled
   * "Batch 1", "Batch 2", ... whose totals add up to min(100, n).
   */
  lemma TimeSeriesShape(results: seq<DetailedResult>)
    ensures TimeSeriesOf(results) == [] <==> |results| == 0
    ensures |TimeSeriesOf(results)| <= SeriesGroups
    ensures SumTotals(TimeSeriesOf(results)) == Min(SeriesWindow, |results|)
    ensures WellFormedGroups(TimeSeriesOf(results), GroupSize(Min(SeriesWindow, |results|)), 1)
  {
    if |results| > 0 {
      var recent := results[..Min(SeriesWindow, |results|)];
      var size := GroupSize(|recent|);
      GroupsLength(recent, size, 0);
      GroupsTotal(recent, size, 0);
      GroupsPoints(recent, size, 0);
      AtMostTenGroups(recent);
    }
  }

  /** `prepareTimeSeriesData`: the grouping loop builds exactly the series above. */
  method TimeSeries(results: seq<DetailedResult>) returns (series: seq<Point>)
    ensures series == TimeSeriesOf(results)
  {
    if |results| == 0 {
      return [];
    }
    var recent := results[..Min(SeriesWindow, |results|)];
    series := GroupInto(recent, GroupSize(|recent|));
  }

  /** The loop of `prepareTimeSeriesData`: steps through the results `size` at a time, pushing one point per group. */
  method GroupInto(recent: seq<DetailedResult>, size: nat) returns (series: seq<Point>)
    requires size > 0
    ensures series == GroupsAt(recent, size, 0)
  {
    var m := |recent|;
    series := [];
    var i := 0;
    while i < m
      invariant SeriesSoFar(recent, size, series, i)
      decreases m - i
    {
      var chunk := recent[i..Min(i + size, m)];
      SeriesStep(recent, series, i, size);
      series := series + [Point(i / size + 1, AttackCount(chunk), NormalCount(chunk), |chunk|)];
      i := i + size;
    }
  }

  // ---------------------------------------------------------------------
  // Page state
  // ---------------------------------------------------------------------

  /** The page's state; the file input element and the progress bar with its timers are not modelled. */
  class BatchPage {
    var file: Option<UploadedFile>
    var stats: Option<BatchResponse>
    var loading: bool
    var error: Option<string>
    var history: seq<HistoryEntry>
    var detailed: seq<DetailedResult>

    /** The first render, after the mount effect has loaded any saved history. */
    constructor (saved: Option<seq<HistoryEntry>>)
      ensures file == None && stats == None && !loading && error == None
      ensures detailed == [] && history == saved.GetOr([])
    {
      file, stats, loading, error := None, None, false, None;
      detailed := [];
      history := saved.GetOr([]);
    }

    /** `handleReset`: clears the run on screen and keeps the history. */
    method Reset()
      modifies this
      ensures file == None && stats == None && error == None && detailed == []
      ensures history == old(history) && loading == old(loading)
    {
      file := None;
      stats := None;
      error := None;
      detailed := [];
    }

    /** `handleClearHistory` */
    method ClearHistory()
      modifies this`history
      ensures history == []
    {
      history := [];
    }

    /**
     * `handleFileUpload` and `handleDrop` (identical apart from clearing the
     * input element): ignore a missing file, reject a non-CSV file with a
     * message, otherwise send it and record the answer or the failure; the
     * deferred `finally` step has run when the method returns.
     */
    method Upload(picked: Option<UploadedFile>, outcome: ServiceOutcome, stamp: Stamp)
      modifies this
      ensures picked.None? ==> unchanged(this)
      ensures picked.Some? && !IsValidCsv(picked.value) ==>
        && error == Some(InvalidFileMessage)
        && file == old(file) && stats == old(stats) && history == old(history)
        && detailed == old(detailed) && loading == old(loading)
      ensures picked.Some? && IsValidCsv(picked.value) && outcome.Answered? ==>
        && file == picked && error == None && stats == Some(outcome.response)
        && detailed == (match outcome.response.predictions
                        case Some(ps) => ToDetailed(ps)
                        case None => old(detailed))
        && history == PushHistory(NewEntry(outcome.response, picked.value, stamp), old(history))
        && |history| <= HistoryLimit && history[0].filename == picked.value.name
        && !loading
      ensures picked.Some? && IsValidCsv(picked.value) && outcome.Failed? ==>
        && file == None && error == Some(FailureText(outcome.serverError))
        && stats == old(stats) && detailed == old(detailed) && history == old(history)
        && !loading
    {
      if picked.None? {
        return;
      }
      var f := picked.value;
      if !IsValidCsv(f) {
        error := Some(InvalidFileMessage);
        return;
      }
      file := picked;
      error := None;
      loading := true;
      match outcome {
        case Answered(resp) =>
          stats := Some(resp);
          if resp.predictions.Some? {
            detailed := ToDetailed(resp.predictions.value);
          }
          history := PushHistory(NewEntry(resp, f, stamp), history);
        case Failed(serverError) =>
          error := Some(FailureText(serverError));
          file := None;
      }
      loading := false;
    }
  }
}
