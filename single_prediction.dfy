/**
 * The single-sample prediction page: the three checks that gate the
 * request (non-blank input, every comma-separated field a number, exactly
 * 46 fields), the live field counter that enables the submit button, the
 * severity shown for a predicted label and the confidence ladder.
 */
module SinglePrediction {
  import opened Wrappers
  import opened Strings
  import opened Lookup

  // ---------------------------------------------------------------------
  // Input validation
  // ---------------------------------------------------------------------

  /** The model takes exactly this many features per sample. */
  const FeatureTotal := 46

  const BlankMessage := "Please enter feature values"
  const NotNumbersMessage := "Please enter valid numbers separated by commas"
  const CountPrefix := "Expected exactly 46 features, got "
  const DefaultFailure := "Prediction failed. Please try again."

  /** The message naming the number of fields actually entered. */
  function CountMessage(n: nat): (msg: string)
    ensures CountPrefix <= msg && DecimalValue(msg[|CountPrefix|..]) == n
  {
    DecimalRoundTrip(n);
    var msg := CountPrefix + DecimalString(n);
    assert msg[|CountPrefix|..] == DecimalString(n);
    msg
  }

  /** No field reads as NaN: `!tokens.map(Number).some(isNaN)`. */
  predicate AllNumbers(tokens: seq<string>, number: string -> Option<real>) {
    forall i :: 0 <= i < |tokens| ==> number(tokens[i]).Some?
  }

  /**
   * `tokens.map(Number)`, or None when some field reads as NaN. `number`
   * stands for JavaScript's `Number` on one field, None meaning NaN.
   */
  function NumbersOf(tokens: seq<string>, number: string -> Option<real>): (r: Option<seq<real>>)
    ensures r.Some? <==> AllNumbers(tokens, number)
    ensures r.Some? ==> |r.value| == |tokens|
    ensures r.Some? ==> forall i :: 0 <= i < |tokens| ==> Some(r.value[i]) == number(tokens[i])
  {
    if AllNumbers(tokens, number) then
      Some(seq(|tokens|, i requires 0 <= i < |tokens| => number(tokens[i]).value))
    else None
  }

  /** Why the input was refused; `Message` gives the text the page shows. */
  datatype Refusal = Blank | NotNumbers | WrongCount(got: nat)

  function Message(r: Refusal): (msg: string)
    ensures msg != ""
    ensures r == Blank ==> msg == BlankMessage
    ensures r == NotNumbers ==> msg == NotNumbersMessage
    ensures r.WrongCount? ==> CountPrefix <= msg && DecimalValue(msg[|CountPrefix|..]) == r.got
  {
    match r
    case Blank => BlankMessage
    case NotNumbers => NotNumbersMessage
    case WrongCount(n) => CountMessage(n)
  }

  /** Different refusals show different messages, so the message tells the user which check failed. */
  lemma MessageInjective(r: Refusal, q: Refusal)
    requires Message(r) == Message(q)
    ensures r == q
  {
    assert BlankMessage[13] == 'f' && NotNumbersMessage[13] == 'v';
    assert CountPrefix[0] == 'E' && BlankMessage[0] == 'P' && NotNumbersMessage[0] == 'P';
    if r.WrongCount? {
      assert Message(r)[0] == 'E';
    }
    if q.WrongCount? {
      assert Message(q)[0] == 'E';
    }
    if r.WrongCount? && q.WrongCount? {
      assert Message(r)[|CountPrefix|..] == Message(q)[|CountPrefix|..];
    }
  }

  /** The checks of `handlePredict`, in their order: the feature vector to send, or why it is refused. */
  function Validate(features: string, number: string -> Option<real>): (r: Result<seq<real>, Refusal>)
    ensures AllWhitespace(features) ==> r == Err(Blank)
    ensures r.Ok? ==> |r.value| == FeatureTotal
  {
    if AllWhitespace(features) then Err(Blank) else CheckFields(Split(features, ','), number)
  }

  /** The checks made inside the `try`: every field a number, then exactly 46 of them. */
  function CheckFields(tokens: seq<string>, number: string -> Option<real>): (r: Result<seq<real>, Refusal>)
    ensures r != Err(Blank)
    ensures r.Ok? ==> |tokens| == |r.value| == FeatureTotal
  {
    match NumbersOf(tokens, number)
    case None => Err(NotNumbers)
    case Some(values) =>
      if |values| != FeatureTotal then Err(WrongCount(|values|)) else Ok(values)
  }

  /** The field checks refuse for a non-number first, then for a wrong count, and otherwise pass the numbers on. */
  lemma FieldOutcomes(tokens: seq<string>, number: string -> Option<real>)
    ensures CheckFields(tokens, number) == Err(NotNumbers) <==> !AllNumbers(tokens, number)
    ensures CheckFields(tokens, number) == Err(WrongCount(|tokens|)) <==>
      AllNumbers(tokens, number) && |tokens| != FeatureTotal
    ensures CheckFields(tokens, number).Ok? <==> AllNumbers(tokens, number) && |tokens| == FeatureTotal
    ensures CheckFields(tokens, number).Ok? ==>
      var values := CheckFields(tokens, number).value;
      |values| == FeatureTotal && forall i :: 0 <= i < |tokens| ==> Some(values[i]) == number(tokens[i])
    ensures CheckFields(tokens, number).Err? ==> CheckFields(tokens, number).error != Blank
    ensures forall n :: CheckFields(tokens, number) == Err(WrongCount(n)) ==> n == |tokens|
  {
  }

  /** Blank input is refused as such, before any field is read. */
  lemma BlankRefused(features: string, number: string -> Option<real>)
    ensures Validate(features, number) == Err(Blank) <==> AllWhitespace(features)
  {
    FieldOutcomes(Split(features, ','), number);
  }

  /** A field that is not a number refuses a non-blank input, whatever the field count. */
  lemma NotNumbersRefused(features: string, number: string -> Option<real>)
    ensures Validate(features, number) == Err(NotNumbers) <==>
      !AllWhitespace(features) && !AllNumbers(Split(features, ','), number)
  {
    FieldOutcomes(Split(features, ','), number);
  }

  /** A count refusal names the number of fields entered (commas plus one), which is not 46. */
  lemma CountRefusal(features: string, number: string -> Option<real>, n: nat)
    requires Validate(features, number) == Err(WrongCount(n))
    ensures !AllWhitespace(features)
    ensures n == Count(features, ',') + 1 && n != FeatureTotal
  {
    FieldOutcomes(Split(features, ','), number);
  }

  /**
   * The request is made exactly when the input is not blank, every field is
   * a number and there are 46 fields (45 commas).
   */
  lemma AcceptedExactly(features: string, number: string -> Option<real>)
    ensures Validate(features, number).Ok? <==>
      && !AllWhitespace(features)
      && AllNumbers(Split(features, ','), number)
      && Count(features, ',') + 1 == FeatureTotal
  {
    FieldOutcomes(Split(features, ','), number);
  }

  /** What is sent is the 46 numbers read from the fields, in order. */
  lemma AcceptedValues(features: string, number: string -> Option<real>)
    requires Validate(features, number).Ok?
    ensures var values := Validate(features, number).value;
      var tokens := Split(features, ',');
      |values| == FeatureTotal && forall i :: 0 <= i < FeatureTotal ==> Some(values[i]) == number(tokens[i])
  {
    FieldOutcomes(Split(features, ','), number);
  }

  /** `err.message || 'Prediction failed. Please try again.'` */
  function FailureMessage(message: string): (msg: string)
    ensures msg != ""
    ensures message != "" ==> msg == message
    ensures message == "" ==> msg == DefaultFailure
  {
    if message == "" then DefaultFailure else message
  }

  // ---------------------------------------------------------------------
  // Field counter and submit button
  // ---------------------------------------------------------------------

  /** `features ? features.split(',').length : 0`: the counter shown under the input. */
  function FeatureCount(features: string): (n: nat)
    ensures features == "" ==> n == 0
    ensures features != "" ==> n == Count(features, ',') + 1
  {
    if features == "" then 0 else |Split(features, ',')|
  }

  /** `isFeatureCountValid`: the counter shows 46, that is, the input holds exactly 45 commas. */
  predicate IsFeatureCountValid(features: string)
    ensures IsFeatureCountValid(features) <==> Count(features, ',') == FeatureTotal - 1
  {
    FeatureCount(features) == FeatureTotal
  }

  /** `!(loading || !features.trim() || !isFeatureCountValid)` */
  predicate SubmitEnabled(loading: bool, features: string)
    ensures SubmitEnabled(loading, features) <==>
      !loading && !AllWhitespace(features) && Count(features, ',') == FeatureTotal - 1
    ensures loading ==> !SubmitEnabled(loading, features)
  {
    !loading && !AllWhitespace(features) && IsFeatureCountValid(features)
  }

  /**
   * When the button is enabled the blank check and the count check cannot
   * fail: the request is either made or refused because a field is not a number.
   */
  lemma EnabledPassesCount(features: string, number: string -> Option<real>)
    requires SubmitEnabled(false, features)
    ensures Validate(features, number).Ok? || Validate(features, number) == Err(NotNumbers)
  {
  }

  /** `exampleFeatures`: the sample the page offers, 46 fields padded here and there with tabs and spaces. */
  const ExampleFeatures: string := "0,\t0, 47\t,64\t,45.13537479,\t45.13537479\t,0\t,0,\t0\t,0\t,0,\t0\t,0\t,0,\t0,\t0,\t0,\t0,\t0,\t0,\t0\t,0\t,0,\t0\t,0\t,0,\t0,\t0,\t0,\t0,\t0,\t1,\t1,\t6216,\t592,\t592,\t592\t,0\t,592\t,83698590.52,\t9.5\t,34.40930107,\t0,\t0,\t0\t,141.55\t"

  // ---------------------------------------------------------------------
  // Severity and confidence labels
  // ---------------------------------------------------------------------

  datatype Level = Critical | High | Medium | Safe | Unknown
  datatype Icon = AlertTriangle | Shield | Activity | Cpu | CheckCircle | Info
  datatype Style = Style(level: Level, color: string, icon: Icon)

  /** `severityLevels`, in its insertion order. */
  const SeverityTable: seq<(string, Style)> := [
    ("DDoS", Style(Critical, "bg-red-500", AlertTriangle)),
    ("DoS", Style(High, "bg-orange-500", AlertTriangle)),
    ("BruteForce", Style(High, "bg-orange-500", Shield)),
    ("PortScan", Style(Medium, "bg-yellow-500", Activity)),
    ("WebAttack", Style(Medium, "bg-yellow-500", Shield)),
    ("Botnet", Style(Medium, "bg-yellow-500", Cpu)),
    ("Normal", Style(Safe, "bg-green-500", CheckCircle))]

  const UnknownStyle := Style(Unknown, "bg-gray-500", Info)

  /** `getAttackSeverity`: the entry of the first key, in table order, found in the label as written. */
  function AttackSeverity(attackType: string): (s: Style)
    ensures s == UnknownStyle <==> FirstMatch(SeverityTable, CaseSensitive, attackType).None?
    ensures s.level == Unknown <==> s == UnknownStyle
    ensures s != UnknownStyle ==> exists k :: 0 <= k < |SeverityTable| && s == SeverityTable[k].1
    ensures match FirstMatch(SeverityTable, CaseSensitive, attackType)
            case Some(k) => s == SeverityTable[k].1
            case None => s == UnknownStyle
  {
    match FirstMatch(SeverityTable, CaseSensitive, attackType)
    case None => UnknownStyle
    case Some(k) => SeverityTable[k].1
  }

  /** "DDoS" is tried before "DoS", so any label naming a DDoS attack is Critical. */
  lemma DDoSIsCritical(attackType: string)
    requires Contains(attackType, "DDoS")
    ensures AttackSeverity(attackType).level == Critical
  {
    FindAt(SeverityTable, CaseSensitive, attackType, UnknownStyle, 0);
  }

  /** A plain DoS label (no "DDoS" in it) is High. */
  lemma DoSIsHigh(attackType: string)
    requires Contains(attackType, "DoS") && !Contains(attackType, "DDoS")
    ensures AttackSeverity(attackType) == Style(High, "bg-orange-500", AlertTriangle)
  {
    FindAt(SeverityTable, CaseSensitive, attackType, UnknownStyle, 1);
  }

  /** Matching is case-sensitive: a label that contains no key as written is Unknown. */
  lemma NoKeyIsUnknown(attackType: string)
    requires forall k :: 0 <= k < |SeverityTable| ==> !Contains(attackType, SeverityTable[k].0)
    ensures AttackSeverity(attackType) == UnknownStyle
  {
  }

  datatype ConfidenceLabel = VeryLow | Low | MediumConfidence | HighConfidence | VeryHigh

  /** The position of a label on the ladder, lowest first. */
  function LabelRank(l: ConfidenceLabel): nat {
    match l
    case VeryLow => 0
    case Low => 1
    case MediumConfidence => 2
    case HighConfidence => 3
    case VeryHigh => 4
  }

  /** `formatConfidence`: thresholds 0.95, 0.85, 0.70 and 0.50; each label covers one interval between consecutive thresholds. */
  function FormatConfidence(confidence: real): (l: ConfidenceLabel)
    ensures l == VeryHigh <==> 0.95 <= confidence
    ensures l == HighConfidence <==> 0.85 <= confidence < 0.95
    ensures l == MediumConfidence <==> 0.70 <= confidence < 0.85
    ensures l == Low <==> 0.50 <= confidence < 0.70
    ensures l == VeryLow <==> confidence < 0.50
  {
    if confidence >= 0.95 then VeryHigh
    else if confidence >= 0.85 then HighConfidence
    else if confidence >= 0.70 then MediumConfidence
    else if confidence >= 0.50 then Low
    else VeryLow
  }

  /** A higher confidence never gets a lower label. */
  lemma FormatConfidenceMonotone(c: real, d: real)
    requires c <= d
    ensures LabelRank(FormatConfidence(c)) <= LabelRank(FormatConfidence(d))
  {
  }

  // ---------------------------------------------------------------------
  // Page state
  // ---------------------------------------------------------------------

  /** What the prediction service answers for one sample. */
  datatype PredictionResult = PredictionResult(prediction: string, confidence: real)

  /** How the request ended: an answer, or an error carrying a message (possibly empty). */
  datatype Reply = Replied(result: PredictionResult) | Threw(message: string)

  /** The page's state; the "copied" flag and its timer are not modelled. */
  class SinglePage {
    var features: string
    var prediction: Option<PredictionResult>
    var loading: bool
    var error: Option<string>

    constructor ()
      ensures features == "" && prediction == None && !loading && error == None
    {
      features := "";
      prediction := None;
      loading := false;
      error := None;
    }

    /** The input's `onChange`. */
    method Edit(text: string)
      modifies this
      ensures features == text
      ensures prediction == old(prediction) && loading == old(loading) && error == old(error)
    {
      features := text;
    }

    /**
     * `handlePredict`: returns the feature vector sent to the service, if
     * any; `reply` is what the service answers to it.
     */
    method HandlePredict(number: string -> Option<real>, reply: Reply) returns (request: Option<seq<real>>)
      modifies this
      ensures features == old(features)
      ensures request.Some? <==> Validate(old(features), number).Ok?
      ensures request.Some? ==> request == Some(Validate(old(features), number).value) && |request.value| == FeatureTotal
      ensures AllWhitespace(old(features)) ==>
        error == Some(Message(Blank)) && prediction == old(prediction) && loading == old(loading)
      ensures !AllWhitespace(old(features)) ==> !loading
      ensures Validate(old(features), number).Err? ==>
        error == Some(Message(Validate(old(features), number).error)) && prediction == old(prediction)
      ensures request.Some? && reply.Replied? ==> prediction == Some(reply.result) && error == None
      ensures request.Some? && reply.Threw? ==>
        prediction == old(prediction) && error == Some(FailureMessage(reply.message))
    {
      var outcome := Validate(features, number);
      if AllWhitespace(features) {
        error := Some(Message(Blank));
        return None;
      }
      loading := true;
      error := None;
      match outcome {
        case Err(refusal) =>
          error := Some(Message(refusal));
          request := None;
        case Ok(values) =>
          request := Some(values);
          match reply {
            case Replied(result) =>
              prediction := Some(result);
            case Threw(message) =>
              error := Some(FailureMessage(message));
          }
      }
      loading := false;
    }

    /** `handleReset`: empties the input, the prediction and the error. */
    method Reset()
      modifies this
      ensures features == "" && prediction == None && error == None
      ensures loading == old(loading)
    {
      features := "";
      prediction := None;
      error := None;
    }

    /** `handleExample`: loads the sample and clears the prediction and the error. */
    method LoadExample()
      modifies this
      ensures features == ExampleFeatures && prediction == None && error == None
      ensures loading == old(loading)
    {
      features := ExampleFeatures;
      prediction := None;
      error := None;
    }
  }
}
