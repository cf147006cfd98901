/**
 * Experiment settings (js/config.js): only the display time of a scenario
 * trial is used by the trial builders.
 */
module ExperimentConfig {

  /** How long a scenario stays on screen, in milliseconds. */
  const ScenarioDuration: nat := 5000
}

/**
 * The eHMI scenario catalogue and the trials built from it (js/scenarios.js).
 *
 * A trial is the record handed to the experiment runner. Only its data is
 * modelled: which trial it is, which plugin shows it, which keys it accepts,
 * how long it lasts, the data it logs and, for a rating trial, the scenario
 * id its on_finish callback closes over. HTML stimuli and prompts are left out.
 */
module Scenarios {
  import opened ExperimentConfig

  datatype Option<T> = None | Some(value: T)

  /** One entry of the catalogue. */
  datatype Scenario = Scenario(
    id: string,
    title: string,
    description: string,
    eHMIMessage: string,
    eHMIColor: string,
    imageUrl: string,
    context: string)

  const Catalogue: seq<Scenario> := [
    Scenario(
      "scenario_1",
      "보행자 감지 시나리오",
      "자율주행차가 횡단보도에서 보행자를 감지하고 정지합니다.",
      "PEDESTRIAN DETECTED - STOPPING",
      "green",
      "https://upload.wikimedia.org/wikipedia/commons/thumb/8/86/Zebra_crossing.jpg/640px-Zebra_crossing.jpg",
      "횡단보도 앞에서 보행자가 감지되었습니다. 차량이 자동으로 정지합니다."),
    Scenario(
      "scenario_2",
      "비상 상황 시나리오",
      "자율주행차가 갑작스러운 장애물을 감지하고 회피합니다.",
      "OBSTACLE DETECTED - EVADING",
      "orange",
      "https://images.unsplash.com/photo-1449824913935-59a10b8d2000?w=640",
      "도로에 장애물이 감지되었습니다. 차량이 안전하게 회피합니다."),
    Scenario(
      "scenario_3",
      "우선순위 양보 시나리오",
      "자율주행차가 응급차량을 감지하고 양보합니다.",
      "EMERGENCY VEHICLE - YIELDING",
      "red",
      "https://images.unsplash.com/photo-1581091226825-a6a2a5aee158?w=640",
      "응급차량이 접근하고 있습니다. 차량이 자동으로 양보합니다."),
    Scenario(
      "scenario_4",
      "안전 통과 시나리오",
      "자율주행차가 안전하게 진행할 수 있음을 표시합니다.",
      "CLEAR PATH - PROCEEDING",
      "blue",
      "https://images.unsplash.com/photo-1449824913935-59a10b8d2000?w=640",
      "도로가 맑습니다. 차량이 안전하게 진행합니다.")
  ]

  /** Four scenarios with distinct ids, coloured green, orange, red and blue. */
  lemma CatalogueFacts()
    ensures |Catalogue| == 4
    ensures forall i, j :: 0 <= i < j < |Catalogue| ==> Catalogue[i].id != Catalogue[j].id
    ensures Catalogue[0].id == "scenario_1" && Catalogue[0].eHMIColor == "green"
    ensures Catalogue[1].id == "scenario_2" && Catalogue[1].eHMIColor == "orange"
    ensures Catalogue[2].id == "scenario_3" && Catalogue[2].eHMIColor == "red"
    ensures Catalogue[3].id == "scenario_4" && Catalogue[3].eHMIColor == "blue"
  {
  }

  /**
   * The plugin a trial names: the keyboard-response plugin object itself, or
   * a plugin given by its name as a string.
   */
  datatype Plugin = HtmlKeyboardResponse | PluginName(name: string)

  /** The keys a trial accepts: a list of keys, or none at all. */
  datatype Choices = Keys(keys: seq<string>) | NoKeys

  /** A value logged in a trial's data record; NaN is what parseInt returns on failure. */
  datatype Value = Str(s: string) | Num(n: int) | NaN | Null

  datatype TrialKind = IntroTrial | ScenarioDisplay | TrustRating | EndTrial

  datatype Trial = Trial(
    kind: TrialKind,
    plugin: Plugin,
    choices: Choices,
    duration: Option<nat>,
    data: map<string, Value>,
    onFinish: Option<string>)

  const SpaceKey: string := " "
  const RatingKeys: seq<string> := ["1", "2", "3", "4", "5"]

  /**
   * The trial that shows a scenario: space only, for the configured time,
   * logging the scenario's id, title, message and colour unchanged.
   */
  function ScenarioTrial(s: Scenario): (t: Trial)
    ensures t.kind == ScenarioDisplay && t.plugin == HtmlKeyboardResponse
    ensures t.choices == Keys([SpaceKey]) && t.duration == Some(ScenarioDuration)
    ensures t.data.Keys == {"scenario_id", "scenario_title", "eHMI_message", "eHMI_color"}
    ensures t.data["scenario_id"] == Str(s.id) && t.data["scenario_title"] == Str(s.title)
    ensures t.data["eHMI_message"] == Str(s.eHMIMessage) && t.data["eHMI_color"] == Str(s.eHMIColor)
    ensures t.onFinish == None
  {
    Trial(
      ScenarioDisplay,
      HtmlKeyboardResponse,
      Keys([SpaceKey]),
      Some(ScenarioDuration),
      map["scenario_id" := Str(s.id),
          "scenario_title" := Str(s.title),
          "eHMI_message" := Str(s.eHMIMessage),
          "eHMI_color" := Str(s.eHMIColor)],
      None)
  }

  /**
   * The trust-rating trial for a scenario: keys 1 to 5, no time limit, data
   * tagged as a trust rating of that scenario, and an on_finish callback
   * that closes over the scenario's id.
   */
  function RatingTrial(s: Scenario): (t: Trial)
    ensures t.kind == TrustRating && t.plugin == HtmlKeyboardResponse
    ensures t.choices == Keys(RatingKeys) && t.duration == None
    ensures t.data.Keys == {"trial_type", "scenario_id", "question"}
    ensures t.data["trial_type"] == Str("trust_rating") && t.data["scenario_id"] == Str(s.id)
    ensures t.data["question"] == Str("trust_rating")
    ensures t.onFinish == Some(s.id)
  {
    Trial(
      TrustRating,
      HtmlKeyboardResponse,
      Keys(RatingKeys),
      None,
      map["trial_type" := Str("trust_rating"),
          "scenario_id" := Str(s.id),
          "question" := Str("trust_rating")],
      Some(s.id))
  }

  // ---------------------------------------------------------------------
  // parseInt and the rating trial's on_finish

  predicate IsDigit(c: char) {
    '0' <= c <= '9'
  }

  /** Length of the run of decimal digits that starts s. */
  function DigitRun(s: string): (k: nat)
    ensures k <= |s|
    ensures forall i :: 0 <= i < k ==> IsDigit(s[i])
    ensures k < |s| ==> !IsDigit(s[k])
    decreases |s|
  {
    if s != [] && IsDigit(s[0]) then 1 + DigitRun(s[1..]) else 0
  }

  /** The value of one decimal digit. */
  function DigitValue(c: char): (v: nat)
    requires IsDigit(c)
    ensures v <= 9
  {
    c as int - '0' as int
  }

  /** The number a string of decimal digits denotes. */
  function DecimalValue(d: string): (r: nat)
    requires forall i :: 0 <= i < |d| ==> IsDigit(d[i])
    ensures |d| == 1 ==> r == DigitValue(d[0])
    decreases |d|
  {
    if d == [] then 0
    else
      var last := |d| - 1;
      assert IsDigit(d[last]);
      10 * DecimalValue(d[..last]) + DigitValue(d[last])
  }

  /** Appending a digit shifts the value one decimal place and adds the digit. */
  lemma DecimalValueAppend(d: string, c: char)
    requires forall i :: 0 <= i < |d| ==> IsDigit(d[i])
    requires IsDigit(c)
    ensures forall i :: 0 <= i < |d + [c]| ==> IsDigit((d + [c])[i])
    ensures DecimalValue(d + [c]) == 10 * DecimalValue(d) + DigitValue(c)
  {
    assert (d + [c])[..|d|] == d;
  }

  /** The digit run of a string made of digits d and then a non-digit tail is d. */
  lemma {:induction false} DigitRunOfDigits(d: string, t: string)
    requires forall i :: 0 <= i < |d| ==> IsDigit(d[i])
    requires t == [] || !IsDigit(t[0])
    ensures DigitRun(d + t) == |d|
    decreases |d|
  {
    if d == [] {
      assert d + t == t;
    } else {
      assert (d + t)[1..] == d[1..] + t;
      DigitRunOfDigits(d[1..], t);
    }
  }

  /**
   * parseInt with the default radix on the strings the program passes it:
   * the value of the leading run of decimal digits, NaN when there is none.
   */
  function ParseInt(s: string): (v: Value)
    ensures v.Num? <==> s != [] && IsDigit(s[0])
    ensures v.Num? ==> v.n >= 0 && v.n == DecimalValue(s[..DigitRun(s)])
    ensures v.Num? || v.NaN?
  {
    var k := DigitRun(s);
    if k == 0 then NaN else Num(DecimalValue(s[..k]))
  }

  /**
   * parseInt reads a leading run of digits and ignores whatever follows it:
   * digits d followed by a tail that does not start with a digit give the
   * value of d.
   */
  lemma ParseIntDigitsThenRest(d: string, t: string)
    requires d != [] && forall i :: 0 <= i < |d| ==> IsDigit(d[i])
    requires t == [] || !IsDigit(t[0])
    ensures ParseInt(d + t) == Num(DecimalValue(d))
  {
    DigitRunOfDigits(d, t);
    assert (d + t)[..|d|] == d;
  }

  /** parseInt applied to a logged value (a missing or null response gives NaN). */
  function ParseIntValue(v: Value): (r: Value)
    ensures v.Str? ==> r == ParseInt(v.s)
    ensures v.Null? || v.NaN? ==> r.NaN?
  {
    match v
    case Str(s) => ParseInt(s)
    case Num(n) => Num(n)
    case NaN => NaN
    case Null => NaN
  }

  /** The key pressed, read back as a number, is the key's place on the 1-to-5 scale. */
  lemma RatingKeyValue(i: nat)
    requires i < |RatingKeys|
    ensures ParseInt(RatingKeys[i]) == Num(i + 1)
  {
  }

  /**
   * The data record of a rating trial after its on_finish callback: the
   * parsed response is stored as rating_value and the scenario id is set
   * again; every other field is kept.
   */
  function FinishedRating(scenarioId: string, fields: map<string, Value>): (r: map<string, Value>)
    ensures r.Keys == fields.Keys + {"rating_value", "scenario_id"}
    ensures r["scenario_id"] == Str(scenarioId)
    ensures r["rating_value"] == if "response" in fields then ParseIntValue(fields["response"]) else NaN
    ensures forall k :: k in fields && k != "rating_value" && k != "scenario_id" ==> r[k] == fields[k]
  {
    var response := if "response" in fields then fields["response"] else Null;
    fields["rating_value" := ParseIntValue(response)]["scenario_id" := Str(scenarioId)]
  }

  /** The rating is on the 1-to-5 scale whenever the response is one of the trial's keys. */
  lemma RatingInScale(scenarioId: string, fields: map<string, Value>, i: nat)
    requires i < |RatingKeys|
    requires "response" in fields && fields["response"] == Str(RatingKeys[i])
    ensures var r := FinishedRating(scenarioId, fields)["rating_value"];
      r.Num? && 1 <= r.n <= 5 && RatingKeys[r.n - 1] == fields["response"].s
  {
  }

  /** The data record the runner passes to on_finish, updated in place. */
  class DataRecord {
    var fields: map<string, Value>

    constructor (fields: map<string, Value>)
      ensures this.fields == fields
    {
      this.fields := fields;
    }
  }

  /**
   * The on_finish callback of a rating trial, with the scenario id it closes
   * over (the trial's `onFinish` value).
   */
  method RatingOnFinish(scenarioId: string, data: DataRecord)
    modifies data
    ensures data.fields == FinishedRating(scenarioId, old(data.fields))
  {
    var response := if "response" in data.fields then data.fields["response"] else Null;
    data.fields := data.fields["rating_value" := ParseIntValue(response)];
    data.fields := data.fields["scenario_id" := Str(scenarioId)];
  }

  // ---------------------------------------------------------------------
  // The list of scenario trials

  /** For each scenario in order, its display trial and then its rating trial. */
  function ScenarioTrials(scenarios: seq<Scenario>): seq<Trial>
    decreases |scenarios|
  {
    if scenarios == [] then []
    else [ScenarioTrial(scenarios[0]), RatingTrial(scenarios[0])] + ScenarioTrials(scenarios[1..])
  }

  lemma {:induction false} ScenarioTrialsLength(scenarios: seq<Scenario>)
    ensures |ScenarioTrials(scenarios)| == 2 * |scenarios|
    decreases |scenarios|
  {
    if scenarios != [] {
      ScenarioTrialsLength(scenarios[1..]);
    }
  }

  /** Places 2i and 2i + 1 of the list hold scenario i's display trial and its rating trial. */
  lemma {:induction false} ScenarioTrialAt(scenarios: seq<Scenario>, i: nat)
    requires i < |scenarios|
    ensures |ScenarioTrials(scenarios)| == 2 * |scenarios|
    ensures ScenarioTrials(scenarios)[2 * i] == ScenarioTrial(scenarios[i])
    ensures ScenarioTrials(scenarios)[2 * i + 1] == RatingTrial(scenarios[i])
    decreases i
  {
    ScenarioTrialsLength(scenarios);
    if i > 0 {
      var rest := scenarios[1..];
      ScenarioTrialAt(rest, i - 1);
      assert rest[i - 1] == scenarios[i];
    }
  }

  lemma ScenarioTrialsShape(scenarios: seq<Scenario>)
    ensures |ScenarioTrials(scenarios)| == 2 * |scenarios|
    ensures forall i :: 0 <= i < |scenarios| ==>
      ScenarioTrials(scenarios)[2 * i] == ScenarioTrial(scenarios[i]) &&
      ScenarioTrials(scenarios)[2 * i + 1] == RatingTrial(scenarios[i])
  {
    ScenarioTrialsLength(scenarios);
    forall i | 0 <= i < |scenarios|
      ensures ScenarioTrials(scenarios)[2 * i] == ScenarioTrial(scenarios[i])
      ensures ScenarioTrials(scenarios)[2 * i + 1] == RatingTrial(scenarios[i])
    {
      ScenarioTrialAt(scenarios, i);
    }
  }

  lemma {:induction false} ScenarioTrialsAppend(scenarios: seq<Scenario>, s: Scenario)
    ensures ScenarioTrials(scenarios + [s]) == ScenarioTrials(scenarios) + [ScenarioTrial(s), RatingTrial(s)]
    decreases |scenarios|
  {
    if scenarios == [] {
      assert [s][1..] == [];
    } else {
      assert (scenarios + [s])[1..] == scenarios[1..] + [s];
      ScenarioTrialsAppend(scenarios[1..], s);
    }
  }

  /**
   * Every trial of the list belongs to the scenario at half its index:
   * display trials at even places, rating trials at odd ones.
   */
  lemma ScenarioTrialsAlternate(scenarios: seq<Scenario>)
    ensures |ScenarioTrials(scenarios)| == 2 * |scenarios|
    ensures forall j :: 0 <= j < |ScenarioTrials(scenarios)| ==>
      ScenarioTrials(scenarios)[j].kind == (if j % 2 == 0 then ScenarioDisplay else TrustRating) &&
      "scenario_id" in ScenarioTrials(scenarios)[j].data &&
      ScenarioTrials(scenarios)[j].data["scenario_id"] == Str(scenarios[j / 2].id)
  {
    var trials := ScenarioTrials(scenarios);
    ScenarioTrialsLength(scenarios);
    forall j | 0 <= j < |trials|
      ensures trials[j].kind == (if j % 2 == 0 then ScenarioDisplay else TrustRating)
      ensures "scenario_id" in trials[j].data && trials[j].data["scenario_id"] == Str(scenarios[j / 2].id)
    {
      var i := j / 2;
      ScenarioTrialAt(scenarios, i);
      if j % 2 == 0 {
        assert trials[j] == ScenarioTrial(scenarios[i]) by { assert j == 2 * i; }
      } else {
        assert trials[j] == RatingTrial(scenarios[i]) by { assert j == 2 * i + 1; }
      }
    }
  }

  /**
   * Neighbours in the list: a rating trial's predecessor is the display
   * trial of the same scenario, and a display trial's successor is the
   * rating trial of the same scenario.
   */
  lemma ScenarioTrialsPaired(scenarios: seq<Scenario>, m: nat)
    requires m < |ScenarioTrials(scenarios)|
    ensures ScenarioTrials(scenarios)[m].kind == TrustRating ==>
      m >= 1 && ScenarioTrials(scenarios)[m - 1].kind == ScenarioDisplay &&
      "scenario_id" in ScenarioTrials(scenarios)[m - 1].data && "scenario_id" in ScenarioTrials(scenarios)[m].data &&
      ScenarioTrials(scenarios)[m - 1].data["scenario_id"] == ScenarioTrials(scenarios)[m].data["scenario_id"]
    ensures ScenarioTrials(scenarios)[m].kind == ScenarioDisplay ==>
      m + 1 < |ScenarioTrials(scenarios)| && ScenarioTrials(scenarios)[m + 1].kind == TrustRating &&
      "scenario_id" in ScenarioTrials(scenarios)[m + 1].data && "scenario_id" in ScenarioTrials(scenarios)[m].data &&
      ScenarioTrials(scenarios)[m + 1].data["scenario_id"] == ScenarioTrials(scenarios)[m].data["scenario_id"]
  {
    ScenarioTrialsLength(scenarios);
    var i := m / 2;
    ScenarioTrialAt(scenarios, i);
    if m % 2 == 0 {
      assert m == 2 * i;
    } else {
      assert m == 2 * i + 1;
    }
  }

  lemma TakeOneMore<T>(s: seq<T>, i: nat)
    requires i < |s|
    ensures s[..i + 1] == s[..i] + [s[i]]
  {
  }

  lemma TakeAll<T>(s: seq<T>)
    ensures s[..|s|] == s
  {
  }

  /**
   * Builds the catalogue's trial list by walking the catalogue and appending
   * each scenario's display and rating trials.
   */
  method CreateAllScenarioTrials() returns (trials: seq<Trial>)
    ensures trials == ScenarioTrials(Catalogue)
    ensures |trials| == 2 * |Catalogue|
    ensures forall i :: 0 <= i < |Catalogue| ==>
      trials[2 * i] == ScenarioTrial(Catalogue[i]) && trials[2 * i + 1] == RatingTrial(Catalogue[i])
  {
    var scenarios := Catalogue;
    trials := [];
    for i := 0 to |scenarios|
      invariant trials == ScenarioTrials(scenarios[..i])
    {
      var scenario := scenarios[i];
      ScenarioTrialsAppend(scenarios[..i], scenario);
      TakeOneMore(scenarios, i);
      trials := trials + [ScenarioTrial(scenario)];
      trials := trials + [RatingTrial(scenario)];
    }
    TakeAll(scenarios);
    ScenarioTrialsShape(scenarios);
  }
}
