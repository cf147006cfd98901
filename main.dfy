/**
 * The experiment timeline (js/main.js): an introduction screen, the
 * catalogue's scenario and rating trials, and a closing screen. Handing the
 * timeline to the experiment runner is not part of this model.
 */
module Experiment {
  import opened Scenarios

  /** The introduction screen: wait for the space bar. */
  const Intro: Trial := Trial(
    IntroTrial,
    PluginName("html-keyboard-response"),
    Keys([SpaceKey]),
    None,
    map["trial_type" := Str("intro")],
    None)

  /** The closing screen: no keys, three seconds. */
  const End: Trial := Trial(
    EndTrial,
    PluginName("html-keyboard-response"),
    NoKeys,
    Some(3000),
    map["trial_type" := Str("end")],
    None)

  /** The introduction accepts only space and the end screen no key, for 3000 ms. */
  lemma ScreenFacts()
    ensures Intro.choices == Keys([" "]) && Intro.duration == None
    ensures Intro.data == map["trial_type" := Str("intro")]
    ensures End.choices == NoKeys && End.duration == Some(3000)
    ensures End.data == map["trial_type" := Str("end")]
  {
  }

  /** The timeline: the introduction, every scenario trial in order, the end screen. */
  method BuildTimeline() returns (timeline: seq<Trial>)
    ensures |timeline| == 2 * |Catalogue| + 2
    ensures timeline[0] == Intro && timeline[|timeline| - 1] == End
    ensures timeline[1..|timeline| - 1] == ScenarioTrials(Catalogue)
  {
    var trials := CreateAllScenarioTrials();
    timeline := [Intro] + trials + [End];
    assert timeline[1..|timeline| - 1] == trials;
  }

  /**
   * Along the timeline, every rating trial comes right after the display
   * trial of the same scenario, and every display trial is followed by its
   * rating trial.
   */
  lemma RatingsFollowDisplays(scenarios: seq<Scenario>, timeline: seq<Trial>)
    requires |timeline| >= 2 && timeline[0] == Intro && timeline[|timeline| - 1] == End
    requires timeline[1..|timeline| - 1] == ScenarioTrials(scenarios)
    ensures forall j :: 0 < j < |timeline| && timeline[j].kind == TrustRating ==>
      timeline[j - 1].kind == ScenarioDisplay &&
      "scenario_id" in timeline[j - 1].data && "scenario_id" in timeline[j].data &&
      timeline[j - 1].data["scenario_id"] == timeline[j].data["scenario_id"]
    ensures forall j :: 0 <= j < |timeline| - 1 && timeline[j].kind == ScenarioDisplay ==>
      timeline[j + 1].kind == TrustRating &&
      "scenario_id" in timeline[j + 1].data && "scenario_id" in timeline[j].data &&
      timeline[j + 1].data["scenario_id"] == timeline[j].data["scenario_id"]
  {
    var middle := timeline[1..|timeline| - 1];
    forall j | 0 < j < |timeline| && timeline[j].kind == TrustRating
      ensures timeline[j - 1].kind == ScenarioDisplay
      ensures "scenario_id" in timeline[j - 1].data && "scenario_id" in timeline[j].data
      ensures timeline[j - 1].data["scenario_id"] == timeline[j].data["scenario_id"]
    {
      assert j < |timeline| - 1;
      assert timeline[j] == middle[j - 1];
      ScenarioTrialsPaired(scenarios, j - 1);
      assert timeline[j - 1] == middle[j - 2];
    }
    forall j | 0 <= j < |timeline| - 1 && timeline[j].kind == ScenarioDisplay
      ensures timeline[j + 1].kind == TrustRating
      ensures "scenario_id" in timeline[j + 1].data && "scenario_id" in timeline[j].data
      ensures timeline[j + 1].data["scenario_id"] == timeline[j].data["scenario_id"]
    {
      assert 0 < j;
      assert timeline[j] == middle[j - 1];
      ScenarioTrialsPaired(scenarios, j - 1);
      assert timeline[j + 1] == middle[j];
    }
  }
}
