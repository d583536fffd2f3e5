/**
 * `Keyboards` (utils/keyboards.py): the codec of the callback data that
 * inline buttons carry, an action and a value joined by '_'. The keyboard
 * builders themselves only lay out buttons and are not part of this model.
 */
module Keyboards {
  import opened Common

  datatype Callback = Callback(action: string, value: string)

  /** `parse_callback_data`: split at the first '_'; without one the value is empty. */
  function ParseCallbackData(data: string): (r: Callback)
    ensures '_' !in r.action
    ensures '_' in data ==> data == r.action + "_" + r.value
    ensures '_' !in data ==> r == Callback(data, "")
  {
    var i := FindChar(data, '_', 0);
    if i == -1 then Callback(data, "")
    else
      assert data == data[..i] + "_" + data[i + 1..];
      Callback(data[..i], data[i + 1..])
  }

  /** `build_callback_data`: "action_value", or the action alone for an empty value. */
  function BuildCallbackData(action: string, value: string): (r: string)
    ensures value != "" ==> r == action + "_" + value
    ensures value == "" ==> r == action
  {
    if value != "" then action + "_" + value else action
  }

  /** The first '_' of `data` is at `k`: everything after it is the value. */
  lemma ParseAt(data: string, k: nat)
    requires k < |data| && data[k] == '_' && '_' !in data[..k]
    ensures ParseCallbackData(data) == Callback(data[..k], data[k + 1..])
  {
    assert data[k] in data;
  }

  /** Building and then parsing gives back the pair whenever the action has no '_'. */
  lemma ParseBuildRoundTrip(action: string, value: string)
    requires '_' !in action
    ensures ParseCallbackData(BuildCallbackData(action, value)) == Callback(action, value)
  {
    if value != "" {
      var data := action + "_" + value;
      assert data[..|action|] == action;
      assert data[|action| + 1..] == value;
      ParseAt(data, |action|);
    }
  }

  /**
   * Parsing and then building gives back the data, except exactly when the
   * data's first '_' is its last character: that '_' is lost.
   */
  lemma BuildParseRoundTrip(data: string)
    ensures var p := ParseCallbackData(data);
      BuildCallbackData(p.action, p.value) == data <==> !('_' in data && p.value == "")
    ensures var p := ParseCallbackData(data);
      '_' in data && p.value == "" ==> data == BuildCallbackData(p.action, p.value) + "_"
  {
    var p := ParseCallbackData(data);
    if '_' in data && p.value == "" {
      assert |BuildCallbackData(p.action, p.value)| < |data|;
    }
  }

  /** The examples of the docstrings, and the lossy case. */
  lemma CallbackExamples()
    ensures ParseCallbackData("goal_weight_loss") == Callback("goal", "weight_loss")
    ensures ParseCallbackData("confirm") == Callback("confirm", "")
    ensures BuildCallbackData("goal", "weight_loss") == "goal_weight_loss"
    ensures BuildCallbackData("confirm", "") == "confirm"
    ensures ParseCallbackData("a_") == Callback("a", "") && BuildCallbackData("a", "") == "a"
  {
    ParseAt("goal_weight_loss", 4);
    ParseAt("a_", 1);
    assert '_' !in "confirm";
  }
}
