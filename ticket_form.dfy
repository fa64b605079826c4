/** The support-ticket form: four priority levels, seven categories, the
    promised response time of the chosen priority, and when the form may be
    submitted. */
module TicketForm {
  import opened Common

  datatype PriorityLevel = PriorityLevel(value: string, text: string)

  const PriorityLevels: seq<PriorityLevel> := [
    PriorityLevel("low", "Low - General inquiry"),
    PriorityLevel("medium", "Medium - Service issue"),
    PriorityLevel("high", "High - Server down"),
    PriorityLevel("urgent", "Urgent - Security breach")]

  const Categories: seq<string> := [
    "Technical Support", "Billing & Account", "Server Performance", "Network Issues",
    "Security Concerns", "Feature Request", "General Inquiry"]

  datatype FormData = FormData(subject: string, category: string, priority: string, description: string, vpsId: string)

  const EmptyForm := FormData("", "", "", "", "")

  /** `levels.find(p => p.value === value)`: the first level with that value. */
  function FindPriority(levels: seq<PriorityLevel>, value: string): (r: Option<PriorityLevel>)
    ensures r.None? <==> forall i :: 0 <= i < |levels| ==> levels[i].value != value
    ensures r.Some? ==> r.value.value == value
    ensures r.Some? ==>
      exists i :: (0 <= i < |levels| && levels[i] == r.value
                   && forall j :: 0 <= j < i ==> levels[j].value != value)
  {
    if levels == [] then None
    else if levels[0].value == value then Some(levels[0])
    else
      var r := FindPriority(levels[1..], value);
      assert forall i :: 1 <= i < |levels| ==> levels[i] == levels[1..][i - 1];
      if r.Some? then
        var i :| 0 <= i < |levels[1..]| && levels[1..][i] == r.value && levels[1..][i].value == value
          && forall j :: 0 <= j < i ==> levels[1..][j].value != value;
        assert levels[i + 1] == r.value && forall j :: 0 <= j < i + 1 ==> levels[j].value != value;
        r
      else r
  }

  /** The four priority values are exactly low, medium, high and urgent,
      and no two levels share one. */
  lemma PriorityValues()
    ensures forall i :: 0 <= i < |PriorityLevels| ==> PriorityLevels[i].value in {"low", "medium", "high", "urgent"}
    ensures forall i, j :: 0 <= i < j < |PriorityLevels| ==> PriorityLevels[i].value != PriorityLevels[j].value
  {
  }

  /** The response-time text of a level value: the texts of all matching
      conditions side by side, so one text for a known value. */
  function ResponseTime(value: string): (r: string)
    ensures r != "" <==> value in {"urgent", "high", "medium", "low"}
    ensures value == "urgent" ==> r == "Within 1 hour"
    ensures value == "low" ==> r == "Within 48 hours"
  {
    (if value == "urgent" then "Within 1 hour" else "")
    + (if value == "high" then "Within 4 hours" else "")
    + (if value == "medium" then "Within 24 hours" else "")
    + (if value == "low" then "Within 48 hours" else "")
  }

  /** The promised response time is shown only for a chosen priority. */
  function ResponseHint(form: FormData): Option<string>
  {
    var selected := FindPriority(PriorityLevels, form.priority);
    if selected.Some? then Some(ResponseTime(selected.value.value)) else None
  }

  /** The hint appears exactly for the four level values, with their fixed
      response times, and not before a priority is chosen. */
  lemma ResponseHints(form: FormData)
    ensures ResponseHint(form).Some? <==> form.priority in {"low", "medium", "high", "urgent"}
    ensures form.priority == "urgent" ==> ResponseHint(form) == Some("Within 1 hour")
    ensures form.priority == "high" ==> ResponseHint(form) == Some("Within 4 hours")
    ensures form.priority == "medium" ==> ResponseHint(form) == Some("Within 24 hours")
    ensures form.priority == "low" ==> ResponseHint(form) == Some("Within 48 hours")
    ensures ResponseHint(EmptyForm) == None
  {
    assert PriorityLevels[0].value == "low" && PriorityLevels[1].value == "medium";
    assert PriorityLevels[2].value == "high" && PriorityLevels[3].value == "urgent";
    assert ResponseTime("urgent") == "Within 1 hour";
    assert ResponseTime("high") == "Within 4 hours";
    assert ResponseTime("medium") == "Within 24 hours";
    assert ResponseTime("low") == "Within 48 hours";
  }

  /** The submit button is enabled when no submission is running and the
      four starred fields are filled in. */
  predicate SubmitEnabled(form: FormData, isSubmitting: bool)
  {
    !isSubmitting && form.subject != "" && form.category != "" && form.priority != "" && form.description != ""
  }

  /** The optional server id never matters; an untouched form cannot be sent. */
  lemma SubmitIgnoresServerId(form: FormData, vpsId: string, isSubmitting: bool)
    ensures SubmitEnabled(form.(vpsId := vpsId), isSubmitting) == SubmitEnabled(form, isSubmitting)
    ensures !SubmitEnabled(EmptyForm, isSubmitting)
  {
  }

  /** Filling in every starred field with any text is enough. */
  lemma FilledFormCanBeSent(form: FormData)
    requires form.subject != "" && form.category in Categories && form.priority != "" && form.description != ""
    ensures SubmitEnabled(form, false)
  {
    assert forall i :: 0 <= i < |Categories| ==> Categories[i] != "";
  }
}
