/**
 * The message form of `src/pages/Contact.jsx`: four text fields, and a submit
 * cycle idle -> submitting -> submitted -> idle driven by two timers. The
 * timers are the events `SubmitDone` (the simulated request returns) and
 * `ResetDone` (the thank-you panel times out).
 */
module Contact {
  import opened Records

  datatype State = State(form: map<string, string>, submitting: bool, submitted: bool)

  const BlankForm: map<string, string> := map["name" := "", "email" := "", "subject" := "", "message" := ""]

  const InitialState := State(BlankForm, false, false)

  /** `handleInputChange`: one form field. */
  function InputChange(s: State, name: string, value: string): (r: State)
    ensures SetsOnly(s.form, r.form, name, value)
    ensures r.(form := s.form) == s
  {
    s.(form := SetField(s.form, name, value))
  }

  /** `handleSubmit` up to its delay: the request is in flight. */
  function Submit(s: State): (r: State)
    ensures r.submitting && r.submitted == s.submitted && r.form == s.form
  {
    s.(submitting := true)
  }

  /** The request returns: the thank-you panel replaces the form, whose contents are kept. */
  function SubmitDone(s: State): (r: State)
    ensures !r.submitting && r.submitted && r.form == s.form
  {
    s.(submitting := false, submitted := true)
  }

  /** The five-second timer: the panel goes and every field is cleared. */
  function ResetDone(s: State): (r: State)
    ensures !r.submitted && r.submitting == s.submitting
    ensures r.form.Keys == {"name", "email", "subject", "message"}
    ensures forall k :: k in r.form ==> r.form[k] == ""
  {
    s.(submitted := false, form := BlankForm)
  }

  /** The send button is disabled, and reads "Sending Message...", while the request is in flight. */
  function SendButton(s: State): (r: (bool, string))
    ensures r.0 <==> s.submitting
    ensures r.1 == "Sending Message..." <==> s.submitting
    ensures !s.submitting ==> r.1 == "Send Message"
  {
    if s.submitting then (true, "Sending Message...") else (false, "Send Message")
  }

  /** The thank-you panel is shown instead of the form while submitted. */
  predicate ShowsThankYou(s: State)
  {
    s.submitted
  }

  /** A field the browser accepts as filled in: present and not empty. */
  predicate Filled(form: map<string, string>, name: string)
  {
    name in form && form[name] != ""
  }

  /**
   * All four inputs carry `required`, so the browser submits the form only
   * when each holds some text. (The email input's address syntax check is
   * not modelled.)
   */
  predicate FormFilled(form: map<string, string>)
  {
    Filled(form, "name") && Filled(form, "email") && Filled(form, "subject") && Filled(form, "message")
  }

  datatype Event = Input(name: string, value: string) | Send | RequestReturned | PanelTimedOut

  /**
   * Which events can happen: typing and sending need the form on screen, and
   * sending needs the button enabled and every required field filled; each
   * timer fires only in the phase that started it.
   */
  predicate Enabled(s: State, e: Event)
  {
    match e
    case Input(_, _) => !s.submitted
    case Send => !s.submitted && !s.submitting && FormFilled(s.form)
    case RequestReturned => s.submitting
    case PanelTimedOut => s.submitted
  }

  function Step(s: State, e: Event): State
  {
    match e
    case Input(name, value) => InputChange(s, name, value)
    case Send => Submit(s)
    case RequestReturned => SubmitDone(s)
    case PanelTimedOut => ResetDone(s)
  }

  /** The form is never both in flight and thanked for. */
  predicate Consistent(s: State)
  {
    !(s.submitting && s.submitted)
  }

  /** Every enabled event keeps the page consistent. */
  lemma StepKeepsConsistent(s: State, e: Event)
    requires Consistent(s) && Enabled(s, e)
    ensures Consistent(Step(s, e))
  {
  }

  /** The page after a sequence of events. */
  function Run(s: State, events: seq<Event>): State
    decreases |events|
  {
    if |events| == 0 then s else Run(Step(s, events[0]), events[1..])
  }

  /** Every event of the sequence was enabled when it occurred. */
  predicate Admissible(s: State, events: seq<Event>)
    decreases |events|
  {
    |events| == 0 || (Enabled(s, events[0]) && Admissible(Step(s, events[0]), events[1..]))
  }

  /** Every admissible run from a consistent page ends consistent. */
  lemma {:induction false} RunKeepsConsistent(s: State, events: seq<Event>)
    requires Consistent(s) && Admissible(s, events)
    ensures Consistent(Run(s, events))
    decreases |events|
  {
    if |events| > 0 {
      StepKeepsConsistent(s, events[0]);
      RunKeepsConsistent(Step(s, events[0]), events[1..]);
    }
  }

  /** The blank form the page opens with cannot be sent. */
  lemma BlankFormCannotBeSent()
    ensures !Enabled(InitialState, Send)
  {
    assert !Filled(BlankForm, "name");
  }

  /**
   * A full send of a filled-in idle form: the request goes out with the form
   * still shown, the thank-you panel replaces it when the request returns,
   * and when the panel times out the form is back, idle and blank.
   */
  lemma SendCycle(s: State)
    requires !s.submitting && !s.submitted && FormFilled(s.form)
    ensures Admissible(s, [Send, RequestReturned, PanelTimedOut])
    ensures !ShowsThankYou(Run(s, [Send]))
    ensures ShowsThankYou(Run(s, [Send, RequestReturned]))
    ensures Run(s, [Send, RequestReturned, PanelTimedOut]) == InitialState
    ensures !ShowsThankYou(Run(s, [Send, RequestReturned, PanelTimedOut]))
  {
    var s1 := Submit(s);
    var s2 := SubmitDone(s1);
    assert [Send, RequestReturned, PanelTimedOut][1..] == [RequestReturned, PanelTimedOut];
    assert [Send, RequestReturned][1..] == [RequestReturned];
    assert [RequestReturned, PanelTimedOut][1..] == [PanelTimedOut];
    assert [Send][1..] == [];
    assert [RequestReturned][1..] == [];
    assert [PanelTimedOut][1..] == [];
    assert Run(s, [Send]) == s1;
    assert Run(s1, [RequestReturned]) == s2;
    assert Run(s, [Send, RequestReturned]) == s2;
    assert Admissible(ResetDone(s2), []);
    assert Admissible(s2, [PanelTimedOut]);
    assert Admissible(s1, [RequestReturned, PanelTimedOut]);
    assert Run(s2, [PanelTimedOut]) == ResetDone(s2);
    assert Run(s1, [RequestReturned, PanelTimedOut]) == ResetDone(s2);
  }
}
