/**
 * The conversation screen: the turn list, the simulated microphone cycle, the
 * keyword detection of a lab order, the confirm/cancel of pending actions and
 * "repeat last".
 */
module Conversation {
  import opened Wrappers
  import opened Sequences
  import Text

  /** The page's own message kinds, narrower than the shared ones. */
  datatype MessageType = Original | Translation

  /** One turn. The role is whatever the page was opened with; it is not checked. */
  datatype Message = Message(id: string, role: string, text: string, translation: string, timestamp: int, kind: MessageType)

  /** A detected action; `confirmed` is `None` while pending. */
  datatype Action = Action(id: string, actionType: string, description: string, confirmed: Option<bool>)

  /**
   * The role from the `role` query parameter. A missing or empty parameter
   * gives "clinician"; any other value is taken as it is.
   */
  function RoleFromQuery(param: Option<string>): (role: string)
    ensures role != ""
    ensures param.Some? && param.value != "" ==> role == param.value
  {
    if param.None? || param.value == "" then "clinician" else param.value
  }

  /** The mock turns shown on mount, timed relative to the mount time `now` (milliseconds). */
  function InitialMessages(now: int): seq<Message>
  {
    [ Message("1", "clinician", "Hello, how are you feeling today?", "¿Hola, cómo se siente hoy?", now - 120000, Original),
      Message("2", "patient", "Me duele mucho la cabeza desde ayer.", "I have had a bad headache since yesterday.", now - 90000, Original),
      Message("3", "clinician", "I'm sorry to hear that. Have you taken any medication for it?",
              "Lamento escuchar eso. ¿Ha tomado algún medicamento para ello?", now - 60000, Original),
      Message("4", "patient", "Tomé ibuprofeno pero no me ayudó mucho.", "I took ibuprofen but it didn't help much.", now - 30000, Original) ]
  }

  const ClinicianUtterance := "I would like to order some blood tests to check for any issues."
  const ClinicianTranslation := "Me gustaría ordenar algunos análisis de sangre para verificar si hay algún problema."
  const PatientUtterance := "Todavía tengo náuseas y mareos cuando me levanto."
  const PatientTranslation := "I still have nausea and dizziness when I get up."

  /** The simulated turn that arrives after a release, stamped with the clock `now`. */
  function NewMessage(role: string, clinicianView: bool, now: nat): Message
  {
    Message(Text.NatToString(now), role,
            if clinicianView then ClinicianUtterance else PatientUtterance,
            if clinicianView then ClinicianTranslation else PatientTranslation,
            now, Original)
  }

  /**
   * The keyword rule: in the clinician view, a turn whose lowercased text
   * includes "tests", i.e. has it at some position.
   */
  predicate DetectsLabOrder(clinicianView: bool, text: string)
    ensures DetectsLabOrder(clinicianView, text) <==>
      clinicianView && exists i: nat :: Text.OccursAt(Text.Lower(text), "tests", i)
  {
    Text.ContainsIffOccurs(Text.Lower(text), "tests");
    clinicianView && Text.Contains(Text.Lower(text), "tests")
  }

  const LabOrderType := "lab_order"
  const LabOrderDescription := "Blood test order detected"

  /** The clinician's simulated utterance has "tests" at index 33. */
  lemma ClinicianUtteranceMentionsTests()
    ensures Text.OccursAt(ClinicianUtterance, "tests", 33)
  {
    var u := ClinicianUtterance;
    assert u[33] == 't' && u[34] == 'e' && u[35] == 's' && u[36] == 't' && u[37] == 's';
  }

  /** The clinician's simulated turn always raises a lab order; the patient view never does. */
  lemma ClinicianTurnRaisesLabOrder(text: string)
    ensures DetectsLabOrder(true, ClinicianUtterance)
    ensures !DetectsLabOrder(false, text)
  {
    ClinicianUtteranceMentionsTests();
    Text.LowerKeepsOccurrence(ClinicianUtterance, "tests", 33);
  }

  /** The rule ignores letter case in the turn's text. */
  lemma DetectionIgnoresCase(clinicianView: bool, text: string)
    ensures DetectsLabOrder(clinicianView, Text.Lower(text)) == DetectsLabOrder(clinicianView, text)
  {
    Text.LowerIdempotent(text);
  }

  /**
   * `handleActionConfirm`'s update: every action whose id matches gets the
   * answer; everything else, the order and the length stay as they were.
   */
  function ConfirmById(actions: seq<Action>, id: string, confirmed: bool): (r: seq<Action>)
    ensures |r| == |actions|
    ensures forall i :: 0 <= i < |r| ==>
      && r[i].id == actions[i].id && r[i].actionType == actions[i].actionType
      && r[i].description == actions[i].description
      && r[i].confirmed == (if actions[i].id == id then Some(confirmed) else actions[i].confirmed)
  {
    if actions == [] then []
    else
      var head := if actions[0].id == id then actions[0].(confirmed := Some(confirmed)) else actions[0];
      [head] + ConfirmById(actions[1..], id, confirmed)
  }

  /** An unknown id changes nothing. */
  lemma ConfirmUnknownIdIsNoOp(actions: seq<Action>, id: string, confirmed: bool)
    requires forall i :: 0 <= i < |actions| ==> actions[i].id != id
    ensures ConfirmById(actions, id, confirmed) == actions
  {
    var r := ConfirmById(actions, id, confirmed);
    assert forall i :: 0 <= i < |r| ==> r[i] == actions[i];
  }

  /**
   * Nothing guards a second answer: a later answer for the same id replaces
   * the earlier one, so a confirmed action can still be cancelled.
   */
  lemma LaterAnswerWins(actions: seq<Action>, id: string, first: bool, second: bool)
    ensures ConfirmById(ConfirmById(actions, id, first), id, second) == ConfirmById(actions, id, second)
  {
    var a := ConfirmById(ConfirmById(actions, id, first), id, second);
    var b := ConfirmById(actions, id, second);
    assert forall i :: 0 <= i < |a| ==> a[i] == b[i];
  }

  predicate IsPending(a: Action) { a.confirmed.None? }

  /** The pending view: exactly the unanswered actions, in their original order. */
  function Pending(actions: seq<Action>): (r: seq<Action>)
    ensures forall i :: 0 <= i < |r| ==> r[i] in actions && r[i].confirmed.None?
    ensures forall i :: 0 <= i < |actions| && actions[i].confirmed.None? ==> actions[i] in r
    ensures IsSubsequence(r, actions)
    ensures forall a :: multiset(r)[a] == if a.confirmed.None? then multiset(actions)[a] else 0
  {
    Filter(actions, IsPending)
  }

  /** Answering an action removes it from the pending view. */
  lemma AnsweredLeavesPending(actions: seq<Action>, id: string, confirmed: bool)
    ensures forall i :: 0 <= i < |Pending(ConfirmById(actions, id, confirmed))| ==>
      Pending(ConfirmById(actions, id, confirmed))[i].id != id
  {
    var updated := ConfirmById(actions, id, confirmed);
    var p := Pending(updated);
    forall i | 0 <= i < |p| ensures p[i].id != id {
      var j :| 0 <= j < |updated| && updated[j] == p[i];
    }
  }

  /**
   * `handleRepeat`'s search, `[...messages].reverse().find(m => m.role !== role)`:
   * the latest turn from another role, or nothing when every turn is the viewer's.
   */
  function LastFromOther(messages: seq<Message>, role: string): (r: Option<Message>)
    ensures r.None? <==> forall i :: 0 <= i < |messages| ==> messages[i].role == role
    ensures r.Some? ==> exists i :: 0 <= i < |messages| && messages[i] == r.value && r.value.role != role &&
                                   forall j :: i < j < |messages| ==> messages[j].role == role
  {
    match LastOtherIndex(messages, role, |messages|)
    case None => None
    case Some(i) => Some(messages[i])
  }

  /** The search from the back of the first `n` turns for one whose role is not `role`. */
  function LastOtherIndex(messages: seq<Message>, role: string, n: nat): (r: Option<nat>)
    requires n <= |messages|
    ensures r.None? <==> forall i :: 0 <= i < n ==> messages[i].role == role
    ensures r.Some? ==> r.value < n && messages[r.value].role != role &&
                        forall j :: r.value < j < n ==> messages[j].role == role
    decreases n
  {
    if n == 0 then None
    else if messages[n - 1].role != role then Some(n - 1)
    else LastOtherIndex(messages, role, n - 1)
  }

  /** What "repeat last" plays: the text in the clinician view, the translation otherwise. */
  function RepeatPlayback(messages: seq<Message>, role: string, clinicianView: bool): (r: Option<string>)
    ensures r.None? <==> LastFromOther(messages, role).None?
    ensures r.Some? ==> r.value == if clinicianView then LastFromOther(messages, role).value.text
                                   else LastFromOther(messages, role).value.translation
  {
    match LastFromOther(messages, role)
    case None => None
    case Some(m) => Some(if clinicianView then m.text else m.translation)
  }

  /** The conversation page's state. */
  class ConversationPage {
    const role: string
    const isClinicianView: bool
    var messages: seq<Message>
    var isRecording: bool
    var isTranslating: bool
    var actions: seq<Action>
    /** Lab-order timers scheduled and not yet fired. */
    var labOrderTimers: nat
    /** Translation timers scheduled by a release and not yet fired. */
    var translationTimers: nat

    /** Mounting the page, including the effect that loads the mock turns. */
    constructor (roleParam: Option<string>, now: int)
      ensures role == RoleFromQuery(roleParam) && isClinicianView == (role == "clinician")
      ensures messages == InitialMessages(now) && actions == [] && labOrderTimers == 0 && translationTimers == 0
      ensures !isRecording && !isTranslating
    {
      role := RoleFromQuery(roleParam);
      isClinicianView := RoleFromQuery(roleParam) == "clinician";
      messages := InitialMessages(now);
      actions := [];
      labOrderTimers := 0;
      translationTimers := 0;
      isRecording := false;
      isTranslating := false;
    }

    /** `handleMicPress`. */
    method MicPress()
      modifies this`isRecording
      ensures isRecording
    {
      isRecording := true;
    }

    /** `handleMicRelease`: recording stops, translation begins and its timer is scheduled. */
    method MicRelease()
      modifies this`isRecording, this`isTranslating, this`translationTimers
      ensures !isRecording && isTranslating
      ensures translationTimers == old(translationTimers) + 1
    {
      isRecording := false;
      isTranslating := true;
      translationTimers := translationTimers + 1;
    }

    /**
     * The translation timer firing at clock `now`: the new turn is appended
     * after every earlier one and translation ends; in the clinician view a
     * turn that mentions "tests" schedules the lab-order timer.
     */
    method TranslationArrives(now: nat)
      requires translationTimers > 0
      modifies this`messages, this`isTranslating, this`labOrderTimers, this`translationTimers
      ensures messages == old(messages) + [NewMessage(role, isClinicianView, now)]
      ensures !isTranslating && translationTimers == old(translationTimers) - 1
      ensures labOrderTimers == old(labOrderTimers) +
        if DetectsLabOrder(isClinicianView, NewMessage(role, isClinicianView, now).text) then 1 else 0
    {
      var message := NewMessage(role, isClinicianView, now);
      messages := messages + [message];
      isTranslating := false;
      translationTimers := translationTimers - 1;
      if isClinicianView && Text.Contains(Text.Lower(message.text), "tests") {
        labOrderTimers := labOrderTimers + 1;
      }
    }

    /** A scheduled lab-order timer firing at clock `now`: one pending lab order is appended. */
    method LabOrderTimerFires(now: nat)
      requires labOrderTimers > 0
      modifies this`actions, this`labOrderTimers
      ensures actions == old(actions) + [Action(Text.NatToString(now), LabOrderType, LabOrderDescription, None)]
      ensures labOrderTimers == old(labOrderTimers) - 1
    {
      actions := actions + [Action(Text.NatToString(now), LabOrderType, LabOrderDescription, None)];
      labOrderTimers := labOrderTimers - 1;
    }

    /** `handleActionConfirm(id, confirmed)`. */
    method ConfirmAction(id: string, confirmed: bool)
      modifies this`actions
      ensures actions == ConfirmById(old(actions), id, confirmed)
    {
      actions := ConfirmById(actions, id, confirmed);
    }

    /** The pending actions the page lists. */
    function PendingActions(): (r: seq<Action>)
      reads this
      ensures forall i :: 0 <= i < |r| ==> r[i] in actions && r[i].confirmed.None?
      ensures forall a :: multiset(r)[a] == if a.confirmed.None? then multiset(actions)[a] else 0
    {
      Pending(actions)
    }

    /** `handleRepeat`: what is played, if anything; the turn list is left as it was. */
    method Repeat() returns (played: Option<string>)
      ensures played.None? <==> forall i :: 0 <= i < |messages| ==> messages[i].role == role
      ensures played.Some? ==> exists i :: (0 <= i < |messages| && messages[i].role != role &&
        played.value == (if isClinicianView then messages[i].text else messages[i].translation) &&
        forall j :: i < j < |messages| ==> messages[j].role == role)
    {
      played := RepeatPlayback(messages, role, isClinicianView);
    }
  }

  /** One clinician turn end to end: press, release, translation, the lab order, its confirmation. */
  method ClinicianCycle(now: nat, later: nat)
  {
    var page := new ConversationPage(None, 0);
    page.MicPress();
    assert page.isRecording;
    page.MicRelease();
    assert !page.isRecording && page.isTranslating;
    ClinicianTurnRaisesLabOrder("");
    page.TranslationArrives(now);
    assert !page.isTranslating && page.labOrderTimers == 1;
    page.LabOrderTimerFires(later);
    var id := Text.NatToString(later);
    assert page.actions == [Action(id, LabOrderType, LabOrderDescription, None)];
    page.ConfirmAction(id, true);
    assert page.actions == [Action(id, LabOrderType, LabOrderDescription, Some(true))];
  }
}
