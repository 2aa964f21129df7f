/**
 * The booking wizard of src/components/AppointmentBooking.tsx. Its six pieces of state (step,
 * selected date, time and service, the details form and the sending flag) are the fields of the
 * class `Wizard`, whose methods are the component's handlers. Each handler is specified by a
 * function on `WizardState`, the same six values. The three requests of the submit handler are
 * not performed: the caller supplies how each one turns out, and the handler returns the
 * requests it made.
 */
module BookingWizard {
  import opened Wrappers

  datatype Step = ServiceStep | DateStep | TimeStep | DetailsStep | ConfirmationStep

  /** `Date.getDay()`: 0 is Sunday, 6 is Saturday. */
  type Weekday = w: int | 0 <= w < 7

  /** A calendar day: the instant of its local midnight in milliseconds since the epoch, and its weekday. */
  datatype Day = Day(start: int, weekday: Weekday)

  datatype FormData = FormData(name: string, email: string, message: string)

  const EmptyForm := FormData("", "", "")

  datatype Service = Service(id: string, name: string, description: string, duration: nat, price: nat)

  datatype TimeSlot = TimeSlot(time: string, available: bool)

  /** The fixed service table the page offers. */
  const MockServices: seq<Service> := [
    Service("consultation", "Initial Consultation", "Comprehensive first-time consultation and assessment", 60, 150),
    Service("follow-up", "Follow-up Session", "Regular check-in and progress review", 30, 75),
    Service("emergency", "Emergency Appointment", "Urgent care and immediate attention", 45, 200)
  ]

  /** The fixed slot table; the same slots are shown for every date. */
  const MockTimeSlots: seq<TimeSlot> := [
    TimeSlot("09:00", true), TimeSlot("09:30", true), TimeSlot("10:00", false), TimeSlot("10:30", true),
    TimeSlot("11:00", true), TimeSlot("11:30", false), TimeSlot("12:00", true), TimeSlot("12:30", true),
    TimeSlot("13:00", false), TimeSlot("13:30", true), TimeSlot("14:00", true), TimeSlot("14:30", true),
    TimeSlot("15:00", true), TimeSlot("15:30", false), TimeSlot("16:00", true), TimeSlot("16:30", true)
  ]

  const DefaultMessage := "General consultation appointment"
  const DefaultEmailContent := "Appointment confirmed!"

  /**
   * The calendar's `disabled` rule at instant `now`: a day whose midnight is before now, or a
   * Sunday or a Saturday. Today itself is disabled unless `now` is exactly its midnight.
   */
  predicate DateDisabled(d: Day, now: int): (disabled: bool)
    ensures !disabled <==> now <= d.start && IsWorkday(d)
  {
    d.start < now || d.weekday == 0 || d.weekday == 6
  }

  /** Monday to Friday. */
  predicate IsWorkday(d: Day) {
    1 <= d.weekday <= 5
  }

  predicate IsOfferedService(id: string) {
    exists k :: 0 <= k < |MockServices| && MockServices[k].id == id
  }

  predicate IsOpenSlot(time: string) {
    exists k :: 0 <= k < |MockTimeSlots| && MockTimeSlots[k].available && MockTimeSlots[k].time == time
  }

  /** The component's state; `date` is `None` when the calendar selection is `undefined`. */
  datatype WizardState = WizardState(
    step: Step,
    date: Option<Day>,
    time: string,
    service: string,
    form: FormData,
    sending: bool)

  /** The first render: today's date preselected, nothing else chosen. */
  function Initial(today: Day): WizardState {
    WizardState(ServiceStep, Some(today), "", "", EmptyForm, false)
  }

  /** `handleServiceSelect`. */
  function ServiceSelected(s: WizardState, serviceId: string): WizardState {
    s.(service := serviceId, step := DateStep)
  }

  /** `handleDateSelect`: the selection is stored, and only a defined date moves on to the times. */
  function DateSelected(s: WizardState, date: Option<Day>): WizardState {
    if date.Some? then s.(date := date, step := TimeStep) else s.(date := date)
  }

  /** `handleTimeSelect`. */
  function TimeSelected(s: WizardState, time: string): WizardState {
    s.(time := time, step := DetailsStep)
  }

  /** A slot button's click: `slot.available && handleTimeSelect(slot.time)`. */
  function SlotClicked(s: WizardState, slot: TimeSlot): WizardState {
    if slot.available then TimeSelected(s, slot.time) else s
  }

  /** The Back button of the details form. */
  function BackToTime(s: WizardState): WizardState {
    s.(step := TimeStep)
  }

  /** `handleBackToStart`; `today` is the `new Date()` it stores. The sending flag is left alone. */
  function Restarted(s: WizardState, today: Day): WizardState {
    s.(step := ServiceStep, service := "", date := Some(today), time := "", form := EmptyForm)
  }

  /** The guard of `handleFormSubmit`: a date, a time and a service are chosen. */
  predicate CanSubmit(s: WizardState) {
    s.date.Some? && s.time != "" && s.service != ""
  }

  /**
   * How one awaited request turns out: an ok response whose JSON body was read, a response that
   * is not ok, or a thrown error (the fetch or the reading of the body).
   */
  datatype Reply<T> = Ok(body: T) | NotOk | Threw

  /**
   * The three requests of a submit: the message analysis (its body is kept as opaque JSON text),
   * the email generation (its body is the `emailContent` field, "" when missing) and the booking
   * creation (its body is the booking id).
   */
  datatype Replies = Replies(analysis: Reply<string>, email: Reply<string>, booking: Reply<string>)

  /** The requests a submit sends, with their JSON payloads; a date is sent formatted, here as the day. */
  datatype Call =
    | AnalyzeMessage(message: string, userEmail: string)
    | GenerateEmail(name: string, date: Day, time: string, message: string, analysis: Option<string>)
    | CreateBooking(name: string, email: string, date: Day, time: string, message: string,
                    analysis: Option<string>, emailContent: string)

  /** `formData.message || 'General consultation appointment'`. */
  function MessageOrDefault(message: string): string {
    if message == "" then DefaultMessage else message
  }

  /** `emailData?.emailContent || 'Appointment confirmed!'`. */
  function EmailContentOrDefault(reply: Reply<string>): string {
    if reply.Ok? && reply.body != "" then reply.body else DefaultEmailContent
  }

  /** The payload of `analysis` that the later requests carry: the body when ok, else null. */
  function AnalysisOf(reply: Reply<string>): Option<string> {
    if reply.Ok? then Some(reply.body) else None
  }

  datatype SubmitOutcome = SubmitOutcome(state: WizardState, calls: seq<Call>)

  /**
   * `handleFormSubmit` from start to end. A failed guard changes nothing and sends nothing. Past
   * it, the requests go out in order until one throws; the step becomes the confirmation only
   * when the booking reply is ok; and the sending flag is off at the end on every path.
   */
  function Submitted(s: WizardState, replies: Replies): (o: SubmitOutcome)
    ensures !CanSubmit(s) ==> o.state == s && o.calls == []
    ensures CanSubmit(s) ==> !o.state.sending && o.state.(step := s.step, sending := s.sending) == s
    ensures CanSubmit(s) ==>
      1 <= |o.calls| <= 3 && o.calls[0] == AnalyzeMessage(MessageOrDefault(s.form.message), s.form.email)
    ensures CanSubmit(s) && replies.analysis.Threw? ==> |o.calls| == 1
    ensures |o.calls| == 3 <==> CanSubmit(s) && !replies.analysis.Threw? && !replies.email.Threw?
    ensures |o.calls| >= 2 <==> CanSubmit(s) && !replies.analysis.Threw?
    ensures |o.calls| >= 2 ==>
      o.calls[1] == GenerateEmail(s.form.name, s.date.value, s.time, s.form.message, AnalysisOf(replies.analysis))
    ensures |o.calls| == 3 ==>
      o.calls[2] == CreateBooking(s.form.name, s.form.email, s.date.value, s.time, s.form.message,
                                  AnalysisOf(replies.analysis), EmailContentOrDefault(replies.email))
    ensures o.state.step != s.step ==> o.state.step == ConfirmationStep
    ensures o.state.step == ConfirmationStep <==>
      s.step == ConfirmationStep || (|o.calls| == 3 && replies.booking.Ok?)
  {
    if !CanSubmit(s) then SubmitOutcome(s, [])
    else
      var analyze := AnalyzeMessage(MessageOrDefault(s.form.message), s.form.email);
      var done := s.(sending := false);
      if replies.analysis.Threw? then SubmitOutcome(done, [analyze])
      else
        var analysis := AnalysisOf(replies.analysis);
        var generate := GenerateEmail(s.form.name, s.date.value, s.time, s.form.message, analysis);
        if replies.email.Threw? then SubmitOutcome(done, [analyze, generate])
        else
          var create := CreateBooking(s.form.name, s.form.email, s.date.value, s.time, s.form.message,
                                      analysis, EmailContentOrDefault(replies.email));
          var next := if replies.booking.Ok? then done.(step := ConfirmationStep) else done;
          SubmitOutcome(next, [analyze, generate, create])
  }

  /** What the user can do on the rendered page: the controls, each with what it passes to its handler. */
  datatype Event =
    | ChooseService(serviceIndex: nat)
    | ChooseDate(date: Option<Day>, now: int)
    | ChooseSlot(slotIndex: nat)
    | TypeName(name: string)
    | TypeEmail(email: string)
    | TypeMessage(message: string)
    | SubmitForm(replies: Replies)
    | PressBack
    | PressBackToStart(today: Day)

  /**
   * Whether the page rendered for `s` shows the control of `e`: the service cards on the service
   * step; the calendar on every other step except the confirmation page (which returns early),
   * offering only days it does not disable (or clearing the selection); the slots on the time
   * step; the form, its Back button and its submit button (disabled while sending) on the details
   * step; "Book Another" and "Send Email Again" on the confirmation page. The browser fires the
   * form's submit only when its `required` name and email inputs are filled in.
   */
  predicate Enabled(s: WizardState, e: Event): (shown: bool)
    ensures shown && s.step == ConfirmationStep ==> e.PressBackToStart?
    ensures shown && s.step == ServiceStep ==> e.ChooseService?
    ensures shown && e.SubmitForm? ==> s.step == DetailsStep && s.form.name != "" && s.form.email != ""
  {
    match e
    case ChooseService(i) => s.step == ServiceStep && i < |MockServices|
    case ChooseDate(d, now) => s.step != ServiceStep && s.step != ConfirmationStep && (d.Some? ==> !DateDisabled(d.value, now))
    case ChooseSlot(i) => s.step == TimeStep && i < |MockTimeSlots|
    case TypeName(_) => s.step == DetailsStep
    case TypeEmail(_) => s.step == DetailsStep
    case TypeMessage(_) => s.step == DetailsStep
    case SubmitForm(_) => s.step == DetailsStep && !s.sending && s.form.name != "" && s.form.email != ""
    case PressBack => s.step == DetailsStep
    case PressBackToStart(_) => s.step == ConfirmationStep
  }

  /** The state after an event, by the handler its control calls. */
  function Apply(s: WizardState, e: Event): WizardState
    requires Enabled(s, e)
  {
    match e
    case ChooseService(i) => ServiceSelected(s, MockServices[i].id)
    case ChooseDate(d, _) => DateSelected(s, d)
    case ChooseSlot(i) => SlotClicked(s, MockTimeSlots[i])
    case TypeName(v) => s.(form := s.form.(name := v))
    case TypeEmail(v) => s.(form := s.form.(email := v))
    case TypeMessage(v) => s.(form := s.form.(message := v))
    case SubmitForm(r) => Submitted(s, r).state
    case PressBack => BackToTime(s)
    case PressBackToStart(today) => Restarted(s, today)
  }

  /** The state after a sequence of events, or `None` if one of them has no control on its page. */
  function Run(s: WizardState, events: seq<Event>): Option<WizardState>
    decreases |events|
  {
    if events == [] then Some(s)
    else if Enabled(s, events[0]) then Run(Apply(s, events[0]), events[1..])
    else None
  }

  /**
   * What holds between events: nothing is being sent; past the service step the service is one
   * the page offers; from the details step on the time is an available slot; the confirmation
   * page has a date, a name and an email; and from the time step on a chosen date is a working day.
   */
  ghost predicate Consistent(s: WizardState) {
    && !s.sending
    && (s.step != ServiceStep ==> IsOfferedService(s.service))
    && (s.step in {DetailsStep, ConfirmationStep} ==> IsOpenSlot(s.time))
    && (s.step == ConfirmationStep ==> s.date.Some? && s.form.name != "" && s.form.email != "")
    && (s.step in {TimeStep, DetailsStep, ConfirmationStep} && s.date.Some? ==> IsWorkday(s.date.value))
  }

  lemma InitialIsConsistent(today: Day)
    ensures Consistent(Initial(today))
  {
  }

  /** Every control the page shows keeps the state consistent. */
  lemma EventKeepsConsistent(s: WizardState, e: Event)
    requires Consistent(s) && Enabled(s, e)
    ensures Consistent(Apply(s, e))
  {
  }

  lemma {:induction false} RunKeepsConsistent(s: WizardState, events: seq<Event>)
    requires Consistent(s)
    ensures Run(s, events).Some? ==> Consistent(Run(s, events).value)
    decreases |events|
  {
    if events != [] && Enabled(s, events[0]) {
      EventKeepsConsistent(s, events[0]);
      RunKeepsConsistent(Apply(s, events[0]), events[1..]);
    }
  }

  /**
   * Whatever the user does from the first render, with each submit taken as one atomic step, a
   * confirmed booking names an offered service, an available slot, a working-day date, a name and
   * an email, and nothing is left sending.
   */
  lemma ConfirmedBookingIsComplete(today: Day, events: seq<Event>)
    requires Run(Initial(today), events).Some?
    requires Run(Initial(today), events).value.step == ConfirmationStep
    ensures var s := Run(Initial(today), events).value;
      && IsOfferedService(s.service) && IsOpenSlot(s.time) && s.date.Some? && IsWorkday(s.date.value)
      && s.form.name != "" && s.form.email != "" && !s.sending
  {
    InitialIsConsistent(today);
    RunKeepsConsistent(Initial(today), events);
  }

  class Wizard {
    var step: Step
    var selectedDate: Option<Day>
    var selectedTime: string
    var selectedService: string
    var formData: FormData
    var isSendingEmail: bool

    function State(): WizardState
      reads this
    {
      WizardState(step, selectedDate, selectedTime, selectedService, formData, isSendingEmail)
    }

    /** The first render; `today` is the `new Date()` the date selection starts from. */
    constructor (today: Day)
      ensures State() == Initial(today)
    {
      step := ServiceStep;
      selectedDate := Some(today);
      selectedTime := "";
      selectedService := "";
      formData := EmptyForm;
      isSendingEmail := false;
    }

    method SelectService(serviceId: string)
      modifies this
      ensures State() == ServiceSelected(old(State()), serviceId)
      ensures selectedService == serviceId && step == DateStep
    {
      selectedService := serviceId;
      step := DateStep;
    }

    method SelectDate(date: Option<Day>)
      modifies this
      ensures State() == DateSelected(old(State()), date)
      ensures selectedDate == date && step == if date.Some? then TimeStep else old(step)
    {
      selectedDate := date;
      if date.Some? {
        step := TimeStep;
      }
    }

    method SelectTime(time: string)
      modifies this
      ensures State() == TimeSelected(old(State()), time)
      ensures selectedTime == time && step == DetailsStep
    {
      selectedTime := time;
      step := DetailsStep;
    }

    /** A slot button's `onClick`: only an available slot reaches `handleTimeSelect`. */
    method ClickSlot(slot: TimeSlot)
      modifies this
      ensures State() == SlotClicked(old(State()), slot)
      ensures !slot.available ==> State() == old(State())
    {
      if slot.available {
        SelectTime(slot.time);
      }
    }

    method SetName(name: string)
      modifies this
      ensures State() == old(State()).(form := old(formData).(name := name))
    {
      formData := formData.(name := name);
    }

    method SetEmail(email: string)
      modifies this
      ensures State() == old(State()).(form := old(formData).(email := email))
    {
      formData := formData.(email := email);
    }

    method SetMessage(message: string)
      modifies this
      ensures State() == old(State()).(form := old(formData).(message := message))
    {
      formData := formData.(message := message);
    }

    /**
     * `handleFormSubmit`: the guard, then the sending flag on, the requests in order until one
     * throws, the step change on an ok booking, and the flag off in the `finally` block.
     */
    method Submit(replies: Replies) returns (calls: seq<Call>)
      modifies this
      ensures SubmitOutcome(State(), calls) == Submitted(old(State()), replies)
    {
      if selectedDate.None? || selectedTime == "" || selectedService == "" {
        return [];
      }
      isSendingEmail := true;
      calls := [AnalyzeMessage(MessageOrDefault(formData.message), formData.email)];
      if !replies.analysis.Threw? {
        var analysis := AnalysisOf(replies.analysis);
        calls := calls + [GenerateEmail(formData.name, selectedDate.value, selectedTime, formData.message, analysis)];
        if !replies.email.Threw? {
          calls := calls + [CreateBooking(formData.name, formData.email, selectedDate.value, selectedTime,
                                          formData.message, analysis, EmailContentOrDefault(replies.email))];
          if replies.booking.Ok? {
            step := ConfirmationStep;
          }
        }
      }
      isSendingEmail := false;
    }

    /** `handleBackToStart`; `today` is the fresh `new Date()`. */
    method BackToStart(today: Day)
      modifies this
      ensures State() == Restarted(old(State()), today)
      ensures step == ServiceStep && selectedService == "" && selectedTime == "" && formData == EmptyForm
      ensures selectedDate == Some(today) && isSendingEmail == old(isSendingEmail)
    {
      step := ServiceStep;
      selectedService := "";
      selectedDate := Some(today);
      selectedTime := "";
      formData := EmptyForm;
    }

    /** The details form's Back button: back to the times, every selection kept. */
    method Back()
      modifies this
      ensures State() == BackToTime(old(State()))
      ensures step == TimeStep
    {
      step := TimeStep;
    }
  }
}
