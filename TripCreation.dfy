/** The trip-creation screen: a two-step form (trip details, then guests),
    its confirmation dialog, the invitee list, the loading flags and the
    start-up choice between resuming a stored trip and showing the form.

    The collaborators whose code is not part of this model are parameters:
    the e-mail validator and the calendar's range rule are functions given to
    the constructor; what a server or device-storage call returned, and the
    button the user chose in a dialog, are arguments of the handler that
    awaits it. */
module TripCreation {
  import opened Shared
  import opened Strings
  import Invites

  datatype StepForm = TripDetails | AddEmail

  /** Which modal is shown; one value, so at most one modal is visible. */
  datatype Modal = NoModal | CalendarModal | GuestsModal

  /** What the calendar's range rule produces: the two ends of the range,
      the marked-dates map and the range as display text. */
  datatype DatesSelected = DatesSelected(
    startsAt: Option<DateData>,
    endsAt: Option<DateData>,
    dates: map<string, Marking>,
    formatDatesInText: string)

  /** The initial `{}`: no end of the range chosen. */
  const NoDatesSelected := DatesSelected(None, None, map[], "")

  /** The two alerts that refuse to leave the details step. */
  datatype DetailsAlert = IncompleteDetails | DestinationTooShort

  /** The trip-creation request. `startsAt` and `endsAt` are the calendar
      date strings the request's timestamps are formatted from. */
  datatype CreateTripRequest = CreateTripRequest(
    destination: string,
    startsAt: Option<string>,
    endsAt: Option<string>,
    emailsToInvite: seq<string>)

  /** A trip as the server returns it. */
  datatype TripRecord = TripRecord(id: string, destination: string, startsAt: string, endsAt: string, isConfirmed: bool)

  /** The buttons of the "Confirmar viagem" dialog. */
  datatype Answer = Cancel | Confirm

  /** What pressing the form's main button led to. */
  datatype NextStep =
    | Rejected(alert: DetailsAlert)
    | MovedToGuests
    | Cancelled
    | Submitted(request: CreateTripRequest, tripId: Option<string>)

  /** Every field of the screen's state, as one value. */
  datatype FormState = FormState(
    isCreateTrip: bool,
    isGettingTrip: bool,
    stepForm: StepForm,
    selectedDates: DatesSelected,
    destination: string,
    emailToInvite: string,
    emailsToInvite: seq<string>,
    showModal: Modal)

  const InitialState := FormState(false, true, TripDetails, NoDatesSelected, "", "", [], NoModal)

  const TripPathPrefix := "/trip/"

  /** The guards of the main button, in their order: a destination that is
      blank once trimmed or a missing end of the range gives the first alert;
      only then is the length of the untrimmed destination, in UTF-16 code
      units, compared with 4. */
  function CheckDetails(destination: string, dates: DatesSelected): (r: Option<DetailsAlert>)
    ensures r == Some(IncompleteDetails) <==>
              AllWhitespace(destination) || dates.startsAt.None? || dates.endsAt.None?
    ensures r == Some(DestinationTooShort) <==>
              && !AllWhitespace(destination) && dates.startsAt.Some? && dates.endsAt.Some?
              && Utf16Length(destination) < 4
    ensures r.None? ==> Trim(destination) != [] && Utf16Length(destination) >= 4
  {
    if Utf16Length(Trim(destination)) == 0 || dates.startsAt.None? || dates.endsAt.None? then
      Some(IncompleteDetails)
    else if Utf16Length(destination) < 4 then
      Some(DestinationTooShort)
    else
      None
  }

  function DateString(d: Option<DateData>): Option<string> {
    match d
    case None => None
    case Some(day) => Some(day.dateString)
  }

  /** `tripStorage.get()` gave a truthy id: the call succeeded with an id
      that is present and not "". */
  predicate StoredIdTruthy(stored: Outcome<Option<string>>) {
    stored.Ok? && stored.value.Some? && stored.value.value != ""
  }

  class TripForm {
    /** `validateInput.email` */
    const isEmail: string -> bool
    /** `calendarUtils.orderStartsAtAndEndsAt` */
    const orderStartsAtAndEndsAt: (Option<DateData>, Option<DateData>, DateData) -> DatesSelected

    var isCreateTrip: bool
    var isGettingTrip: bool
    var stepForm: StepForm
    var selectedDates: DatesSelected
    var destination: string
    var emailToInvite: string
    var emailsToInvite: seq<string>
    var showModal: Modal

    function State(): FormState
      reads this
    {
      FormState(isCreateTrip, isGettingTrip, stepForm, selectedDates, destination,
                emailToInvite, emailsToInvite, showModal)
    }

    /** The invitee list holds distinct, validated, lower-case entries, and
        the input field only lower-case text. The validator refuses "" (which
        the duplicate test cannot detect). The calendar is shown only on the
        details step and the guests modal only on the guests step. */
    ghost predicate Valid()
      reads this
    {
      && (showModal == CalendarModal ==> stepForm == TripDetails)
      && (showModal == GuestsModal ==> stepForm == AddEmail)
      && !isEmail("")
      && IsLower(emailToInvite)
      && Invites.WellFormed(emailsToInvite, isEmail)
    }

    /** The request `createTrip` sends from the current fields: the
        destination and the invitee list as they are, and the date string of
        each end of the range that is set. */
    function Request(): CreateTripRequest
      reads this
    {
      CreateTripRequest(destination, DateString(selectedDates.startsAt),
                        DateString(selectedDates.endsAt), emailsToInvite)
    }

    /** The form as first rendered: loading, on the details step, empty. */
    constructor (isEmail: string -> bool,
                 orderStartsAtAndEndsAt: (Option<DateData>, Option<DateData>, DateData) -> DatesSelected)
      requires !isEmail("")
      ensures Valid() && State() == InitialState
      ensures this.isEmail == isEmail && this.orderStartsAtAndEndsAt == orderStartsAtAndEndsAt
    {
      this.isEmail := isEmail;
      this.orderStartsAtAndEndsAt := orderStartsAtAndEndsAt;
      isCreateTrip := false;
      isGettingTrip := true;
      stepForm := TripDetails;
      selectedDates := NoDatesSelected;
      destination := "";
      emailToInvite := "";
      emailsToInvite := [];
      showModal := NoModal;
    }

    /** The main button. Either guard failing leaves everything as it was;
        on the details step the form moves to the guests step and nothing is
        sent; on the guests step the dialog decides, and only "Confirmar"
        creates the trip. The button lies under the modals, so no modal is
        shown when it is pressed. */
    method HandleNextStepForm(answer: Answer, response: Outcome<string>) returns (r: NextStep)
      requires ShowsForm()
      requires Valid() && showModal == NoModal
      modifies this
      ensures Valid()
      ensures CheckDetails(old(destination), old(selectedDates)).Some? ==>
                r == Rejected(CheckDetails(old(destination), old(selectedDates)).value)
                && State() == old(State())
      ensures CheckDetails(old(destination), old(selectedDates)).None? && old(stepForm) == TripDetails ==>
                r == MovedToGuests && State() == old(State()).(stepForm := AddEmail)
      ensures CheckDetails(old(destination), old(selectedDates)).None? && old(stepForm) == AddEmail && answer == Cancel ==>
                r == Cancelled && State() == old(State())
      ensures CheckDetails(old(destination), old(selectedDates)).None? && old(stepForm) == AddEmail && answer == Confirm ==>
                && r == Submitted(old(Request()), if response.Ok? then Some(response.value) else None)
                && State() == old(State()).(isCreateTrip := response.Ok?)
    {
      var check := CheckDetails(destination, selectedDates);
      if check.Some? {
        return Rejected(check.value);
      }
      if stepForm == TripDetails {
        stepForm := AddEmail;
        return MovedToGuests;
      }
      if answer == Cancel {
        return Cancelled;
      }
      var request, tripId := CreateTrip(response);
      r := Submitted(request, tripId);
    }

    /** `createTrip`: raise the busy flag, send the details and the invitee
        list as they are; a failure lowers the flag again, a success leaves
        it raised and yields the new trip's id for the "Continuar" button. */
    method CreateTrip(response: Outcome<string>) returns (request: CreateTripRequest, tripId: Option<string>)
      requires Valid()
      modifies this
      ensures Valid()
      ensures request == old(Request())
      ensures request.destination == old(destination) && request.emailsToInvite == old(emailsToInvite)
      ensures tripId == if response.Ok? then Some(response.value) else None
      ensures State() == old(State()).(isCreateTrip := response.Ok?)
    {
      isCreateTrip := true;
      request := Request();
      match response
      case Ok(id) =>
        tripId := Some(id);
      case Failed =>
        tripId := None;
        isCreateTrip := false;
    }

    /** `saveTrip`: once the id is stored on the device, go to the trip's
        page; if storing fails, stay (an alert is shown). */
    method SaveTrip(tripId: string, saved: Outcome<()>) returns (navigateTo: Option<string>)
      ensures saved.Ok? <==> navigateTo.Some?
      ensures saved.Ok? ==> navigateTo.value == TripPathPrefix + tripId
    {
      if saved.Ok? {
        navigateTo := Some(TripPathPrefix + tripId);
      } else {
        navigateTo := None;
      }
    }

    /** `getTrip`, run once at start-up: without a stored id, or when either
        call fails, the loading flag drops and the form is shown; when the
        stored id resolves to a trip, the screen navigates to it. When the
        server answers with no trip, nothing changes and loading goes on. */
    method GetTrip(stored: Outcome<Option<string>>, fetched: Outcome<Option<TripRecord>>)
      returns (navigateTo: Option<string>)
      modifies this
      ensures old(Valid()) ==> Valid()
      ensures ShowsForm() <==> old(ShowsForm()) || !StoredIdTruthy(stored) || fetched.Failed?
      ensures !StoredIdTruthy(stored) ==>
                navigateTo.None? && State() == old(State()).(isGettingTrip := false)
      ensures StoredIdTruthy(stored) && fetched.Failed? ==>
                navigateTo.None? && State() == old(State()).(isGettingTrip := false)
      ensures StoredIdTruthy(stored) && fetched == Ok(None) ==>
                navigateTo.None? && State() == old(State())
      ensures StoredIdTruthy(stored) && fetched.Ok? && fetched.value.Some? ==>
                navigateTo == Some(TripPathPrefix + fetched.value.value.id) && State() == old(State())
    {
      navigateTo := None;
      if !StoredIdTruthy(stored) {
        isGettingTrip := false;
        return;
      }
      match fetched
      case Failed =>
        isGettingTrip := false;
      case Ok(trip) =>
        if trip.Some? {
          navigateTo := Some(TripPathPrefix + trip.value.id);
        }
    }

    /** The form is drawn only once loading is over; until then only the
        loading screen is, so none of the form's events can occur. */
    predicate ShowsForm()
      reads this
    {
      !isGettingTrip
    }

    /** Typing in the destination field, which is editable only on the
        details step. */
    method ChangeDestination(text: string)
      requires ShowsForm()
      requires Valid()
      modifies this
      ensures Valid()
      ensures State() == if old(stepForm) == TripDetails then old(State()).(destination := text) else old(State())
    {
      if stepForm == TripDetails {
        destination := text;
      }
    }

    /** Pressing the dates field opens the calendar, on the details step only. */
    method PressDatesField()
      requires ShowsForm()
      requires Valid()
      modifies this
      ensures Valid()
      ensures State() == if old(stepForm) == TripDetails then old(State()).(showModal := CalendarModal) else old(State())
    {
      if stepForm == TripDetails {
        showModal := CalendarModal;
      }
    }

    /** A calendar tap: the whole range is replaced by what the range rule
        makes of the old ends and the tapped day. The calendar is in its
        modal, so a tap happens only on the details step. */
    method HandleSelectDate(selectedDay: DateData)
      requires ShowsForm()
      requires Valid() && showModal == CalendarModal
      modifies this
      ensures Valid()
      ensures old(stepForm) == TripDetails
      ensures State() == old(State()).(selectedDates :=
                orderStartsAtAndEndsAt(old(selectedDates.startsAt), old(selectedDates.endsAt), selectedDay))
    {
      var dates := orderStartsAtAndEndsAt(selectedDates.startsAt, selectedDates.endsAt, selectedDay);
      selectedDates := dates;
    }

    /** "Confirmar datas", and closing either modal. */
    method CloseModal()
      requires ShowsForm()
      requires Valid()
      modifies this
      ensures Valid()
      ensures State() == old(State()).(showModal := NoModal)
    {
      showModal := NoModal;
    }

    /** "Alterar local/data": back to the details step, invitees kept. The
        button is drawn only on the guests step, under the modals. */
    method GoBackToDetails()
      requires ShowsForm()
      requires Valid() && stepForm == AddEmail && showModal == NoModal
      modifies this
      ensures Valid()
      ensures State() == old(State()).(stepForm := TripDetails)
      ensures emailsToInvite == old(emailsToInvite)
    {
      stepForm := TripDetails;
    }

    /** Pressing the guests field opens the guests modal. The field is drawn
        only on the guests step, under the modals. */
    method PressGuestsField()
      requires ShowsForm()
      requires Valid() && stepForm == AddEmail && showModal == NoModal
      modifies this
      ensures Valid()
      ensures State() == old(State()).(showModal := GuestsModal)
    {
      showModal := GuestsModal;
    }

    /** Typing in the e-mail field stores the text lower-cased. The field,
        like the invitee list, is in the guests modal, which is shown only on
        the guests step. */
    method ChangeEmailInput(text: string)
      requires ShowsForm()
      requires Valid() && showModal == GuestsModal
      modifies this
      ensures Valid()
      ensures old(stepForm) == AddEmail
      ensures State() == old(State()).(emailToInvite := ToLower(text))
    {
      emailToInvite := ToLower(text);
    }

    /** `handleAddEmail`: an input the validator refuses, or one already
        listed, is rejected with nothing changed; otherwise it is appended at
        the end of the list and the input field is cleared. */
    method HandleAddEmail() returns (r: Invites.AddOutcome)
      requires ShowsForm()
      requires Valid() && showModal == GuestsModal
      modifies this
      ensures Valid()
      ensures old(stepForm) == AddEmail
      ensures r == Invites.AddEmail(old(emailsToInvite), old(emailToInvite), isEmail)
      ensures r.Added? ==> State() == old(State()).(emailsToInvite := r.emails, emailToInvite := "")
      ensures !r.Added? ==> State() == old(State())
    {
      r := Invites.AddEmail(emailsToInvite, emailToInvite, isEmail);
      if r.Added? {
        Invites.AddEmailKeepsWellFormed(emailsToInvite, emailToInvite, isEmail);
        emailsToInvite := r.emails;
        emailToInvite := "";
      }
    }

    /** `handleRemoveEmail`: every entry equal to the argument goes. */
    method HandleRemoveEmail(emailToRemove: string)
      requires ShowsForm()
      requires Valid() && showModal == GuestsModal
      modifies this
      ensures Valid()
      ensures old(stepForm) == AddEmail
      ensures State() == old(State()).(emailsToInvite := Invites.RemoveAll(old(emailsToInvite), emailToRemove))
    {
      Invites.RemoveAllKeepsWellFormed(emailsToInvite, emailToRemove, isEmail);
      emailsToInvite := Invites.RemoveAll(emailsToInvite, emailToRemove);
    }
  }

  /** A destination of four characters passes even when two of them are
      blanks: the length test counts the untrimmed text. */
  lemma UntrimmedLengthIsCounted(starts: DateData, ends: DateData)
    ensures CheckDetails("  ab", DatesSelected(Some(starts), Some(ends), map[], "")).None?
  {
    var d := "  ab";
    assert d[2] == 'a' && !IsJsWhitespace(d[2]);
    Utf16LengthOfBmp(d);
  }

  /** "Paris" passes both guards once the range has both ends. */
  lemma CheckParis(range: DatesSelected)
    requires range.startsAt.Some? && range.endsAt.Some?
    ensures CheckDetails("Paris", range).None?
  {
    assert "Paris"[0] == 'P' && !IsJsWhitespace('P');
    Utf16LengthOfBmp("Paris");
  }

  lemma LowerCasedAddress()
    ensures ToLower("A@B.com") == "a@b.com"
  {
    var s := "A@B.com";
    var r := ToLower(s);
    assert |r| == 7;
    assert r[0] == LowerChar(s[0]) == 'a';
    assert r[1] == LowerChar(s[1]) == '@';
    assert r[2] == LowerChar(s[2]) == 'b';
    assert r[3] == LowerChar(s[3]) == '.';
    assert r[4] == LowerChar(s[4]) == 'c';
    assert r[5] == LowerChar(s[5]) == 'o';
    assert r[6] == LowerChar(s[6]) == 'm';
  }

  /** The creation flow end to end: nothing stored, so the form shows; the
      details are entered, the guests step is reached, "A@B.com" is typed and
      added (stored lower-cased), the same address is refused the second
      time, and "Confirmar" sends exactly the destination, the range the
      calendar produced from the two taps and the one invitee; once the
      returned id is stored the screen goes to that trip. */
  method CreateParisTrip(
    isEmail: string -> bool,
    order: (Option<DateData>, Option<DateData>, DateData) -> DatesSelected,
    first: DateData, last: DateData)
    returns (second: Invites.AddOutcome, request: CreateTripRequest, navigateTo: Option<string>)
    requires !isEmail("") && isEmail("a@b.com")
    requires order(order(None, None, first).startsAt, order(None, None, first).endsAt, last).startsAt.Some?
    requires order(order(None, None, first).startsAt, order(None, None, first).endsAt, last).endsAt.Some?
    ensures second == Invites.AlreadyAdded
    ensures var range := order(order(None, None, first).startsAt, order(None, None, first).endsAt, last);
            request == CreateTripRequest("Paris", DateString(range.startsAt), DateString(range.endsAt), ["a@b.com"])
    ensures navigateTo == Some(TripPathPrefix + "t1")
  {
    var form := new TripForm(isEmail, order);
    var resumed := form.GetTrip(Ok(None), Failed);
    assert form.ShowsForm() && resumed.None?;

    form.ChangeDestination("Paris");
    form.PressDatesField();
    form.HandleSelectDate(first);
    form.HandleSelectDate(last);
    form.CloseModal();
    var range := form.selectedDates;
    assert range == order(order(None, None, first).startsAt, order(None, None, first).endsAt, last);
    assert form.State() == FormState(false, false, TripDetails, range, "Paris", "", [], NoModal);
    CheckParis(range);
    var moved := form.HandleNextStepForm(Cancel, Failed);
    assert moved == MovedToGuests;
    assert form.State() == FormState(false, false, AddEmail, range, "Paris", "", [], NoModal);

    form.PressGuestsField();
    form.ChangeEmailInput("A@B.com");
    LowerCasedAddress();
    var added := form.HandleAddEmail();
    assert added == Invites.Added(["a@b.com"]);
    form.ChangeEmailInput("a@b.com");
    second := form.HandleAddEmail();
    form.CloseModal();
    assert form.State() == FormState(false, false, AddEmail, range, "Paris", "a@b.com", ["a@b.com"], NoModal);

    var submitted := form.HandleNextStepForm(Confirm, Ok("t1"));
    request := submitted.request;
    navigateTo := form.SaveTrip("t1", Ok(()));
  }
}
