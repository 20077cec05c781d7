/** The activities tab of a trip: the new-activity form and its modals, the
    hour field's sanitiser, and the reshaping of the server's per-day
    activity lists into the sections the list displays.

    The date library's parsing and formatting are opaque functions (a
    `DateFormat`); the server's answers are arguments of the handlers. */
module TripActivities {
  import opened Shared
  import opened Strings

  datatype Modal = NoModal | CalendarModal | NewActivityModal

  /** An activity as the server lists it. */
  datatype ActivityRecord = ActivityRecord(id: string, title: string, occursAt: string)

  /** One day of the server's answer: its date and that day's activities. */
  datatype DayActivities = DayActivities(date: string, activities: seq<ActivityRecord>)

  /** A row of the section list. */
  datatype ActivityItem = ActivityItem(id: string, title: string, hour: string, isBefore: bool)

  datatype SectionTitle = SectionTitle(dayNumber: int, dayName: string)

  /** One day of the section list. */
  datatype Section = Section(title: SectionTitle, data: seq<ActivityItem>)

  /** The date-library calls of the mapping: the day of the month, the
      weekday's name, the clock time of an instant, and whether an instant
      lies before the present. */
  datatype DateFormat = DateFormat(
    dayOfMonth: string -> int,
    weekdayName: string -> string,
    clockTime: string -> string,
    isBeforeNow: string -> bool)

  const FeiraSuffix := "-feira"

  /** The request sent to create an activity. The server's `occurs_at` is
      the date plus the hour, formatted by the date library from these two
      fields. */
  datatype CreateActivityRequest = CreateActivityRequest(tripId: string, title: string, date: string, hour: string)

  // ------------------------------------------------------- section mapping

  /** One row: the activity's id and title as they are, and its hour and
      past/future flag computed from its instant alone. */
  function ToItem(activity: ActivityRecord, fmt: DateFormat): ActivityItem {
    ActivityItem(activity.id, activity.title, fmt.clockTime(activity.occursAt), fmt.isBeforeNow(activity.occursAt))
  }

  /** The inner `map`: one row per activity, in the server's order. */
  function ToItems(activities: seq<ActivityRecord>, fmt: DateFormat): (items: seq<ActivityItem>)
    ensures |items| == |activities|
    ensures forall k :: 0 <= k < |activities| ==> items[k] == ToItem(activities[k], fmt)
  {
    if activities == [] then [] else [ToItem(activities[0], fmt)] + ToItems(activities[1..], fmt)
  }

  /** One day's section: its rows carry that day's activity ids and titles
      in the same order, and its weekday name loses its first "-feira". */
  function ToSection(day: DayActivities, fmt: DateFormat): (section: Section)
    ensures |section.data| == |day.activities|
    ensures forall k :: 0 <= k < |day.activities| ==>
              section.data[k].id == day.activities[k].id && section.data[k].title == day.activities[k].title
    ensures section.title.dayName == ReplaceFirst(fmt.weekdayName(day.date), FeiraSuffix, "")
  {
    Section(SectionTitle(fmt.dayOfMonth(day.date), ReplaceFirst(fmt.weekdayName(day.date), FeiraSuffix, "")),
            ToItems(day.activities, fmt))
  }

  /** The outer `map`: one section per server day, in the same order. */
  function ToSections(days: seq<DayActivities>, fmt: DateFormat): (sections: seq<Section>)
    ensures |sections| == |days|
    ensures forall i :: 0 <= i < |days| ==> sections[i] == ToSection(days[i], fmt)
  {
    if days == [] then [] else [ToSection(days[0], fmt)] + ToSections(days[1..], fmt)
  }

  /** Mapping works day by day: the mapping of two runs of days is the two
      mappings one after the other. */
  lemma {:induction false} ToSectionsConcat(a: seq<DayActivities>, b: seq<DayActivities>, fmt: DateFormat)
    ensures ToSections(a + b, fmt) == ToSections(a, fmt) + ToSections(b, fmt)
  {
    if a == [] {
      assert a + b == b;
    } else {
      assert (a + b)[1..] == a[1..] + b;
      ToSectionsConcat(a[1..], b, fmt);
    }
  }

  function ActivityCount(days: seq<DayActivities>): nat {
    if days == [] then 0 else |days[0].activities| + ActivityCount(days[1..])
  }

  function RowCount(sections: seq<Section>): nat {
    if sections == [] then 0 else |sections[0].data| + RowCount(sections[1..])
  }

  /** The list shows exactly as many rows as the server sent activities. */
  lemma {:induction false} RowCountIsActivityCount(days: seq<DayActivities>, fmt: DateFormat)
    ensures RowCount(ToSections(days, fmt)) == ActivityCount(days)
  {
    if days != [] {
      var sections := ToSections(days, fmt);
      assert sections[1..] == ToSections(days[1..], fmt);
      RowCountIsActivityCount(days[1..], fmt);
    }
  }

  /** "segunda-feira" and the other weekdays named with "-feira" lose that
      suffix: for a name `w + "-feira"` whose first part has no hyphen, the
      first match is the suffix itself. */
  lemma FeiraSuffixRemoved(w: string)
    requires '-' !in w
    ensures ReplaceFirst(w + FeiraSuffix, FeiraSuffix, "") == w
  {
    var s := w + FeiraSuffix;
    assert OccursAt(s, FeiraSuffix, |w|) by { assert s[|w|..|w| + |FeiraSuffix|] == FeiraSuffix; }
    forall j | 0 <= j < |w| ensures !OccursAt(s, FeiraSuffix, j) {
      assert s[j] == w[j];
    }
    assert FirstOccurrence(s, FeiraSuffix, |w|);
    assert s[..|w|] == w;
    assert s[|w| + |FeiraSuffix|..] == [];
  }

  /** A weekday name without a hyphen ("sábado", "domingo") is kept. */
  lemma NameWithoutHyphenKept(w: string)
    requires '-' !in w
    ensures ReplaceFirst(w, FeiraSuffix, "") == w
  {
    forall j | 0 <= j < |w| ensures !OccursAt(w, FeiraSuffix, j) {
      assert w[j] != '-' && FeiraSuffix[0] == '-';
    }
    assert forall j :: !OccursAt(w, FeiraSuffix, j);
  }

  // --------------------------------------------------------- hour field

  /** The hour field's handler: `text.replace(".", "").replace(",", "")`.
      It shrinks the text by at most two characters, and text with neither
      character comes back as it is. */
  function SanitizeHour(text: string): (r: string)
    ensures |text| - 2 <= |r| <= |text|
    ensures '.' !in text && ',' !in text ==> r == text
  {
    var mid := ReplaceFirst(text, ".", "");
    DeletedOnce(text, '.');
    DeletedOnce(mid, ',');
    assert ',' in mid <==> ',' in text by {
      assert multiset(mid)[','] == multiset(text)[','];
    }
    ReplaceFirst(mid, ",", "")
  }

  /** The sanitiser deletes the first "." and then the first "," of what is
      left, and nothing else; every other character keeps its order. */
  lemma SanitizeHourKeepsOrder(text: string)
    ensures var mid := ReplaceFirst(text, ".", "");
            '.' in text ==> exists i :: 0 <= i < |text| && text[i] == '.' && '.' !in text[..i]
                                        && mid == text[..i] + text[i + 1..]
    ensures '.' !in text ==> ReplaceFirst(text, ".", "") == text
    ensures var mid := ReplaceFirst(text, ".", "");
            ',' in mid ==> exists j :: 0 <= j < |mid| && mid[j] == ',' && ',' !in mid[..j]
                                      && SanitizeHour(text) == mid[..j] + mid[j + 1..]
    ensures var mid := ReplaceFirst(text, ".", "");
            ',' !in mid ==> SanitizeHour(text) == mid
  {
    var mid := ReplaceFirst(text, ".", "");
    if '.' in text {
      var i := FirstCharDeleted(text, '.');
      assert 0 <= i < |text| && text[i] == '.' && '.' !in text[..i] && mid == text[..i] + text[i + 1..];
    } else {
      NoCharKept(text, '.');
    }
    if ',' in mid {
      var j := FirstCharDeleted(mid, ',');
      assert 0 <= j < |mid| && mid[j] == ',' && ',' !in mid[..j] && SanitizeHour(text) == mid[..j] + mid[j + 1..];
    } else {
      NoCharKept(mid, ',');
    }
  }

  /** What the sanitiser removes, counted: the characters left plus the
      "." and the "," it deleted (when there was one) are the characters
      typed, so exactly one "." goes when there was one. */
  lemma SanitizeHourDeletes(text: string)
    ensures multiset(SanitizeHour(text))
              + (if '.' in text then multiset{'.'} else multiset{})
              + (if ',' in text then multiset{','} else multiset{})
            == multiset(text)
    ensures '.' in text ==> multiset(SanitizeHour(text))['.'] == multiset(text)['.'] - 1
  {
    var mid := ReplaceFirst(text, ".", "");
    DeletedOnce(text, '.');
    DeletedOnce(mid, ',');
    assert ',' in mid <==> ',' in text by {
      assert multiset(mid)[','] == multiset(text)[','];
    }
  }

  // ---------------------------------------------------------- the screen

  datatype ActivitiesState = ActivitiesState(
    showModal: Modal,
    isCreateActivity: bool,
    isLoadingActivity: bool,
    activityTitle: string,
    activityDate: string,
    activityHour: string,
    tripActivities: seq<Section>)

  const InitialState := ActivitiesState(NoModal, false, true, "", "", "", [])

  class ActivitiesTab {
    const tripId: string
    const fmt: DateFormat

    var showModal: Modal
    var isCreateActivity: bool
    var isLoadingActivity: bool
    var activityTitle: string
    var activityDate: string
    var activityHour: string
    var tripActivities: seq<Section>

    function State(): ActivitiesState
      reads this
    {
      ActivitiesState(showModal, isCreateActivity, isLoadingActivity, activityTitle,
                      activityDate, activityHour, tripActivities)
    }

    constructor (tripId: string, fmt: DateFormat)
      ensures State() == InitialState
      ensures this.tripId == tripId && this.fmt == fmt
    {
      this.tripId := tripId;
      this.fmt := fmt;
      showModal := NoModal;
      isCreateActivity := false;
      isLoadingActivity := true;
      activityTitle := "";
      activityDate := "";
      activityHour := "";
      tripActivities := [];
    }

    /** `ressetNewActivity`: the three fields emptied and the modal closed;
        nothing else changes. */
    method ResetNewActivity()
      modifies this
      ensures State() == old(State()).(activityTitle := "", activityDate := "", activityHour := "",
                                       showModal := NoModal)
    {
      activityTitle := "";
      activityDate := "";
      activityHour := "";
      showModal := NoModal;
    }

    /** `getTripActivities`: a successful fetch replaces the list by the
        sections of the answer, a failed one keeps it; loading ends either way. */
    method GetTripActivities(fetched: Outcome<seq<DayActivities>>)
      modifies this
      ensures State() == old(State()).(
                tripActivities := if fetched.Ok? then ToSections(fetched.value, fmt) else old(tripActivities),
                isLoadingActivity := false)
    {
      if fetched.Ok? {
        tripActivities := ToSections(fetched.value, fmt);
      }
      isLoadingActivity := false;
    }

    /** `handleCreateTripActivity`. With any of the three fields empty nothing
        is sent and the fields stay; otherwise the request is sent, and only a
        success reloads the list and then resets the form. The busy flag is
        down when the handler ends, on every path. */
    method HandleCreateTripActivity(created: Outcome<()>, fetched: Outcome<seq<DayActivities>>)
      returns (request: Option<CreateActivityRequest>)
      modifies this
      ensures !isCreateActivity
      ensures (old(activityTitle) == "" || old(activityDate) == "" || old(activityHour) == "") ==>
                request.None? && State() == old(State()).(isCreateActivity := false)
      ensures (old(activityTitle) != "" && old(activityDate) != "" && old(activityHour) != "") ==>
                request == Some(CreateActivityRequest(tripId, old(activityTitle), old(activityDate), old(activityHour)))
      ensures (old(activityTitle) != "" && old(activityDate) != "" && old(activityHour) != "") && created.Failed? ==>
                State() == old(State()).(isCreateActivity := false)
      ensures (old(activityTitle) != "" && old(activityDate) != "" && old(activityHour) != "") && created.Ok? ==>
                State() == old(State()).(
                  isCreateActivity := false,
                  isLoadingActivity := false,
                  tripActivities := if fetched.Ok? then ToSections(fetched.value, fmt) else old(tripActivities),
                  activityTitle := "", activityDate := "", activityHour := "",
                  showModal := NoModal)
    {
      if activityTitle == "" || activityDate == "" || activityHour == "" {
        request := None;
      } else {
        isCreateActivity := true;
        request := Some(CreateActivityRequest(tripId, activityTitle, activityDate, activityHour));
        if created.Ok? {
          GetTripActivities(fetched);
          ResetNewActivity();
        }
      }
      isCreateActivity := false;
    }

    /** "Nova atividade" opens the form. */
    method OpenNewActivity()
      modifies this
      ensures State() == old(State()).(showModal := NewActivityModal)
    {
      showModal := NewActivityModal;
    }

    /** Closing either modal. */
    method CloseModal()
      modifies this
      ensures State() == old(State()).(showModal := NoModal)
    {
      showModal := NoModal;
    }

    method ChangeTitle(text: string)
      modifies this
      ensures State() == old(State()).(activityTitle := text)
    {
      activityTitle := text;
    }

    /** Text typed into the date field lands in the title (its change
        handler is the title's; the field shows no keyboard). */
    method ChangeDateFieldText(text: string)
      modifies this
      ensures State() == old(State()).(activityTitle := text)
    {
      activityTitle := text;
    }

    /** Pressing the date field opens the calendar. */
    method PressDateField()
      modifies this
      ensures State() == old(State()).(showModal := CalendarModal)
    {
      showModal := CalendarModal;
    }

    /** Typing in the hour field stores the sanitised text. */
    method ChangeHour(text: string)
      modifies this
      ensures State() == old(State()).(activityHour := SanitizeHour(text))
    {
      activityHour := SanitizeHour(text);
    }

    /** Picking a calendar day stores its date string. */
    method PickDay(day: DateData)
      modifies this
      ensures State() == old(State()).(activityDate := day.dateString)
    {
      activityDate := day.dateString;
    }

    /** The calendar's "Confirmar" returns to the new-activity form. */
    method ConfirmDate()
      modifies this
      ensures State() == old(State()).(showModal := NewActivityModal)
    {
      showModal := NewActivityModal;
    }

    /** The calendar marks the chosen day, and only that day. */
    function MarkedDates(): (marked: map<string, Marking>)
      reads this
      ensures marked.Keys == {activityDate}
      ensures marked[activityDate].selected
    {
      map[activityDate := Marking(true, None, None)]
    }
  }
}
