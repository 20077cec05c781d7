/** The details tab of a trip: the trip's links, with the form that adds
    one, and its participants. The URL validator is a function given to the
    constructor; the servers' answers are arguments of the handlers. */
module TripDetails {
  import opened Shared
  import opened Strings

  datatype LinkRecord = LinkRecord(id: string, title: string, url: string)

  datatype ParticipantRecord = ParticipantRecord(id: string, name: Option<string>, email: string, isConfirmed: bool)

  datatype CreateLinkRequest = CreateLinkRequest(tripId: string, title: string, url: string)

  /** What the two guards of the new-link form make of its fields. */
  datatype LinkDraft = TitleMissing | UrlInvalid | Ready(request: CreateLinkRequest)

  /** The guards of `handleCreateTripLink`, in their order, and the request
      built when both pass. A title that is blank once trimmed is refused
      before the URL is looked at; then the trimmed URL must satisfy the
      validator; the request carries both fields trimmed. */
  function DraftLink(tripId: string, title: string, url: string, isUrl: string -> bool): (r: LinkDraft)
    ensures r == TitleMissing <==> AllWhitespace(title)
    ensures r == UrlInvalid <==> !AllWhitespace(title) && !isUrl(Trim(url))
    ensures r.Ready? ==> r.request == CreateLinkRequest(tripId, Trim(title), Trim(url))
    ensures r.Ready? ==> r.request.title != [] && isUrl(r.request.url)
    ensures r.Ready? ==> !IsJsWhitespace(r.request.title[0]) && !IsJsWhitespace(r.request.title[|r.request.title| - 1])
  {
    if Trim(title) == "" then TitleMissing
    else if !isUrl(Trim(url)) then UrlInvalid
    else Ready(CreateLinkRequest(tripId, Trim(title), Trim(url)))
  }

  /** Drafting again from the request's own fields gives the same request:
      its fields are already trimmed. */
  lemma DraftLinkIdempotent(tripId: string, title: string, url: string, isUrl: string -> bool)
    requires DraftLink(tripId, title, url, isUrl).Ready?
    ensures var q := DraftLink(tripId, title, url, isUrl).request;
            DraftLink(tripId, q.title, q.url, isUrl) == Ready(q)
  {
    TrimIdempotent(title);
    TrimIdempotent(url);
  }

  datatype DetailsState = DetailsState(
    showNewLinkModal: bool,
    isCreateLinkTrip: bool,
    links: seq<LinkRecord>,
    participants: seq<ParticipantRecord>,
    linkTitle: string,
    linkURL: string)

  const InitialState := DetailsState(false, false, [], [], "", "")

  class DetailsTab {
    const tripId: string
    /** `validateInput.url` */
    const isUrl: string -> bool

    var showNewLinkModal: bool
    var isCreateLinkTrip: bool
    var links: seq<LinkRecord>
    var participants: seq<ParticipantRecord>
    var linkTitle: string
    var linkURL: string

    function State(): DetailsState
      reads this
    {
      DetailsState(showNewLinkModal, isCreateLinkTrip, links, participants, linkTitle, linkURL)
    }

    constructor (tripId: string, isUrl: string -> bool)
      ensures State() == InitialState
      ensures this.tripId == tripId && this.isUrl == isUrl
    {
      this.tripId := tripId;
      this.isUrl := isUrl;
      showNewLinkModal := false;
      isCreateLinkTrip := false;
      links := [];
      participants := [];
      linkTitle := "";
      linkURL := "";
    }

    /** `resetNewLinkFields`: both fields emptied and the modal closed. */
    method ResetNewLinkFields()
      modifies this
      ensures State() == old(State()).(linkTitle := "", linkURL := "", showNewLinkModal := false)
    {
      linkTitle := "";
      linkURL := "";
      showNewLinkModal := false;
    }

    /** `getTripLinks`: a successful fetch replaces the whole list, a failed
        one keeps it. */
    method GetTripLinks(fetched: Outcome<seq<LinkRecord>>)
      modifies this
      ensures State() == old(State()).(links := if fetched.Ok? then fetched.value else old(links))
    {
      if fetched.Ok? {
        links := fetched.value;
      }
    }

    /** `getTripParticipants`: as for the links. */
    method GetTripParticipants(fetched: Outcome<seq<ParticipantRecord>>)
      modifies this
      ensures State() == old(State()).(participants := if fetched.Ok? then fetched.value else old(participants))
    {
      if fetched.Ok? {
        participants := fetched.value;
      }
    }

    /** `handleCreateTripLink`. A refused draft sends nothing and changes no
        field; a ready one is sent, and only a success clears the form,
        closes the modal and then reloads the links. The busy flag is down
        when the handler ends, on every path. */
    method HandleCreateTripLink(created: Outcome<()>, fetched: Outcome<seq<LinkRecord>>)
      returns (r: LinkDraft)
      modifies this
      ensures r == DraftLink(tripId, old(linkTitle), old(linkURL), isUrl)
      ensures !isCreateLinkTrip
      ensures (!r.Ready? || created.Failed?) ==> State() == old(State()).(isCreateLinkTrip := false)
      ensures r.Ready? && created.Ok? ==>
                State() == old(State()).(
                  isCreateLinkTrip := false,
                  linkTitle := "", linkURL := "", showNewLinkModal := false,
                  links := if fetched.Ok? then fetched.value else old(links))
    {
      r := DraftLink(tripId, linkTitle, linkURL, isUrl);
      if r.Ready? {
        isCreateLinkTrip := true;
        if created.Ok? {
          ResetNewLinkFields();
          GetTripLinks(fetched);
        }
      }
      isCreateLinkTrip := false;
    }

    /** "Cadastrar novo link" opens the modal. */
    method OpenNewLinkModal()
      modifies this
      ensures State() == old(State()).(showNewLinkModal := true)
    {
      showNewLinkModal := true;
    }

    method CloseNewLinkModal()
      modifies this
      ensures State() == old(State()).(showNewLinkModal := false)
    {
      showNewLinkModal := false;
    }

    method ChangeLinkTitle(text: string)
      modifies this
      ensures State() == old(State()).(linkTitle := text)
    {
      linkTitle := text;
    }

    method ChangeLinkUrl(text: string)
      modifies this
      ensures State() == old(State()).(linkURL := text)
    {
      linkURL := text;
    }
  }
}
