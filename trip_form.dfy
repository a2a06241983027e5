/**
 * The trip-creation screen: a two-step form (trip details, then guest e-mails) whose
 * component state is updated by its event handlers, with the trip service, the local trip
 * store, the router and the alert dialogs reduced to outcomes passed in by the caller and
 * to a record of the effects the screen produces.
 */
module TripForm {
  import opened Wrappers
  import opened JsStrings
  import opened GuestList

  /** The steps of the form: `TRIP_DETAILS` (1) and `ADD_EMAIL` (2). */
  datatype StepForm = TripDetailsStep | AddEmailStep

  /** A day picked on the calendar widget. */
  datatype DateData = DateData(year: int, month: int, day: int, timestamp: int, dateString: JsString)

  /** The selected range as far as this screen reads it: either end may be missing. */
  datatype DatesSelected = DatesSelected(startsAt: Option<DateData>, endsAt: Option<DateData>)

  /** The alerts the screen shows. */
  datatype Notice =
    | MissingTripDetails
    | DestinationTooShort
    | InvalidEmail
    | EmailAlreadyAdded
    | ConfirmTrip
    | TripCreated
    | TripIdNotSaved

  function Title(n: Notice): string {
    match n
    case MissingTripDetails | DestinationTooShort => "Detalhes da viagem"
    case InvalidEmail | EmailAlreadyAdded => "Convidado"
    case ConfirmTrip | TripCreated => "Nova viagem"
    case TripIdNotSaved => "Salvar viagem"
  }

  function Message(n: Notice): string {
    match n
    case MissingTripDetails => "Preencha todos as informações da viagem para seguir."
    case DestinationTooShort => "O destino deve ter pelo menos 4 caracteres."
    case InvalidEmail => "E-mail inválido!"
    case EmailAlreadyAdded => "E-mail já foi adicionado!"
    case ConfirmTrip => "Confirmar viagem?"
    case TripCreated => "Viagem criada com sucesso!"
    case TripIdNotSaved => "Não foi possível salvar o id da viagem no dispositivo."
  }

  /** The body the screen hands to the trip service's `create`. */
  datatype TripCreate = TripCreate(
    destination: JsString,
    startsAt: Option<DateData>,
    endsAt: Option<DateData>,
    emailsToInvite: seq<JsString>)

  /** A trip as the trip service's `getById` returns it. */
  datatype TripDetails = TripDetails(
    id: JsString,
    destination: JsString,
    startsAt: JsString,
    endsAt: JsString,
    isConfirmed: bool)

  /** The answer to the "Confirmar viagem?" prompt: "Sim" or "Não". */
  datatype Choice = Yes | No

  /** How the trip service's `create` settles: a new trip id, or a thrown error. */
  datatype CreateReply = Created(tripId: JsString) | CreateThrew

  /** How the local trip store's `get` settles: a value that may be missing, or a thrown error. */
  datatype StorageRead = Read(value: Option<JsString>) | ReadThrew

  /** How the trip service's `getById` settles: a value that may be missing, or a thrown error. */
  datatype FetchReply = Fetched(trip: Option<TripDetails>) | FetchThrew

  /** What the screen does to the world, in order. */
  datatype Effect =
    | Alert(notice: Notice)
      /** A create request, with the value of `isCreatingTrip` while it is outstanding. */
    | CreateRequest(body: TripCreate, whileCreating: bool)
    | StoreTripId(tripId: JsString)
    | Navigate(path: JsString)
    | Log

  /** What one press of the form's main button led to. */
  datatype NextStepOutcome =
    | Rejected(notice: Notice)
    | Advanced
    | Declined
      /** The trip was submitted; the id, if any, is the one the success alert's button saves. */
    | CreateAttempted(offered: Option<JsString>)

  /** Where `getTrip` leaves the screen. */
  datatype Loading = ShowForm | OpenTrip(path: JsString) | StillLoading

  /** The component's state slots, as one value. */
  datatype FormState = FormState(
    isCreatingTrip: bool,
    isGettingTrip: bool,
    stepForm: StepForm,
    selectedDates: DatesSelected,
    destination: JsString,
    emailToInvite: JsString,
    emailsToInvite: seq<JsString>)

  /**
   * What the two checks of the main button decide, in the order they run: a destination
   * that is all white space, or a missing start or end date, is reported first; otherwise a
   * destination shorter than 4 code units is reported; otherwise the form may go on.
   */
  function DetailsRejection(destination: JsString, dates: DatesSelected): Option<Notice> {
    if Blank(destination) || dates.startsAt.None? || dates.endsAt.None? then
      Some(MissingTripDetails)
    else if |destination| < 4 then
      Some(DestinationTooShort)
    else
      None
  }

  /**
   * Because the length is measured before trimming, three blanks and one letter pass both
   * checks although the trimmed destination is one code unit long.
   */
  lemma PaddedDestinationPasses(w: CodeUnit, c: CodeUnit, dates: DatesSelected)
    requires IsWhiteSpace(w) && !IsWhiteSpace(c)
    requires dates.startsAt.Some? && dates.endsAt.Some?
    ensures DetailsRejection([w, w, w, c], dates) == None
    ensures Trim([w, w, w, c]) == [c]
  {
    var s := [w, w, w, c];
    assert s[3] == c;
  }

  /** The truthy id read from the local store, if any. */
  function StoredId(read: StorageRead): Option<JsString> {
    if read.Read? && Truthy(read.value) then read.value else None
  }

  /**
   * Where `getTrip` leaves the screen: the form once it knows there is nothing to open
   * (no usable stored id, or a thrown error), the trip when the lookup finds it, and the
   * loading indicator when the lookup settles without a trip.
   */
  function LoadingOutcome(read: StorageRead, fetch: FetchReply): (r: Loading)
    ensures r == ShowForm <==> StoredId(read).None? || fetch.FetchThrew?
    ensures r == StillLoading <==> StoredId(read).Some? && fetch == Fetched(None)
    ensures r.OpenTrip? <==> StoredId(read).Some? && fetch.Fetched? && fetch.trip.Some?
    ensures r.OpenTrip? ==> r.path == Literal("trip/") + StoredId(read).value
  {
    match StoredId(read)
    case None => ShowForm
    case Some(id) =>
      match fetch
      case FetchThrew => ShowForm
      case Fetched(trip) => if trip.Some? then OpenTrip(Literal("trip/") + id) else StillLoading
  }

  /** The screen component `Index`. */
  class IndexScreen {
    var isCreatingTrip: bool
    var isGettingTrip: bool
    var stepForm: StepForm
    var selectedDates: DatesSelected
    var destination: JsString
    var emailToInvite: JsString
    var emailsToInvite: seq<JsString>
    /** Alerts, requests, navigation and log lines, in the order the screen issued them. */
    ghost var effects: seq<Effect>

    function State(): FormState
      reads this
    {
      FormState(isCreatingTrip, isGettingTrip, stepForm, selectedDates,
                destination, emailToInvite, emailsToInvite)
    }

    /** The initial values of the state slots: loading, on the first step, nothing entered. */
    constructor ()
      ensures State() == FormState(false, true, TripDetailsStep, DatesSelected(None, None), [], [], [])
      ensures effects == []
    {
      isCreatingTrip := false;
      isGettingTrip := true;
      stepForm := TripDetailsStep;
      selectedDates := DatesSelected(None, None);
      destination := [];
      emailToInvite := [];
      emailsToInvite := [];
      effects := [];
    }

    /** Typing in the destination field, which is editable only on the first step. */
    method ChangeDestination(text: JsString)
      modifies this
      ensures old(stepForm) == TripDetailsStep ==> State() == old(State()).(destination := text)
      ensures old(stepForm) == AddEmailStep ==> State() == old(State())
      ensures effects == old(effects)
    {
      if stepForm == TripDetailsStep {
        destination := text;
      }
    }

    /**
     * A day pressed on the calendar. `order` is the calendar helper that combines the current
     * range with the pressed day; its rules are not part of this model.
     */
    method SelectDate(order: (Option<DateData>, Option<DateData>, DateData) -> DatesSelected, day: DateData)
      modifies this
      ensures State() == old(State()).(selectedDates := order(old(selectedDates.startsAt), old(selectedDates.endsAt), day))
      ensures effects == old(effects)
    {
      selectedDates := order(selectedDates.startsAt, selectedDates.endsAt, day);
    }

    /** Typing in the guest e-mail field. */
    method ChangeEmailToInvite(text: JsString)
      modifies this
      ensures State() == old(State()).(emailToInvite := text)
      ensures effects == old(effects)
    {
      emailToInvite := text;
    }

    /**
     * The two checks as the main button runs them: the first on the trimmed destination and
     * the dates, the second on the untrimmed destination.
     */
    method CheckTripDetails() returns (rejection: Option<Notice>)
      ensures rejection == DetailsRejection(destination, selectedDates)
    {
      if |Trim(destination)| == 0 || selectedDates.startsAt.None? || selectedDates.endsAt.None? {
        rejection := Some(MissingTripDetails);
      } else if |destination| < 4 {
        rejection := Some(DestinationTooShort);
      } else {
        rejection := None;
      }
    }

    /**
     * The main button. Both checks run first, in order; on the first step a pass moves to the
     * second, on the second a pass asks for confirmation and "Sim" submits the trip.
     * `choice` is the answer to that prompt and `reply` how the submission settles.
     */
    method HandleNextStepForm(choice: Choice, reply: CreateReply) returns (outcome: NextStepOutcome)
      modifies this
      ensures var rejection := DetailsRejection(old(destination), old(selectedDates));
        if rejection.Some? then
          && outcome == Rejected(rejection.value)
          && State() == old(State())
          && effects == old(effects) + [Alert(rejection.value)]
        else if old(stepForm) == TripDetailsStep then
          && outcome == Advanced
          && State() == old(State()).(stepForm := AddEmailStep)
          && effects == old(effects)
        else
          && outcome == PromptOutcome(choice, reply)
          && State() == old(State()).(isCreatingTrip := if choice == Yes then false else old(isCreatingTrip))
          && effects == old(effects) + PromptEffects(old(State()), choice, reply)
    {
      var rejection := CheckTripDetails();
      if rejection.Some? {
        effects := effects + [Alert(rejection.value)];
        outcome := Rejected(rejection.value);
      } else if stepForm == TripDetailsStep {
        stepForm := AddEmailStep;
        outcome := Advanced;
      } else {
        outcome := ConfirmTripPrompt(choice, reply);
      }
    }

    /**
     * The "Confirmar viagem?" prompt of the second step: "Não" only closes it, "Sim" submits
     * the trip.
     */
    method ConfirmTripPrompt(choice: Choice, reply: CreateReply) returns (outcome: NextStepOutcome)
      modifies this
      ensures outcome == PromptOutcome(choice, reply)
      ensures choice == No ==> State() == old(State())
      ensures choice == Yes ==> State() == old(State()).(isCreatingTrip := false)
      ensures effects == old(effects) + PromptEffects(old(State()), choice, reply)
    {
      effects := effects + [Alert(ConfirmTrip)];
      if choice == No {
        outcome := Declined;
      } else {
        var offered := CreateTrip(reply);
        outcome := CreateAttempted(offered);
      }
    }

    /** The "Alterar Local/Data" button of the second step: back to the first step. */
    method ChangeLocationOrDate()
      modifies this
      ensures State() == old(State()).(stepForm := TripDetailsStep)
      ensures effects == old(effects)
    {
      stepForm := TripDetailsStep;
    }

    /**
     * Adds the typed e-mail to the guest list when `isEmail` (the e-mail validator, whose rules
     * are not part of this model) accepts it and the duplicate test does not find it.
     */
    method HandleAddEmail(isEmail: JsString -> bool)
      modifies this
      ensures !isEmail(old(emailToInvite)) ==>
        State() == old(State()) && effects == old(effects) + [Alert(InvalidEmail)]
      ensures isEmail(old(emailToInvite)) && AlreadyAdded(old(emailsToInvite), old(emailToInvite)) ==>
        State() == old(State()) && effects == old(effects) + [Alert(EmailAlreadyAdded)]
      ensures isEmail(old(emailToInvite)) && !AlreadyAdded(old(emailsToInvite), old(emailToInvite)) ==>
        && State() == old(State()).(emailsToInvite := old(emailsToInvite) + [old(emailToInvite)], emailToInvite := [])
        && effects == old(effects)
      ensures NoDuplicates(old(emailsToInvite)) && old(emailToInvite) != [] ==> NoDuplicates(emailsToInvite)
    {
      if !isEmail(emailToInvite) {
        effects := effects + [Alert(InvalidEmail)];
        return;
      }
      var emailAlreadyExists := Find(emailsToInvite, emailToInvite);
      if Truthy(emailAlreadyExists) {
        effects := effects + [Alert(EmailAlreadyAdded)];
        return;
      }
      if NoDuplicates(emailsToInvite) && emailToInvite != [] {
        AppendKeepsNoDuplicates(emailsToInvite, emailToInvite);
      }
      emailsToInvite := emailsToInvite + [emailToInvite];
      emailToInvite := [];
    }

    /** The remove button of a guest: keeps every other entry, in order. */
    method HandleRemoveEmail(emailToRemove: JsString)
      modifies this
      ensures State() == old(State()).(emailsToInvite := RemoveAll(old(emailsToInvite), emailToRemove))
      ensures emailToRemove !in emailsToInvite
      ensures NoDuplicates(old(emailsToInvite)) ==> NoDuplicates(emailsToInvite)
      ensures effects == old(effects)
    {
      if NoDuplicates(emailsToInvite) {
        RemoveAllKeepsNoDuplicates(emailsToInvite, emailToRemove);
      }
      emailsToInvite := RemoveAll(emailsToInvite, emailToRemove);
    }

    /**
     * Submits the trip with the busy flag raised and lowers it again however the request
     * settles. On success the screen announces the trip and returns the id that the
     * announcement's button passes to `SaveTrip`; a thrown error is only logged.
     */
    method CreateTrip(reply: CreateReply) returns (offered: Option<JsString>)
      modifies this
      ensures State() == old(State()).(isCreatingTrip := false)
      ensures effects == old(effects) + CreateEffects(old(State()), reply)
      ensures offered == if reply.Created? then Some(reply.tripId) else None
    {
      isCreatingTrip := true;
      effects := effects + [CreateRequest(TripCreate(destination, selectedDates.startsAt,
                                                     selectedDates.endsAt, emailsToInvite),
                                          isCreatingTrip)];
      match reply {
        case Created(tripId) =>
          effects := effects + [Alert(TripCreated)];
          offered := Some(tripId);
        case CreateThrew =>
          effects := effects + [Log];
          offered := None;
      }
      isCreatingTrip := false;
    }

    /**
     * Stores the new trip's id on the device and opens the trip; when the store throws, the
     * screen warns that the id was not saved and logs the error. `stored` says whether the
     * store succeeded.
     */
    method SaveTrip(tripId: JsString, stored: bool)
      modifies this
      ensures State() == old(State())
      ensures effects == old(effects) + [StoreTripId(tripId)] +
        (if stored then [Navigate(Literal("/trip/") + tripId)] else [Alert(TripIdNotSaved), Log])
    {
      effects := effects + [StoreTripId(tripId)];
      if stored {
        effects := effects + [Navigate(Literal("/trip/") + tripId)];
      } else {
        effects := effects + [Alert(TripIdNotSaved), Log];
      }
    }

    /**
     * Runs once when the screen mounts: looks for a stored trip id and, if there is one, asks
     * the trip service for that trip. `read` is how the store settles and `fetch` how the
     * lookup settles (ignored when there is no id to look up).
     */
    method GetTrip(read: StorageRead, fetch: FetchReply)
      modifies this
      ensures LoadingOutcome(read, fetch) == ShowForm ==> State() == old(State()).(isGettingTrip := false)
      ensures LoadingOutcome(read, fetch) != ShowForm ==> State() == old(State())
      ensures effects == old(effects) + GetTripEffects(read, fetch)
    {
      if read.ReadThrew? {
        isGettingTrip := false;
        effects := effects + [Log];
        return;
      }
      var tripId := read.value;
      if !Truthy(tripId) {
        isGettingTrip := false;
        return;
      }
      match fetch
      case FetchThrew =>
        isGettingTrip := false;
        effects := effects + [Log];
      case Fetched(trip) =>
        if trip.Some? {
          effects := effects + [Navigate(Literal("trip/") + tripId.value)];
        }
    }
  }

  /** The effects of one submission from state `s`: the request, then the alert or the log line. */
  ghost function CreateEffects(s: FormState, reply: CreateReply): seq<Effect> {
    [CreateRequest(TripCreate(s.destination, s.selectedDates.startsAt, s.selectedDates.endsAt,
                              s.emailsToInvite), true)]
    + (if reply.Created? then [Alert(TripCreated)] else [Log])
  }

  /** What the confirmation prompt leads to: nothing on "Não", a submission on "Sim". */
  function PromptOutcome(choice: Choice, reply: CreateReply): NextStepOutcome {
    match choice
    case No => Declined
    case Yes => CreateAttempted(if reply.Created? then Some(reply.tripId) else None)
  }

  /** The effects of the confirmation prompt from state `s`: the prompt, then any submission. */
  ghost function PromptEffects(s: FormState, choice: Choice, reply: CreateReply): seq<Effect> {
    [Alert(ConfirmTrip)] + (if choice == Yes then CreateEffects(s, reply) else [])
  }

  /** The effects of `getTrip`: the navigation it reaches, or the log line of a thrown error. */
  ghost function GetTripEffects(read: StorageRead, fetch: FetchReply): seq<Effect> {
    match LoadingOutcome(read, fetch)
    case OpenTrip(path) => [Navigate(path)]
    case _ => if read.ReadThrew? || (StoredId(read).Some? && fetch.FetchThrew?) then [Log] else []
  }
}
