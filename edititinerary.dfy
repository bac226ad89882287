/**
 * The screen that edits an existing itinerary
 * (src/screens/EditItineraryScreen.tsx): the form is prefilled from the
 * server's record, its dates are checked as on the Generate screen but
 * without the past rule, and the update is sent only when every guard
 * passes.
 */
module EditItinerary {
  import opened Wrappers
  import opened Text
  import opened Calendar
  import opened Itineraries
  import opened TripDates
  import opened UseToast
  import GenerateScreen

  const FillRequired: string := "Preencha todos os campos obrigatórios"
  const Updated: string := "Roteiro atualizado com sucesso!"
  const SaveFailure: string := "Erro ao salvar roteiro."

  /**
   * What `getById` gave: the record, with its start and end instants read
   * as the local calendar days `parseISO` gives (`None` for an instant that
   * does not parse); or a failure.
   */
  datatype LoadOutcome = Loaded(data: Itinerary, start: Option<Date>, end: Option<Date>) | LoadFailed

  /** `format` can show the parsed instant: it parsed, to a real date. */
  predicate Formattable(d: Option<Date>) {
    d.Some? && IsRealDate(d.value)
  }

  /**
   * Building the update body reads `itinerary?.destination.coverImage` and
   * `itinerary?.budget.estimatedTotal`: a loaded record without a
   * destination or without a budget makes it throw.
   */
  predicate BodyThrows(itinerary: Option<Itinerary>) {
    itinerary.Some? && (itinerary.value.destination.None? || itinerary.value.budget.None?)
  }

  /** The body of `update`: the form's fields, the two days sent, and the record's estimated total. */
  datatype UpdateRequest = UpdateRequest(
    title: string, city: string, country: string, startDay: int, endDay: int,
    budgetLevel: string, currency: string, estimatedTotal: int, status: string)

  /** The start field's message: required, then format. */
  function StartError(startDate: string): string {
    if startDate == "" then RequiredStart
    else if !ValidateDate(startDate) then InvalidFormat
    else ""
  }

  /** The end field's message: required, then format; then, when the start is valid too, the order and the cap. */
  function EndError(startDate: string, endDate: string): string {
    if endDate == "" then RequiredEnd
    else if !ValidateDate(endDate) then InvalidFormat
    else if startDate != "" && ValidateDate(startDate) then
      (if Before(Parsed(endDate), Parsed(startDate)) then EndBeforeStart
       else if DifferenceInDays(Parsed(endDate), Parsed(startDate)) + 1 > MaxDuration then TooLong
       else "")
    else ""
  }

  predicate DatesValid(startDate: string, endDate: string) {
    StartError(startDate) == "" && EndError(startDate, endDate) == ""
  }

  /** The dates pass exactly when both are valid, the end is not before the start, and the trip lasts 1 to 365 days, whatever today is. */
  lemma DatesValidMeans(startDate: string, endDate: string)
    ensures DatesValid(startDate, endDate) <==>
      ValidateDate(startDate) && ValidateDate(endDate)
      && !Before(Parsed(endDate), Parsed(startDate))
      && CalculateDuration(startDate, endDate).value <= MaxDuration
    ensures DatesValid(startDate, endDate) ==> 1 <= CalculateDuration(startDate, endDate).value <= MaxDuration
  {
    if ValidateDate(startDate) && ValidateDate(endDate) {
      DurationPositive(startDate, endDate);
    }
  }

  /** The Edit checks are the Generate checks without the past rule: what Generate accepts, Edit accepts. */
  lemma GenerateValidIsEditValid(startDate: string, endDate: string, today: Date)
    requires GenerateScreen.DatesValid(startDate, endDate, today)
    ensures DatesValid(startDate, endDate)
  {
    GenerateScreen.DatesValidMeans(startDate, endDate, today);
    DatesValidMeans(startDate, endDate);
  }

  /** Edit accepts dates Generate refuses: a pair entirely before today passes here. */
  lemma PastPairAccepted(startDate: string, endDate: string, today: Date)
    requires DatesValid(startDate, endDate) && Before(Parsed(startDate), today)
    ensures !GenerateScreen.DatesValid(startDate, endDate, today)
  {
    GenerateScreen.StartErrorCases(startDate, today);
  }

  /** The year-50 entry reaches the conversion on this screen: as a one-day trip its dates pass. */
  lemma EarlyYearPasses()
    ensures DatesValid("01/01/0050", "01/01/0050")
  {
    EarlyYearEntry();
    SameDayLastsOne("01/01/0050");
  }

  /** The level the form takes from a record: its budget level when set and non-empty, else `medio`. */
  function LevelOf(data: Itinerary): (level: string)
    ensures level != ""
    ensures data.budget.Some? && data.budget.value.level.Some? && data.budget.value.level.value != "" ==> level == data.budget.value.level.value
  {
    if data.budget.Some? && data.budget.value.level.Some? && data.budget.value.level.value != "" then data.budget.value.level.value
    else "medio"
  }

  class EditForm {
    const toast: ToastHook
    var itinerary: Option<Itinerary>
    var loading: bool
    var saving: bool
    var title: string
    var city: string
    var country: string
    var startDate: string
    var endDate: string
    var budgetLevel: string
    var status: string
    var dateErrors: DateErrors

    constructor (toast: ToastHook)
      ensures this.toast == toast && itinerary == None && loading && !saving
      ensures title == "" && city == "" && country == "" && startDate == "" && endDate == ""
      ensures budgetLevel == "medio" && status == "rascunho" && dateErrors == DateErrors("", "")
    {
      this.toast := toast;
      itinerary := None;
      loading, saving := true, false;
      title, city, country, startDate, endDate := "", "", "", "", "";
      budgetLevel, status := "medio", "rascunho";
      dateErrors := DateErrors("", "");
    }

    /**
     * `loadItinerary`: on success the form takes the record's title,
     * city and country (`""` when missing), then its two days formatted
     * `dd/MM/yyyy`, its budget level (`medio` when missing) and its status.
     * A day `format` cannot show throws there: the fields set before it
     * keep their new values, the rest are left, and the screen goes back,
     * as it does on a failed request, which changes no field. Loading
     * ends false either way.
     */
    method LoadItinerary(outcome: LoadOutcome) returns (wentBack: bool)
      modifies this
      ensures !loading && saving == old(saving) && dateErrors == old(dateErrors)
      ensures wentBack <==> outcome.LoadFailed? || !Formattable(outcome.start) || !Formattable(outcome.end)
      ensures outcome.LoadFailed? ==>
        itinerary == old(itinerary) && title == old(title) && city == old(city) && country == old(country)
        && startDate == old(startDate) && endDate == old(endDate) && budgetLevel == old(budgetLevel) && status == old(status)
      ensures outcome.Loaded? ==>
        itinerary == Some(outcome.data) && title == outcome.data.title
        && city == CityOf(outcome.data).GetOr("") && country == CountryOf(outcome.data).GetOr("")
      ensures outcome.Loaded? && !Formattable(outcome.start) ==>
        startDate == old(startDate) && endDate == old(endDate) && budgetLevel == old(budgetLevel) && status == old(status)
      ensures outcome.Loaded? && Formattable(outcome.start) ==> startDate == FormatDate(outcome.start.value)
      ensures outcome.Loaded? && Formattable(outcome.start) && !Formattable(outcome.end) ==>
        endDate == old(endDate) && budgetLevel == old(budgetLevel) && status == old(status)
      ensures outcome.Loaded? && Formattable(outcome.start) && Formattable(outcome.end) ==>
        endDate == FormatDate(outcome.end.value) && budgetLevel == LevelOf(outcome.data) && status == outcome.data.status
    {
      wentBack := false;
      match outcome {
        case Loaded(data, start, end) =>
          itinerary := Some(data);
          title := data.title;
          city := CityOf(data).GetOr("");
          country := CountryOf(data).GetOr("");
          if !Formattable(start) {
            wentBack := true;
          } else {
            startDate := FormatDate(start.value);
            if !Formattable(end) {
              wentBack := true;
            } else {
              endDate := FormatDate(end.value);
              budgetLevel := LevelOf(data);
              status := data.status;
            }
          }
        case LoadFailed =>
          wentBack := true;
      }
      loading := false;
    }

    /** `validateDates`: fill the messages in order and report whether none was set. */
    method ValidateDates() returns (isValidForm: bool)
      modifies this`dateErrors
      ensures dateErrors == DateErrors(StartError(startDate), EndError(startDate, endDate))
      ensures isValidForm <==> DatesValid(startDate, endDate)
    {
      var errors := DateErrors("", "");
      isValidForm := true;
      if startDate == "" {
        errors := errors.(start := RequiredStart);
        isValidForm := false;
      } else if !ValidateDate(startDate) {
        errors := errors.(start := InvalidFormat);
        isValidForm := false;
      }
      if endDate == "" {
        errors := errors.(end := RequiredEnd);
        isValidForm := false;
      } else if !ValidateDate(endDate) {
        errors := errors.(end := InvalidFormat);
        isValidForm := false;
      } else if startDate != "" && ValidateDate(startDate) {
        var start := Parsed(startDate);
        var end := Parsed(endDate);
        if Before(end, start) {
          errors := errors.(end := EndBeforeStart);
          isValidForm := false;
        } else {
          var duration := DifferenceInDays(end, start) + 1;
          if duration > MaxDuration {
            errors := errors.(end := TooLong);
            isValidForm := false;
          }
        }
      }
      dateErrors := errors;
    }

    /** `handleStartDateChange`: the start takes the new value; the end moves only to follow a later start. */
    method HandleStartDateChange(value: string)
      modifies this`startDate, this`endDate
      ensures startDate == value && endDate == AdjustedEnd(value, old(endDate))
    {
      startDate := value;
      if value != "" && endDate != "" && ValidateDate(value) && ValidateDate(endDate) {
        var start := Parsed(value);
        var end := Parsed(endDate);
        if Before(end, start) {
          endDate := SuggestedEnd(start);
        }
      }
    }

    /** The filled form reaches `setSaving(true)` and the `try`: its dates pass and both convert. */
    predicate SendReached()
      reads this
    {
      DatesValid(startDate, endDate) && ConvertToIso(startDate).Some? && ConvertToIso(endDate).Some?
    }

    /**
     * `handleSave`. No update without a title, city and country, without
     * dates that pass, or without both conversions. Building the body reads
     * the loaded record's destination and budget, so a loaded record
     * without either throws before the call and ends in the generic failure
     * toast. `request` is
     * what was sent, `wentBack` whether the screen returns to the detail.
     */
    method HandleSave(outcome: CallOutcome) returns (request: Option<UpdateRequest>, wentBack: bool)
      modifies this`dateErrors, this`saving, toast
      ensures title == "" || city == "" || country == "" ==>
        request.None? && dateErrors == old(dateErrors) && toast.toast == ToastState(true, FillRequired, ErrorToast)
      ensures title != "" && city != "" && country != "" ==>
        (request.Some? <==>
          DatesValid(startDate, endDate) && ConvertToIso(startDate).Some? && ConvertToIso(endDate).Some?
          && !BodyThrows(itinerary))
      ensures request.Some? ==> request.value == UpdateRequest(title, city, country,
        ConvertToIso(startDate).value, ConvertToIso(endDate).value, budgetLevel, "BRL",
        (if itinerary.Some? then itinerary.value.budget.value.estimatedTotal else 0), status)
      ensures title != "" && city != "" && country != "" ==> dateErrors == DateErrors(StartError(startDate), EndError(startDate, endDate))
      ensures title != "" && city != "" && country != "" && !DatesValid(startDate, endDate) ==>
        toast.toast == ToastState(true, FixDates, ErrorToast)
      ensures wentBack <==> request.Some? && outcome.Succeeded?
      ensures wentBack ==> toast.toast == ToastState(true, Updated, SuccessToast)
      ensures request.Some? && outcome.Failed? ==> toast.toast == ToastState(true, OrDefault(outcome.message, SaveFailure), ErrorToast)
      ensures if title != "" && city != "" && country != "" && SendReached() then !saving else saving == old(saving)
      ensures title != "" && city != "" && country != "" && SendReached() && BodyThrows(itinerary) ==>
        toast.toast == ToastState(true, SaveFailure, ErrorToast)
    {
      if title == "" || city == "" || country == "" {
        request, wentBack := None, false;
        toast.Error(FillRequired);
      } else {
        request, wentBack := SaveFilled(outcome);
      }
    }

    /** `handleSave` once the required fields are filled: the dates are checked, converted, and the update sent. */
    method SaveFilled(outcome: CallOutcome) returns (request: Option<UpdateRequest>, wentBack: bool)
      modifies this`dateErrors, this`saving, toast
      ensures dateErrors == DateErrors(StartError(startDate), EndError(startDate, endDate))
      ensures request.Some? <==>
        DatesValid(startDate, endDate) && ConvertToIso(startDate).Some? && ConvertToIso(endDate).Some?
        && !BodyThrows(itinerary)
      ensures request.Some? ==> request.value == UpdateRequest(title, city, country,
        ConvertToIso(startDate).value, ConvertToIso(endDate).value, budgetLevel, "BRL",
        (if itinerary.Some? then itinerary.value.budget.value.estimatedTotal else 0), status)
      ensures !DatesValid(startDate, endDate) ==> toast.toast == ToastState(true, FixDates, ErrorToast)
      ensures DatesValid(startDate, endDate) && (ConvertToIso(startDate).None? || ConvertToIso(endDate).None?) ==>
        toast.toast == ToastState(true, DateProcessing, ErrorToast)
      ensures wentBack <==> request.Some? && outcome.Succeeded?
      ensures wentBack ==> toast.toast == ToastState(true, Updated, SuccessToast)
      ensures request.Some? && outcome.Failed? ==> toast.toast == ToastState(true, OrDefault(outcome.message, SaveFailure), ErrorToast)
      ensures if SendReached() then !saving else saving == old(saving)
      ensures SendReached() && BodyThrows(itinerary) ==> toast.toast == ToastState(true, SaveFailure, ErrorToast)
    {
      request, wentBack := None, false;
      var valid := ValidateDates();
      if !valid {
        toast.Error(FixDates);
        return;
      }
      var startIso := ConvertToIso(startDate);
      var endIso := ConvertToIso(endDate);
      if startIso.None? || endIso.None? {
        toast.Error(DateProcessing);
        return;
      }
      request, wentBack := SendUpdate(startIso.value, endIso.value, outcome);
    }

    /**
     * The `try` part of `handleSave` once the dates are converted: the body
     * is built (which throws for a loaded record without a destination or
     * a budget) and sent.
     */
    method SendUpdate(startIso: int, endIso: int, outcome: CallOutcome) returns (request: Option<UpdateRequest>, wentBack: bool)
      modifies this`saving, toast
      ensures request.Some? <==> !BodyThrows(itinerary)
      ensures request.Some? ==> request.value == UpdateRequest(title, city, country, startIso, endIso, budgetLevel, "BRL",
        (if itinerary.Some? then itinerary.value.budget.value.estimatedTotal else 0), status)
      ensures request.None? ==> toast.toast == ToastState(true, SaveFailure, ErrorToast)
      ensures wentBack <==> request.Some? && outcome.Succeeded?
      ensures wentBack ==> toast.toast == ToastState(true, Updated, SuccessToast)
      ensures request.Some? && outcome.Failed? ==> toast.toast == ToastState(true, OrDefault(outcome.message, SaveFailure), ErrorToast)
      ensures !saving
    {
      request, wentBack := None, false;
      saving := true;
      if BodyThrows(itinerary) {
        toast.Error(SaveFailure);
      } else {
        var total := if itinerary.Some? then itinerary.value.budget.value.estimatedTotal else 0;
        request := Some(UpdateRequest(title, city, country, startIso, endIso, budgetLevel, "BRL", total, status));
        match outcome {
          case Succeeded(_) =>
            toast.Success(Updated);
            wentBack := true;
          case Failed(message) =>
            toast.Error(OrDefault(message, SaveFailure));
        }
      }
      saving := false;
    }
  }

  /** A record loaded with days up to year 9999 prefills dates that pass validation and parse back to those days. */
  lemma PrefillParsesBack(start: Date, end: Date)
    requires IsRealDate(start) && start.year <= 9999 && IsRealDate(end) && end.year <= 9999
    ensures ValidateDate(FormatDate(start)) && Parsed(FormatDate(start)) == start
    ensures ValidateDate(FormatDate(end)) && Parsed(FormatDate(end)) == end
  {
    FormatThenParse(start);
    FormatThenParse(end);
  }
}
