/**
 * The screen that asks the server to generate an itinerary
 * (src/screens/GenerateScreen.tsx): destination, dates, budget level and
 * travel style, with the date checks that include the not-in-the-past rule.
 * "Today" is a parameter: the start of the current local day.
 */
module GenerateScreen {
  import opened Wrappers
  import opened Text
  import opened Calendar
  import opened TripDates
  import opened UseToast

  const FillDestination: string := "Preencha o destino"
  const Created: string := "Roteiro criado com sucesso!"
  const GenerateFailure: string := "Erro ao gerar roteiro. Tente novamente."

  /** The body of `generateWithAI`: the destination, the two instants (as their UTC day) and the fixed preferences. */
  datatype GenerateRequest = GenerateRequest(
    city: string, country: string, startDay: int, endDay: int,
    budgetLevel: string, currency: string, travelStyle: string, interests: seq<string>, pace: string)

  /** The start field's message: required, then format, then the past rule. */
  function StartError(startDate: string, today: Date): string {
    if startDate == "" then RequiredStart
    else if !ValidateDate(startDate) then InvalidFormat
    else if Before(Parsed(startDate), today) then InPast
    else ""
  }

  /**
   * The end field's message: required, then format; then, only when the
   * start is valid too, the past rule, the order and the 365-day cap.
   */
  function EndError(startDate: string, endDate: string, today: Date): string {
    if endDate == "" then RequiredEnd
    else if !ValidateDate(endDate) then InvalidFormat
    else if startDate != "" && ValidateDate(startDate) then
      (if Before(Parsed(endDate), today) then InPast
       else if Before(Parsed(endDate), Parsed(startDate)) then EndBeforeStart
       else if DifferenceInDays(Parsed(endDate), Parsed(startDate)) + 1 > MaxDuration then TooLong
       else "")
    else ""
  }

  predicate DatesValid(startDate: string, endDate: string, today: Date) {
    StartError(startDate, today) == "" && EndError(startDate, endDate, today) == ""
  }

  /** Each start message is given exactly in its case. */
  lemma StartErrorCases(startDate: string, today: Date)
    ensures StartError(startDate, today) == RequiredStart <==> startDate == ""
    ensures StartError(startDate, today) == InvalidFormat <==> startDate != "" && !ValidateDate(startDate)
    ensures StartError(startDate, today) == InPast <==> ValidateDate(startDate) && Before(Parsed(startDate), today)
    ensures StartError(startDate, today) == "" <==> ValidateDate(startDate) && !Before(Parsed(startDate), today)
  {
  }

  /** Each end message is given exactly in its case; the last three only when the start is valid. */
  lemma EndErrorCases(startDate: string, endDate: string, today: Date)
    ensures EndError(startDate, endDate, today) == RequiredEnd <==> endDate == ""
    ensures EndError(startDate, endDate, today) == InvalidFormat <==> endDate != "" && !ValidateDate(endDate)
    ensures EndError(startDate, endDate, today) == InPast
      <==> ValidateDate(startDate) && ValidateDate(endDate) && Before(Parsed(endDate), today)
    ensures EndError(startDate, endDate, today) == EndBeforeStart
      <==> (ValidateDate(startDate) && ValidateDate(endDate) && !Before(Parsed(endDate), today)
        && Before(Parsed(endDate), Parsed(startDate)))
    ensures EndError(startDate, endDate, today) == TooLong
      <==> (ValidateDate(startDate) && ValidateDate(endDate) && !Before(Parsed(endDate), today)
        && !Before(Parsed(endDate), Parsed(startDate)) && CalculateDuration(startDate, endDate).value > MaxDuration)
  {
    var e := EndError(startDate, endDate, today);
    if endDate == "" {
      assert e == RequiredEnd;
    } else if !ValidateDate(endDate) {
      assert e == InvalidFormat;
    } else if !ValidateDate(startDate) {
      assert e == "";
    } else {
      DurationOfValid(startDate, endDate);
      if Before(Parsed(endDate), today) {
        assert e == InPast;
      } else if Before(Parsed(endDate), Parsed(startDate)) {
        assert e == EndBeforeStart;
      } else {
        assert e == (if CalculateDuration(startDate, endDate).value > MaxDuration then TooLong else "");
      }
    }
  }

  /**
   * The form's dates pass exactly when both are valid, neither is before
   * today, the end is not before the start, and the trip lasts from 1 to
   * 365 days.
   */
  lemma DatesValidMeans(startDate: string, endDate: string, today: Date)
    ensures DatesValid(startDate, endDate, today) <==>
      ValidateDate(startDate) && ValidateDate(endDate)
      && !Before(Parsed(startDate), today) && !Before(Parsed(endDate), today)
      && !Before(Parsed(endDate), Parsed(startDate))
      && CalculateDuration(startDate, endDate).value <= MaxDuration
    ensures DatesValid(startDate, endDate, today) ==> 1 <= CalculateDuration(startDate, endDate).value <= MaxDuration
  {
    StartErrorCases(startDate, today);
    EndErrorCases(startDate, endDate, today);
    if ValidateDate(startDate) && ValidateDate(endDate) {
      DurationPositive(startDate, endDate);
    }
  }

  /**
   * Dates that pass are sent as the days typed, and when today is in year
   * 100 or later the conversion as written sends the same: the past rule
   * keeps the years that `Date.UTC` remaps out of this screen.
   */
  lemma ValidDatesSendTypedDays(startDate: string, endDate: string, today: Date)
    requires DatesValid(startDate, endDate, today)
    ensures ConvertToIso(startDate) == Some(EpochDay(Parsed(startDate)))
    ensures ConvertToIso(endDate) == Some(EpochDay(Parsed(endDate)))
    ensures today.year >= 100 ==>
      ConvertToIsoAsWritten(startDate) == ConvertToIso(startDate) && ConvertToIsoAsWritten(endDate) == ConvertToIso(endDate)
  {
    DatesValidMeans(startDate, endDate, today);
    ValidFieldConverts(startDate);
    ValidFieldConverts(endDate);
    if today.year >= 100 {
      AsWrittenAgreesFromYear100(startDate);
      AsWrittenAgreesFromYear100(endDate);
    }
  }

  class GenerateForm {
    const toast: ToastHook
    var city: string
    var country: string
    var startDate: string
    var endDate: string
    var budgetLevel: string
    var travelStyle: string
    var loading: bool
    var dateErrors: DateErrors
    var resetKey: int

    /** An empty form: medium budget, solo travel, no date errors. */
    predicate Cleared()
      reads this
    {
      city == "" && country == "" && startDate == "" && endDate == ""
      && budgetLevel == "medio" && travelStyle == "solo" && dateErrors == DateErrors("", "")
    }

    constructor (toast: ToastHook)
      ensures this.toast == toast && Cleared() && !loading && resetKey == 0
    {
      this.toast := toast;
      city, country, startDate, endDate := "", "", "", "";
      budgetLevel, travelStyle := "medio", "solo";
      loading := false;
      dateErrors := DateErrors("", "");
      resetKey := 0;
    }

    /** The focus effect: every field back to its default, and a new key for the place search. */
    method OnFocus()
      modifies this
      ensures Cleared() && resetKey == old(resetKey) + 1 && loading == old(loading)
    {
      city, country, startDate, endDate := "", "", "", "";
      budgetLevel, travelStyle := "medio", "solo";
      dateErrors := DateErrors("", "");
      resetKey := resetKey + 1;
    }

    /** `validateDates`: fill the messages in order and report whether none was set. */
    method ValidateDates(today: Date) returns (isValidForm: bool)
      modifies this`dateErrors
      ensures dateErrors == DateErrors(StartError(startDate, today), EndError(startDate, endDate, today))
      ensures isValidForm <==> DatesValid(startDate, endDate, today)
    {
      var errors := DateErrors("", "");
      isValidForm := true;
      if startDate == "" {
        errors := errors.(start := RequiredStart);
        isValidForm := false;
      } else if !ValidateDate(startDate) {
        errors := errors.(start := InvalidFormat);
        isValidForm := false;
      } else {
        var start := Parsed(startDate);
        if Before(start, today) {
          errors := errors.(start := InPast);
          isValidForm := false;
        }
      }
      if endDate == "" {
        errors := errors.(end := RequiredEnd);
        isValidForm := false;
      } else if !ValidateDate(endDate) {
        errors := errors.(end := InvalidFormat);
        isValidForm := false;
      } else if startDate != "" && ValidateDate(startDate) {
        var start := Parsed(startDate);
        var end := Parsed(endDate);
        if Before(end, today) {
          errors := errors.(end := InPast);
          isValidForm := false;
        } else if Before(end, start) {
          errors := errors.(end := EndBeforeStart);
          isValidForm := false;
        } else {
          var duration := DifferenceInDays(end, start) + 1;
          if duration > MaxDuration {
            errors := errors.(end := TooLong);
            isValidForm := false;
          }
        }
      }
      dateErrors := errors;
    }

    /** `handleStartDateChange`: the start takes the new value; the end moves only to follow a later start. */
    method HandleStartDateChange(value: string)
      modifies this`startDate, this`endDate
      ensures startDate == value && endDate == AdjustedEnd(value, old(endDate))
    {
      startDate := value;
      if value != "" && endDate != "" && ValidateDate(value) && ValidateDate(endDate) {
        var start := Parsed(value);
        var end := Parsed(endDate);
        if Before(end, start) {
          endDate := SuggestedEnd(start);
        }
      }
    }

    /**
     * `handleGenerate`. No request without a destination, without dates
     * that pass, or without both conversions; each refusal shows its error
     * toast. The request carries the form's destination, budget and style
     * and the two days sent; its outcome decides the final toast.
     * `request` is what was sent, `shown` the itinerary shown afterwards.
     */
    method HandleGenerate(today: Date, outcome: CallOutcome) returns (request: Option<GenerateRequest>, shown: Option<string>)
      modifies this`dateErrors, this`loading, toast
      ensures city == "" || country == "" ==>
        request.None? && dateErrors == old(dateErrors) && toast.toast == ToastState(true, FillDestination, ErrorToast)
      ensures city != "" && country != "" ==>
        (request.Some? <==> DatesValid(startDate, endDate, today) && ConvertToIso(startDate).Some? && ConvertToIso(endDate).Some?)
      ensures request.Some? ==> request.value == GenerateRequest(city, country,
        ConvertToIso(startDate).value, ConvertToIso(endDate).value, budgetLevel, "BRL", travelStyle, [], "moderado")
      ensures city != "" && country != "" ==> dateErrors == DateErrors(StartError(startDate, today), EndError(startDate, endDate, today))
      ensures city != "" && country != "" && !DatesValid(startDate, endDate, today) ==> toast.toast == ToastState(true, FixDates, ErrorToast)
      ensures request.Some? && outcome.Succeeded? ==> shown == Some(outcome.id) && toast.toast == ToastState(true, Created, SuccessToast)
      ensures request.Some? && outcome.Failed? ==> shown == None && toast.toast == ToastState(true, OrDefault(outcome.message, GenerateFailure), ErrorToast)
      ensures request.None? ==> shown == None
      ensures loading == (old(loading) && request.None?)
    {
      if city == "" || country == "" {
        request, shown := None, None;
        toast.Error(FillDestination);
      } else {
        request, shown := GenerateFilled(today, outcome);
      }
    }

    /** `handleGenerate` once the destination is filled: the dates are checked, converted, and the request sent. */
    method GenerateFilled(today: Date, outcome: CallOutcome) returns (request: Option<GenerateRequest>, shown: Option<string>)
      modifies this`dateErrors, this`loading, toast
      ensures dateErrors == DateErrors(StartError(startDate, today), EndError(startDate, endDate, today))
      ensures request.Some? <==> DatesValid(startDate, endDate, today) && ConvertToIso(startDate).Some? && ConvertToIso(endDate).Some?
      ensures request.Some? ==> request.value == GenerateRequest(city, country,
        ConvertToIso(startDate).value, ConvertToIso(endDate).value, budgetLevel, "BRL", travelStyle, [], "moderado")
      ensures !DatesValid(startDate, endDate, today) ==> toast.toast == ToastState(true, FixDates, ErrorToast)
      ensures DatesValid(startDate, endDate, today) && (ConvertToIso(startDate).None? || ConvertToIso(endDate).None?) ==>
        toast.toast == ToastState(true, DateProcessing, ErrorToast)
      ensures request.Some? && outcome.Succeeded? ==> shown == Some(outcome.id) && toast.toast == ToastState(true, Created, SuccessToast)
      ensures request.Some? && outcome.Failed? ==> shown == None && toast.toast == ToastState(true, OrDefault(outcome.message, GenerateFailure), ErrorToast)
      ensures request.None? ==> shown == None
      ensures loading == (old(loading) && request.None?)
    {
      request, shown := None, None;
      var valid := ValidateDates(today);
      if !valid {
        toast.Error(FixDates);
        return;
      }
      var startIso := ConvertToIso(startDate);
      var endIso := ConvertToIso(endDate);
      if startIso.None? || endIso.None? {
        toast.Error(DateProcessing);
        return;
      }
      loading := true;
      request := Some(GenerateRequest(city, country, startIso.value, endIso.value, budgetLevel, "BRL", travelStyle, [], "moderado"));
      match outcome {
        case Succeeded(id) =>
          toast.Success(Created);
          shown := Some(id);
        case Failed(message) =>
          toast.Error(OrDefault(message, GenerateFailure));
      }
      loading := false;
    }
  }

  /** The third refusal of `handleGenerate` never happens: dates that pass always convert. */
  lemma NoDateProcessingError(startDate: string, endDate: string, today: Date)
    requires DatesValid(startDate, endDate, today)
    ensures ConvertToIso(startDate).Some? && ConvertToIso(endDate).Some?
  {
    ValidDatesSendTypedDays(startDate, endDate, today);
  }
}
