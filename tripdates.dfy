/**
 * The date helpers the Generate and Edit screens both define: the error
 * messages, the trip length, and the automatic move of the end date when a
 * new start date would put it before the start. A date field holds text;
 * a field that `validateDate` accepts denotes the date it parses to.
 */
module TripDates {
  import opened Wrappers
  import opened Calendar

  const RequiredStart: string := "Data de início é obrigatória"
  const RequiredEnd: string := "Data de término é obrigatória"
  const InvalidFormat: string := "Formato inválido (use DD/MM/AAAA)"
  const InPast: string := "Data não pode ser no passado"
  const EndBeforeStart: string := "Data de término deve ser após a data de início"
  const TooLong: string := "Duração máxima: 365 dias"
  const FixDates: string := "Corrija os erros nas datas"
  const DateProcessing: string := "Erro ao processar datas"

  /** The longest trip, in days, counting both ends. */
  const MaxDuration: int := 365

  /** The `errors` record of `validateDates`: one message per field, `""` for none. */
  datatype DateErrors = DateErrors(start: string, end: string)

  /** What an API call made by a form did: answered with the record's id, or threw with an optional server message. */
  datatype CallOutcome = Succeeded(id: string) | Failed(message: Option<string>)

  /** The date a valid field denotes. */
  function Parsed(s: string): (d: Date)
    requires ValidateDate(s)
    ensures IsRealDate(d) && d.year <= 9999
  {
    ValidEntry(s);
    ParseDate(s).value
  }

  /** `calculateDuration`: days from start to end counting both, `null` unless both fields are valid. */
  function CalculateDuration(startDate: string, endDate: string): (r: Option<int>)
    ensures r.Some? <==> ValidateDate(startDate) && ValidateDate(endDate)
  {
    if startDate == "" || endDate == "" || !ValidateDate(startDate) || !ValidateDate(endDate) then None
    else Some(DifferenceInDays(Parsed(endDate), Parsed(startDate)) + 1)
  }

  /** A trip that starts and ends on the same day lasts one day. */
  lemma SameDayLastsOne(s: string)
    requires ValidateDate(s)
    ensures CalculateDuration(s, s) == Some(1)
  {
  }

  /** The duration is at least one exactly when the end is not before the start. */
  lemma DurationPositive(startDate: string, endDate: string)
    requires ValidateDate(startDate) && ValidateDate(endDate)
    ensures CalculateDuration(startDate, endDate).value >= 1 <==> !Before(Parsed(endDate), Parsed(startDate))
  {
    DayNumberOrder(Parsed(endDate), Parsed(startDate));
  }

  /** Two valid fields make a trip of their difference in days plus one. */
  lemma DurationOfValid(startDate: string, endDate: string)
    requires ValidateDate(startDate) && ValidateDate(endDate)
    ensures CalculateDuration(startDate, endDate).Some?
    ensures CalculateDuration(startDate, endDate).value == DifferenceInDays(Parsed(endDate), Parsed(startDate)) + 1
  {
    assert !(startDate == "" || endDate == "" || !ValidateDate(startDate) || !ValidateDate(endDate));
  }

  /** Valid fields `n` days apart make a trip of `n + 1` days. */
  lemma DurationOfDifference(startDate: string, endDate: string, n: nat)
    requires ValidateDate(startDate) && ValidateDate(endDate)
    requires DifferenceInDays(Parsed(endDate), Parsed(startDate)) == n
    ensures CalculateDuration(startDate, endDate).Some? && CalculateDuration(startDate, endDate).value == n + 1
  {
    DurationOfValid(startDate, endDate);
  }

  /** Later days of the end make a longer trip by the same number of days. */
  lemma DurationCountsDays(startDate: string, endDate: string, n: nat)
    requires ValidateDate(startDate) && ValidateDate(endDate) && Parsed(endDate) == AddDays(Parsed(startDate), n)
    ensures CalculateDuration(startDate, endDate) == Some(n + 1)
  {
    DifferenceAfterAdding(Parsed(startDate), Parsed(endDate), n);
    DurationOfDifference(startDate, endDate, n);
  }

  /** The end date suggested for a start: six days later, formatted, so the trip lasts a week. */
  function SuggestedEnd(start: Date): string
    requires IsRealDate(start)
  {
    AddDaysReal(start, 6);
    FormatDate(AddDays(start, 6))
  }

  /**
   * The end field after `handleStartDateChange(value)`: when both fields
   * are valid and the end is before the new start, the suggested end;
   * otherwise it is left as it was.
   */
  function AdjustedEnd(value: string, endDate: string): string {
    if value != "" && endDate != "" && ValidateDate(value) && ValidateDate(endDate)
      && Before(Parsed(endDate), Parsed(value))
    then SuggestedEnd(Parsed(value))
    else endDate
  }

  /**
   * After the move, a valid start and a valid end (for a start whose week
   * ends by year 9999) make a trip of at least one day; a moved end makes
   * it exactly seven days.
   */
  lemma AdjustedEndFollowsStart(value: string, endDate: string)
    requires ValidateDate(value) && ValidateDate(endDate) && AddDays(Parsed(value), 6).year <= 9999
    ensures ValidateDate(AdjustedEnd(value, endDate))
    ensures CalculateDuration(value, AdjustedEnd(value, endDate)).value >= 1
    ensures AdjustedEnd(value, endDate) != endDate ==> CalculateDuration(value, AdjustedEnd(value, endDate)) == Some(7)
  {
    if Before(Parsed(endDate), Parsed(value)) {
      assert AdjustedEnd(value, endDate) == SuggestedEnd(Parsed(value));
      SuggestedEndLastsAWeek(value);
    } else {
      assert AdjustedEnd(value, endDate) == endDate;
      DurationPositive(value, endDate);
    }
  }

  /** The suggested end is a valid field six days after the start, so the trip lasts seven days. */
  lemma SuggestedEndLastsAWeek(value: string)
    requires ValidateDate(value) && AddDays(Parsed(value), 6).year <= 9999
    ensures ValidateDate(SuggestedEnd(Parsed(value)))
    ensures CalculateDuration(value, SuggestedEnd(Parsed(value))) == Some(7)
  {
    var start := Parsed(value);
    var later := AddDays(start, 6);
    AddDaysReal(start, 6);
    FormatThenParse(later);
    var suggested := FormatDate(later);
    assert Parsed(suggested) == later;
    DurationCountsDays(value, suggested, 6);
  }

  /** An end that is not before the start is never moved. */
  lemma AdjustedEndKeepsOrderedEnd(value: string, endDate: string)
    requires !(ValidateDate(value) && ValidateDate(endDate) && Before(Parsed(endDate), Parsed(value)))
    ensures AdjustedEnd(value, endDate) == endDate
  {
  }

  /** What the screens send for a valid field: the day the user typed, at noon UTC. */
  lemma ValidFieldConverts(s: string)
    requires ValidateDate(s)
    ensures ConvertToIso(s) == Some(EpochDay(Parsed(s)))
  {
    ConvertToIsoOfValid(s);
  }
}
