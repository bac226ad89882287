/**
 * The date field of the forms: a text input masked to `DD/MM/AAAA` as the
 * user types, and a native date picker that writes the formatted date back.
 * The text typed and the value shown are strings; the picker works on dates.
 */
module DateInput {
  import opened Wrappers
  import opened Text
  import opened Calendar

  /** The first eight characters of `s`, or all of it when shorter. */
  function FirstEight(s: string): (r: string)
    ensures |r| == if |s| <= 8 then |s| else 8
    ensures r == s[..|r|]
  {
    if |s| <= 8 then s else s[..8]
  }

  /**
   * Where the mask puts its separators: after the second digit and after
   * the fourth, each one as soon as the digit before it is there.
   */
  function Layout(e: string): string {
    if |e| < 2 then e
    else if |e| < 4 then e[..2] + "/" + e[2..]
    else e[..2] + "/" + e[2..4] + "/" + e[4..]
  }

  /** What the field shows after `text` is typed: the layout of its first eight digits. */
  function Mask(text: string): string {
    Layout(FirstEight(DigitsOf(text)))
  }

  /** A partial `DD/MM/AAAA`: at most ten characters, `/` at positions 2 and 5, digits elsewhere. */
  predicate MaskShaped(m: string) {
    |m| <= 10 && forall i :: 0 <= i < |m| ==> (if i == 2 || i == 5 then m[i] == '/' else IsDigit(m[i]))
  }

  /**
   * `handleTextChange`: strip every non-digit, insert `/` after the
   * second and the fifth character when the value is long enough, cut at
   * ten characters, and hand the result to `onChangeText`.
   */
  method HandleTextChange(text: string) returns (formatted: string)
    ensures formatted == Mask(text)
  {
    formatted := DigitsOf(text);
    ghost var e := formatted;
    if |formatted| >= 2 {
      formatted := formatted[..2] + "/" + formatted[2..];
    }
    if |formatted| >= 5 {
      formatted := formatted[..5] + "/" + formatted[5..];
    }
    if |formatted| > 10 {
      formatted := formatted[..10];
    }
    if |e| >= 4 {
      assert formatted == e[..2] + "/" + e[2..4] + "/" + FirstEight(e)[4..];
    }
  }

  /** The digits of a layout are the digits laid out. */
  lemma LayoutDigits(e: string)
    requires forall i :: 0 <= i < |e| ==> IsDigit(e[i])
    ensures DigitsOf(Layout(e)) == e
  {
    assert DigitsOf("/") == "";
    if 2 <= |e| < 4 {
      var a, b := e[..2], e[2..];
      DigitsOfAppend(a + "/", b);
      DigitsOfAppend(a, "/");
      assert DigitsOf(a) == a && DigitsOf(b) == b;
      assert a + b == e;
    } else if |e| >= 4 {
      var a, b, c := e[..2], e[2..4], e[4..];
      DigitsOfAppend(a + "/" + b + "/", c);
      DigitsOfAppend(a + "/" + b, "/");
      DigitsOfAppend(a + "/", b);
      DigitsOfAppend(a, "/");
      assert DigitsOf(a) == a && DigitsOf(b) == b && DigitsOf(c) == c;
      assert a + b + c == e;
    }
  }

  /** The mask keeps, in order, the first eight digits typed (all of them when fewer) and no other digit. */
  lemma MaskKeepsDigits(text: string)
    ensures DigitsOf(Mask(text)) == FirstEight(DigitsOf(text))
  {
    LayoutDigits(FirstEight(DigitsOf(text)));
  }

  /** The mask shows only digits and `/`, at most ten characters, `/` only at positions 2 and 5. */
  lemma MaskIsShaped(text: string)
    ensures MaskShaped(Mask(text))
  {
    LayoutShaped(FirstEight(DigitsOf(text)));
  }

  /** At most eight digits, laid out, have the partial `DD/MM/AAAA` shape. */
  lemma LayoutShaped(e: string)
    requires |e| <= 8 && forall i :: 0 <= i < |e| ==> IsDigit(e[i])
    ensures MaskShaped(Layout(e))
  {
    var m := Layout(e);
    if 2 <= |e| < 4 {
      assert forall i :: 0 <= i < |m| ==> m[i] == (if i < 2 then e[i] else if i == 2 then '/' else e[i - 1]);
    } else if |e| >= 4 {
      assert forall i :: 0 <= i < |m| ==>
        m[i] == (if i < 2 then e[i] else if i == 2 then '/' else if i < 5 then e[i - 1] else if i == 5 then '/' else e[i - 2]);
    }
  }

  /** A separator is shown as soon as two digits are typed, and the second one as soon as four are. */
  lemma MaskSeparators(text: string)
    ensures var n := |DigitsOf(text)|; var m := Mask(text);
      (n >= 2 ==> |m| >= 3 && m[2] == '/') && (n >= 4 ==> |m| >= 6 && m[5] == '/')
      && |m| == (if n <= 8 then n else 8) + (if n >= 2 then 1 else 0) + (if n >= 4 then 1 else 0)
  {
  }

  /** Masking what the field already shows changes nothing. */
  lemma MaskIdempotent(text: string)
    ensures Mask(Mask(text)) == Mask(text)
  {
    MaskKeepsDigits(text);
    var e := FirstEight(DigitsOf(text));
    assert FirstEight(e) == e;
  }

  /** Eight digits typed give a value of the `DD/MM/AAAA` shape. */
  lemma FullMaskShaped(text: string)
    requires |DigitsOf(text)| >= 8
    ensures DateShaped(Mask(text))
  {
  }

  /** `parseDateFromString`: null for the empty string, else the date-fns parse, null when it is not a real date. */
  function ParseDateFromString(value: string): (r: Option<Date>)
    ensures value == "" ==> r == None
    ensures r.Some? ==> IsRealDate(r.value)
  {
    if value == "" then None else ParseDate(value)
  }

  /** On a full mask, the field's parse succeeds exactly for the entries `validateDate` accepts. */
  lemma ParseOfFullMask(text: string)
    requires |DigitsOf(text)| >= 8
    ensures ParseDateFromString(Mask(text)).Some? <==> ValidateDate(Mask(text))
  {
    FullMaskShaped(text);
  }

  /** A picked date written back to the field parses to that same date. */
  lemma ParseOfFormatted(d: Date)
    requires IsRealDate(d) && d.year <= 9999
    ensures ParseDateFromString(FormatDate(d)) == Some(d)
  {
    FormatThenParse(d);
  }

  /** `getPickerDate`: the date in the field, or `today` when the field does not parse. */
  function GetPickerDate(value: string, today: Date): (d: Date)
    ensures IsRealDate(today) ==> IsRealDate(d)
    ensures d != today ==> ParseDateFromString(value) == Some(d)
  {
    ParseDateFromString(value).GetOr(today)
  }

  /** The picker reopens on the date it wrote to the field, whatever today is. */
  lemma PickerReopensOnPicked(d: Date, today: Date)
    requires IsRealDate(d) && d.year <= 9999
    ensures GetPickerDate(FormatDate(d), today) == d
  {
    ParseOfFormatted(d);
  }

  /** On a full mask that `validateDate` accepts, the picker opens on the typed date; on one it refuses, on today. */
  lemma PickerOpensOnTyped(text: string, today: Date)
    requires |DigitsOf(text)| >= 8
    ensures ValidateDate(Mask(text)) ==> GetPickerDate(Mask(text), today) == ParseDate(Mask(text)).value
    ensures !ValidateDate(Mask(text)) ==> GetPickerDate(Mask(text), today) == today
  {
    ParseOfFullMask(text);
  }

  /** The picker of one field: whether it is shown, and the date held on iOS until confirmed. */
  class DatePicker {
    var showPicker: bool
    var tempDate: Option<Date>

    /** Picker dates are always real dates. */
    predicate Valid()
      reads this
    {
      tempDate.Some? ==> IsRealDate(tempDate.value)
    }

    constructor ()
      ensures Valid() && !showPicker && tempDate == None
    {
      showPicker := false;
      tempDate := None;
    }

    /** `openPicker`: hold the field's date (or `today`) and show the picker. */
    method OpenPicker(value: string, today: Date)
      requires IsRealDate(today)
      modifies this
      ensures Valid() && showPicker && tempDate == Some(GetPickerDate(value, today))
    {
      tempDate := Some(GetPickerDate(value, today));
      showPicker := true;
    }

    /**
     * `handleDateChange`: on Android the picker closes and a confirmed
     * date is written back at once; on iOS a chosen date is only held.
     * `emitted` is what reaches `onChangeText`.
     */
    method HandleDateChange(android: bool, confirmed: bool, selected: Option<Date>) returns (emitted: Option<string>)
      requires Valid() && (selected.Some? ==> IsRealDate(selected.value))
      modifies this
      ensures Valid()
      ensures android ==> (!showPicker && tempDate == old(tempDate)
        && emitted == (if confirmed && selected.Some? then Some(FormatDate(selected.value)) else None))
      ensures !android ==> (showPicker == old(showPicker) && emitted == None
        && tempDate == (if selected.Some? then selected else old(tempDate)))
    {
      emitted := None;
      if android {
        showPicker := false;
        if confirmed && selected.Some? {
          emitted := Some(FormatDate(selected.value));
        }
      } else {
        if selected.Some? {
          tempDate := selected;
        }
      }
    }

    /** `handleConfirmIOS`: write back the held date, if any, then close and forget it. */
    method HandleConfirmIos() returns (emitted: Option<string>)
      requires Valid()
      modifies this
      ensures Valid() && !showPicker && tempDate == None
      ensures emitted == (if old(tempDate).Some? then Some(FormatDate(old(tempDate).value)) else None)
    {
      emitted := None;
      if tempDate.Some? {
        emitted := Some(FormatDate(tempDate.value));
      }
      showPicker := false;
      tempDate := None;
    }

    /** `handleCancelIOS`: close and forget the held date, writing nothing. */
    method HandleCancelIos()
      modifies this
      ensures Valid() && !showPicker && tempDate == None
    {
      showPicker := false;
      tempDate := None;
    }
  }
}
