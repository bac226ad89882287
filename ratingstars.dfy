/**
 * The star row (src/components/RatingStars.tsx): five stars filled up to
 * the rating, a tap that reports its star only on an editable row with a
 * callback, and the name of each whole score.
 */
module RatingStars {
  import opened Wrappers

  /** The stars drawn, `[1, 2, 3, 4, 5]`. */
  const Stars: seq<int> := [1, 2, 3, 4, 5]

  /** A star is filled when it is at most the rating. */
  predicate Filled(star: int, rating: int) {
    star <= rating
  }

  /** The fill of each drawn star, left to right. */
  function Fills(rating: int): (fills: seq<bool>)
    ensures |fills| == |Stars| == 5
    ensures forall i :: 0 <= i < |fills| ==> (fills[i] <==> i + 1 <= rating)
  {
    seq(|Stars|, i requires 0 <= i < |Stars| => Filled(Stars[i], rating))
  }

  /** `handlePress`: the tapped star reaches `onRatingChange` only on an editable row that has one. */
  function HandlePress(editable: bool, hasCallback: bool, value: int): (reported: Option<int>)
    ensures reported.Some? <==> editable && hasCallback
    ensures reported.Some? ==> reported.value == value
  {
    if editable && hasCallback then Some(value) else None
  }

  /**
   * Tapping a star of an editable row with a callback reports a rating
   * that fills exactly the stars up to the tapped one and names it.
   */
  lemma TapFillsUpToStar(i: int)
    requires 0 <= i < |Stars|
    ensures HandlePress(true, true, Stars[i]).Some?
    ensures var r := HandlePress(true, true, Stars[i]).value;
      (forall j :: 0 <= j < |Stars| ==> (Fills(r)[j] <==> j <= i))
      && ShownLabel(true, r) == Some(Label(i + 1)) && Label(i + 1) != ""
  {
    assert Stars[i] == i + 1;
  }

  /** `getLabel`: the table of labels, `''` for any other value. */
  function Label(value: int): (name: string)
    ensures 1 <= value <= 5 <==> name != ""
  {
    match value
    case 1 => "Muito Ruim"
    case 2 => "Ruim"
    case 3 => "Regular"
    case 4 => "Bom"
    case 5 => "Excelente"
    case _ => ""
  }

  /** The five scores have five different labels. */
  lemma LabelsDistinct(a: int, b: int)
    requires 1 <= a <= 5 && 1 <= b <= 5 && a != b
    ensures Label(a) != Label(b)
  {
  }

  /** The label under the stars: shown only when asked for and the rating is positive. */
  function ShownLabel(showLabel: bool, rating: int): (shown: Option<string>)
    ensures shown.Some? <==> showLabel && rating > 0
    ensures shown.Some? ==> shown.value == Label(rating)
    ensures shown.Some? && rating <= 5 ==> shown.value != ""
  {
    if showLabel && rating > 0 then Some(Label(rating)) else None
  }
}
