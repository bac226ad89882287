/**
 * The rating dialog (src/components/RatingModal.tsx): the form state,
 * filled from an existing rating when there is one, the highlight chips,
 * and the submit that needs a score. `onSubmit` is outside the model:
 * whether it succeeded is a parameter.
 */
module RatingModal {
  import opened Wrappers
  import opened Text
  import opened Lists
  import opened Alerts

  /** The ids of the highlight chips offered. */
  const HighlightIds: seq<string> := ["acomodacao", "gastronomia", "atracao", "transporte", "custo_beneficio", "organizacao"]

  const ScoreMissing: Alert := Alert("Atenção", "Por favor, selecione uma nota")
  const SaveFailure: Alert := Alert("Erro", "Não foi possível salvar a avaliação")

  /** A rating already saved; absent fields are `None`. */
  datatype ExistingRating = ExistingRating(
    score: int,
    comment: Option<string>,
    photos: Option<seq<string>>,
    highlights: Option<seq<string>>,
    wouldRecommend: Option<bool>)

  /** What `onSubmit` is given. */
  datatype RatingPayload = RatingPayload(score: int, comment: string, photos: seq<string>, highlights: seq<string>, wouldRecommend: bool)

  /** How a submit ended: the payload sent (if any), whether the dialog closed, and the alert raised. */
  datatype SubmitOutcome = SubmitOutcome(sent: Option<RatingPayload>, closed: bool, alert: Option<Alert>)

  /** The form an existing rating gives: absent text and lists become empty, an absent recommendation becomes yes. */
  function FormOf(existing: ExistingRating): (form: RatingPayload)
    ensures form.score == existing.score
    ensures existing.comment.Some? ==> form.comment == existing.comment.value
    ensures existing.comment.None? ==> form.comment == ""
    ensures existing.photos.None? ==> form.photos == []
    ensures existing.photos.Some? ==> form.photos == existing.photos.value
    ensures existing.highlights.None? ==> form.highlights == []
    ensures existing.highlights.Some? ==> form.highlights == existing.highlights.value
    ensures form.wouldRecommend <==> existing.wouldRecommend != Some(false)
  {
    RatingPayload(
      existing.score,
      OrDefault(existing.comment, ""),
      existing.photos.GetOr([]),
      existing.highlights.GetOr([]),
      existing.wouldRecommend.GetOr(true))
  }

  /** A submitted form, given back as the existing rating, reopens as the same form. */
  lemma ReopenRestoresForm(form: RatingPayload)
    ensures FormOf(ExistingRating(form.score, Some(form.comment), Some(form.photos), Some(form.highlights), Some(form.wouldRecommend))) == form
  {
  }

  /** The empty form: no score, no text, nothing picked, recommended. */
  const EmptyForm: RatingPayload := RatingPayload(0, "", [], [], true)

  class Dialog {
    var score: int
    var comment: string
    var photos: seq<string>
    var highlights: seq<string>
    var wouldRecommend: bool
    var loading: bool

    /** The form as it stands. */
    function Form(): RatingPayload
      reads this
    {
      RatingPayload(score, comment, photos, highlights, wouldRecommend)
    }

    /** The initial state: the existing rating's form, or the empty form. */
    constructor (existing: Option<ExistingRating>)
      ensures existing.None? ==> Form() == EmptyForm
      ensures existing.Some? ==> Form() == FormOf(existing.value)
      ensures !loading
    {
      var form := if existing.Some? then FormOf(existing.value) else EmptyForm;
      score, comment, photos, highlights, wouldRecommend := form.score, form.comment, form.photos, form.highlights, form.wouldRecommend;
      loading := false;
    }

    /** The effect on `existingRating`: a rating replaces the whole form; none leaves it. */
    method SyncExisting(existing: Option<ExistingRating>)
      modifies this`score, this`comment, this`photos, this`highlights, this`wouldRecommend
      ensures existing.Some? ==> Form() == FormOf(existing.value)
      ensures existing.None? ==> Form() == old(Form())
    {
      if existing.Some? {
        var form := FormOf(existing.value);
        score, comment, photos, highlights, wouldRecommend := form.score, form.comment, form.photos, form.highlights, form.wouldRecommend;
      }
    }

    /** `toggleHighlight`: a chosen chip is unchosen everywhere, another is added at the end. */
    method ToggleHighlight(id: string)
      modifies this`highlights
      ensures highlights == Toggle(old(highlights), id)
      ensures id in highlights <==> id !in old(highlights)
      ensures forall h :: h != id ==> multiset(highlights)[h] == multiset(old(highlights))[h]
    {
      ToggleKeepsOthers(highlights, id);
      highlights := Toggle(highlights, id);
    }

    /**
     * `handleSubmit`: without a score nothing is sent and the dialog warns;
     * otherwise the form is sent, the dialog closes only when `onSubmit`
     * succeeded, and loading is over in both cases.
     */
    method HandleSubmit(succeeded: bool) returns (outcome: SubmitOutcome)
      modifies this`loading
      ensures score == 0 ==> outcome == SubmitOutcome(None, false, Some(ScoreMissing)) && loading == old(loading)
      ensures score != 0 ==> outcome.sent == Some(Form()) && !loading
      ensures score != 0 ==> (outcome.closed <==> succeeded)
      ensures score != 0 ==> (outcome.alert.Some? <==> !succeeded) && (!succeeded ==> outcome.alert == Some(SaveFailure))
      ensures outcome.closed ==> outcome.sent.Some? && outcome.sent.value.score != 0
    {
      if score == 0 {
        return SubmitOutcome(None, false, Some(ScoreMissing));
      }
      loading := true;
      var payload := Form();
      if succeeded {
        outcome := SubmitOutcome(Some(payload), true, None);
      } else {
        outcome := SubmitOutcome(Some(payload), false, Some(SaveFailure));
      }
      loading := false;
    }
  }
}
