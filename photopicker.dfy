/**
 * The photo picker (src/components/PhotoPicker.tsx): a list of photo URLs
 * capped at `maxPhotos`, grown by uploads and shrunk by removing one
 * position. The picker dialog, the camera and the uploads themselves are
 * outside the model: their results are parameters, and every change of the
 * list returns the list handed to `onPhotosSelected`.
 */
module PhotoPicker {
  import opened Wrappers
  import opened Text

  const DefaultMaxPhotos: nat := 10

  /** What tapping the add button does: the cap alert, or the pick dialog with the gallery limited to `galleryLimit` photos. */
  datatype AddPhoto = CapReached(message: string) | PickerShown(galleryLimit: nat)

  /** How one upload ended: it answered (with the URL the picker's own check finds, if any), or it was rejected. */
  datatype UploadAnswer = Answered(url: Option<string>) | UploadRejected

  /** How a batch of uploads ended: every upload answered, giving the URLs found, or the one at position `at` was rejected. */
  datatype BatchOutcome = Uploaded(urls: seq<string>) | BatchRejected(at: nat)

  /** `uploadProgress`: the upload under way and the batch size; `{0, 0}` shows nothing. */
  datatype Progress = Progress(current: nat, total: nat)

  /** The list without position `index`, the others in order; an out-of-range index removes nothing. */
  function WithoutPosition(photos: seq<string>, index: int): (r: seq<string>)
    ensures 0 <= index < |photos| ==> |r| == |photos| - 1
    ensures 0 <= index < |photos| ==> forall i :: 0 <= i < index ==> r[i] == photos[i]
    ensures 0 <= index < |photos| ==> forall i :: index <= i < |r| ==> r[i] == photos[i + 1]
    ensures !(0 <= index < |photos|) ==> r == photos
  {
    if 0 <= index < |photos| then photos[..index] + photos[index + 1..] else photos
  }

  class Picker {
    const maxPhotos: nat
    var photos: seq<string>
    var uploading: bool
    var progress: Progress

    /** The list starts as `existingPhotos`. */
    constructor (maxPhotos: nat, existingPhotos: seq<string>)
      ensures this.maxPhotos == maxPhotos && photos == existingPhotos && !uploading && progress == Progress(0, 0)
    {
      this.maxPhotos := maxPhotos;
      photos := existingPhotos;
      uploading := false;
      progress := Progress(0, 0);
    }

    /** The add button is drawn only while below the cap. */
    predicate ShowsAddButton()
      reads this
    {
      |photos| < maxPhotos
    }

    /** The add button can be pressed: it is drawn and no upload is under way. */
    predicate AddEnabled()
      reads this
    {
      ShowsAddButton() && !uploading
    }

    /** The free slots offered to the gallery pick. */
    function RemainingSlots(): (slots: nat)
      reads this
      requires |photos| < maxPhotos
      ensures |photos| + slots == maxPhotos && slots > 0
    {
      maxPhotos - |photos|
    }

    /** `handleAddPhoto`: at the cap the alert is shown and no picker opens; below it the gallery may fill the remaining slots. */
    method HandleAddPhoto() returns (action: AddPhoto)
      ensures action.CapReached? <==> !ShowsAddButton()
      ensures action.CapReached? ==> action.message == "Você pode adicionar no máximo " + NatToString(maxPhotos) + " fotos"
      ensures action.PickerShown? ==> action.galleryLimit == RemainingSlots()
    {
      if |photos| >= maxPhotos {
        return CapReached("Você pode adicionar no máximo " + NatToString(maxPhotos) + " fotos");
      }
      action := PickerShown(maxPhotos - |photos|);
    }

    /**
     * `uploadPhoto`: an upload that answered with a URL appends it; any
     * other answer leaves the list as it was. The call has no `try`, so a
     * rejected upload never reaches `setUploading(false)`: the picker stays
     * uploading, with its add button disabled.
     */
    method UploadPhoto(answer: UploadAnswer) returns (selected: Option<seq<string>>)
      modifies this`photos, this`uploading
      ensures answer.Answered? ==> !uploading
      ensures answer.Answered? && answer.url.Some? ==> photos == old(photos) + [answer.url.value] && selected == Some(photos)
      ensures answer.Answered? && answer.url.None? ==> photos == old(photos) && selected.None?
      ensures answer.UploadRejected? ==> uploading && !AddEnabled() && photos == old(photos) && selected.None?
    {
      uploading := true;
      selected := None;
      if answer.UploadRejected? {
        return;
      }
      uploading := false;
      if answer.url.Some? {
        photos := photos + [answer.url.value];
        selected := Some(photos);
      }
    }

    /**
     * `uploadPhotos` over `picked` gallery photos: the URLs of the uploads
     * that succeeded follow the existing photos in their order; none leaves
     * the list as it was. A gallery pick within the remaining slots keeps
     * the list within the cap. Each upload first reports its position as
     * the progress; a rejected one (`BatchRejected(at)`, counted from 0) ends the
     * call there, leaving the picker uploading with that progress shown.
     */
    method UploadPhotos(picked: nat, outcome: BatchOutcome) returns (selected: Option<seq<string>>)
      modifies this`photos, this`uploading, this`progress
      ensures outcome.Uploaded? ==> !uploading && progress == Progress(0, 0)
      ensures outcome.Uploaded? && |outcome.urls| > 0 ==> photos == old(photos) + outcome.urls && selected == Some(photos)
      ensures outcome.Uploaded? && |outcome.urls| == 0 ==> photos == old(photos) && selected.None?
      ensures outcome.Uploaded? && |old(photos)| + |outcome.urls| <= maxPhotos ==> |photos| <= maxPhotos
      ensures outcome.BatchRejected? ==>
        uploading && !AddEnabled() && progress == Progress(outcome.at + 1, picked) && photos == old(photos) && selected.None?
    {
      uploading := true;
      selected := None;
      match outcome {
        case BatchRejected(at) =>
          progress := Progress(at + 1, picked);
        case Uploaded(urls) =>
          uploading := false;
          progress := Progress(0, 0);
          if |urls| > 0 {
            photos := photos + urls;
            selected := Some(photos);
          }
      }
    }

    /** `removePhoto`: drop exactly one position; the callback gets the new list in every case. */
    method RemovePhoto(index: int) returns (selected: seq<string>)
      modifies this`photos
      ensures photos == WithoutPosition(old(photos), index) && selected == photos
      ensures 0 <= index < |old(photos)| ==> multiset(photos) + multiset{old(photos)[index]} == multiset(old(photos))
    {
      var kept := WithoutPosition(photos, index);
      if 0 <= index < |photos| {
        assert photos == photos[..index] + [photos[index]] + photos[index + 1..];
      }
      photos := kept;
      selected := photos;
    }
  }
}
