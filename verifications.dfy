/**
 * The `Verifications` page: the pending-verification list and the review
 * modal (open, cancel, validate, submit).
 */
module Verifications {
  import opened Wrappers
  import opened Ui
  import opened Text
  import Api

  datatype Verification = Verification(id: string, documentType: string, userName: string, filePath: string)

  /** The review form's fields; `None` is a field that `resetFields` left unset. */
  datatype ReviewForm = ReviewForm(status: Option<string>, notes: Option<string>)

  const LoadError := "Gagal memuat data verifikasi."
  const NotesRequired := "Catatan wajib diisi jika verifikasi ditolak."
  const ReviewSucceeded := "Verifikasi berhasil diproses."
  const ReviewFailed := "Gagal memproses verifikasi."

  /**
   * The synchronous check before any request: a rejection needs notes that are
   * present and not blank; an approval passes whatever its notes.
   */
  function NotesMissing(values: Api.ReviewPayload): (missing: bool)
    ensures missing <==> values.status == "rejected" && (values.notes.None? || Blank(values.notes.value))
  {
    if values.status == "rejected" then
      match values.notes
      case None => true
      case Some(n) => TrimEmptyIffBlank(n); n == "" || Trim(n) == ""
    else false
  }

  datatype Screen = Spinner | ErrorAlert(message: string) | Table(rows: seq<Verification>)

  class VerificationsPage {
    var verifications: seq<Verification>
    var loading: bool
    var error: Option<string>
    var isModalOpen: bool
    var selected: Option<Verification>
    var isSubmitting: bool
    var form: ReviewForm

    /** The modal is open exactly while a record is selected. */
    ghost predicate Valid()
      reads this
    {
      isModalOpen <==> selected.Some?
    }

    constructor ()
      ensures verifications == [] && loading && error == None
      ensures !isModalOpen && selected == None && !isSubmitting && form == ReviewForm(None, None)
      ensures Valid()
    {
      verifications := [];
      loading := true;
      error := None;
      isModalOpen := false;
      selected := None;
      isSubmitting := false;
      form := ReviewForm(None, None);
    }

    /** `fetchVerifications` up to its await. It does not clear `error`. */
    method BeginFetch() returns (req: Api.Request)
      requires Valid()
      modifies this`loading
      ensures Valid() && loading
      ensures req == Api.GetPendingVerifications()
    {
      loading := true;
      req := Api.GetPendingVerifications();
    }

    /** `fetchVerifications` after its await: the list is replaced only on success. */
    method CompleteFetch(outcome: Fetched<seq<Verification>>)
      requires Valid()
      modifies this`verifications, this`error, this`loading
      ensures Valid() && !loading
      ensures outcome.Loaded? ==> verifications == outcome.value && error == old(error)
      ensures outcome.Failed? ==> verifications == old(verifications) && error == Some(LoadError)
    {
      if outcome.Loaded? {
        verifications := outcome.value;
      } else {
        error := Some(LoadError);
      }
      loading := false;
    }

    /** `showModal`: selects the record and resets the draft to an approval without notes. */
    method ShowModal(record: Verification)
      modifies this`selected, this`form, this`isModalOpen
      ensures Valid()
      ensures selected == Some(record) && isModalOpen
      ensures form == ReviewForm(Some("approved"), Some(""))
    {
      selected := Some(record);
      form := ReviewForm(Some("approved"), Some(""));
      isModalOpen := true;
    }

    /** `handleCancel`: closes the modal, drops the selection, resets the form; no request. */
    method HandleCancel()
      modifies this`isModalOpen, this`selected, this`form
      ensures Valid()
      ensures !isModalOpen && selected == None && form == ReviewForm(None, None)
    {
      isModalOpen := false;
      selected := None;
      form := ReviewForm(None, None);
    }

    /**
     * `handleSubmitReview` up to its await. Invalid notes stop it with a toast
     * and no request; otherwise `isSubmitting` goes on and the selected
     * record's review is posted with the values as given. With nothing
     * selected, reading `selectedVerification.id` throws inside the `try`.
     */
    method SubmitReview(values: Api.ReviewPayload) returns (toast: Option<Toast>, req: Option<Api.Request>)
      requires Valid()
      modifies this`isSubmitting
      ensures Valid()
      ensures NotesMissing(values) ==>
        toast == Some(ErrorToast(NotesRequired)) && req == None && isSubmitting == old(isSubmitting)
      ensures !NotesMissing(values) && selected.Some? ==>
        toast == None && isSubmitting && req == Some(Api.ReviewVerification(selected.value.id, values))
      ensures !NotesMissing(values) && selected.None? ==>
        toast == Some(ErrorToast(ReviewFailed)) && req == None && !isSubmitting
    {
      if NotesMissing(values) {
        toast := Some(ErrorToast(NotesRequired));
        req := None;
        return;
      }
      isSubmitting := true;
      match selected {
        case Some(record) =>
          toast := None;
          req := Some(Api.ReviewVerification(record.id, values));
        case None =>
          toast := Some(ErrorToast(ReviewFailed));
          req := None;
          isSubmitting := false;
      }
    }

    /**
     * `handleSubmitReview` after its await. Success closes the modal as cancel
     * does and starts a re-fetch; failure keeps modal, selection and draft.
     * `isSubmitting` is false either way.
     */
    method CompleteReview(outcome: Fetched<()>) returns (toast: Toast, refetch: Option<Api.Request>)
      requires Valid()
      modifies this`isSubmitting, this`isModalOpen, this`selected, this`form, this`loading
      ensures Valid() && !isSubmitting
      ensures outcome.Loaded? ==>
        && toast == SuccessToast(ReviewSucceeded)
        && !isModalOpen && selected == None && form == ReviewForm(None, None)
        && loading && refetch == Some(Api.GetPendingVerifications())
      ensures outcome.Failed? ==>
        && toast == ErrorToast(ReviewFailed) && refetch == None
        && isModalOpen == old(isModalOpen) && selected == old(selected) && form == old(form)
        && loading == old(loading)
    {
      if outcome.Loaded? {
        toast := SuccessToast(ReviewSucceeded);
        HandleCancel();
        var req := BeginFetch();
        refetch := Some(req);
      } else {
        toast := ErrorToast(ReviewFailed);
        refetch := None;
      }
      isSubmitting := false;
    }

    /** Loading hides everything, then a truthy error replaces the table. */
    function Render(): (s: Screen)
      reads this
      ensures s.Spinner? <==> loading
      ensures s.ErrorAlert? <==> !loading && Truthy(error)
      ensures s.ErrorAlert? ==> s.message == error.value
      ensures s.Table? ==> s.rows == verifications
    {
      if loading then Spinner
      else if Truthy(error) then ErrorAlert(error.value)
      else Table(verifications)
    }
  }

  /** A rejection with empty or blank notes is refused locally; with real notes it goes through. */
  lemma RejectionNeedsNotes()
    ensures NotesMissing(Api.ReviewPayload("rejected", Some("")))
    ensures NotesMissing(Api.ReviewPayload("rejected", Some(" \t")))
    ensures NotesMissing(Api.ReviewPayload("rejected", None))
    ensures !NotesMissing(Api.ReviewPayload("rejected", Some("blurry photo")))
    ensures !NotesMissing(Api.ReviewPayload("approved", None))
  {
    assert !IsJsWhitespace("blurry photo"[0]);
  }
}
