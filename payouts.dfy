/**
 * The `Payouts` page: the pending-payout list and the completion modal with
 * its single-file proof upload.
 */
module Payouts {
  import opened Wrappers
  import opened Ui
  import Api

  datatype Payout = Payout(payoutId: string, payeeName: string, payeeType: string, amount: int)

  const LoadError := "Gagal memuat data payout."
  const ProofRequired := "Silakan unggah bukti transfer terlebih dahulu."
  const CompleteFailed := "Gagal menyelesaikan payout."
  const ProofField := "transfer_proof_file"

  /** The success toast, naming the payee between the fixed opening and closing words. */
  function Completed(payeeName: string): (text: string)
    ensures "Payout untuk " <= text
    ensures |text| == 13 + |payeeName| + 23
    ensures text[13..13 + |payeeName|] == payeeName
    ensures text[13 + |payeeName|..] == " berhasil diselesaikan."
  {
    "Payout untuk " + payeeName + " berhasil diselesaikan."
  }

  datatype Screen = Spinner | ErrorAlert(message: string) | Table(rows: seq<Payout>)

  class PayoutsPage {
    var payouts: seq<Payout>
    var loading: bool
    var error: Option<string>
    var isModalOpen: bool
    var selected: Option<Payout>
    var fileList: seq<Api.File>
    var uploading: bool

    /**
     * The modal is open exactly while a payout is selected, the upload list
     * holds at most one file, and it is empty whenever the modal is closed.
     */
    ghost predicate Valid()
      reads this
    {
      && (isModalOpen <==> selected.Some?)
      && |fileList| <= 1
      && (!isModalOpen ==> fileList == [])
    }

    constructor ()
      ensures payouts == [] && loading && error == None
      ensures !isModalOpen && selected == None && fileList == [] && !uploading
      ensures Valid()
    {
      payouts := [];
      loading := true;
      error := None;
      isModalOpen := false;
      selected := None;
      fileList := [];
      uploading := false;
    }

    /** `fetchPayouts` up to its await. It does not clear `error`. */
    method BeginFetch() returns (req: Api.Request)
      requires Valid()
      modifies this`loading
      ensures Valid() && loading
      ensures req == Api.GetPendingPayouts()
    {
      loading := true;
      req := Api.GetPendingPayouts();
    }

    /** `fetchPayouts` after its await: the list is replaced only on success. */
    method CompleteFetch(outcome: Fetched<seq<Payout>>)
      requires Valid()
      modifies this`payouts, this`error, this`loading
      ensures Valid() && !loading
      ensures outcome.Loaded? ==> payouts == outcome.value && error == old(error)
      ensures outcome.Failed? ==> payouts == old(payouts) && error == Some(LoadError)
    {
      if outcome.Loaded? {
        payouts := outcome.value;
      } else {
        error := Some(LoadError);
      }
      loading := false;
    }

    /** `showModal`: selects the payout and opens the modal; the (empty) file list is kept. */
    method ShowModal(payout: Payout)
      requires Valid()
      modifies this`selected, this`isModalOpen
      ensures Valid()
      ensures selected == Some(payout) && isModalOpen
      ensures fileList == old(fileList) && (!old(isModalOpen) ==> fileList == [])
    {
      selected := Some(payout);
      isModalOpen := true;
    }

    /** `handleCancel`: closes the modal, drops the selection, empties the file list. */
    method HandleCancel()
      modifies this`isModalOpen, this`selected, this`fileList
      ensures Valid()
      ensures !isModalOpen && selected == None && fileList == []
    {
      isModalOpen := false;
      selected := None;
      fileList := [];
    }

    /**
     * `beforeUpload`: the chosen file replaces any earlier one, and `false`
     * stops antd from uploading it by itself. The control exists only inside
     * the open modal.
     */
    method BeforeUpload(file: Api.File) returns (autoUpload: bool)
      requires Valid() && isModalOpen
      modifies this`fileList
      ensures Valid()
      ensures fileList == [file] && !autoUpload
    {
      fileList := [file];
      autoUpload := false;
    }

    /** `onRemove`: empties the file list. */
    method OnRemove()
      requires Valid()
      modifies this`fileList
      ensures Valid() && fileList == []
    {
      fileList := [];
    }

    /**
     * `handleCompletePayout` up to its await. Without a file: a toast, no
     * request, `uploading` untouched. With one: `uploading` on and one
     * multipart post of that file for the selected payout, which is returned
     * as `target`: the closure reads `selectedPayout` again after the await
     * for the toast, and nothing in between changes it.
     */
    method CompletePayout() returns (toast: Option<Toast>, req: Option<Api.Request>, target: Option<Payout>)
      requires Valid()
      modifies this`uploading
      ensures Valid()
      ensures fileList == [] ==>
        toast == Some(ErrorToast(ProofRequired)) && req == None && target == None && uploading == old(uploading)
      ensures fileList != [] ==>
        && selected.Some? && target == selected && toast == None && uploading
        && req == Some(Api.MarkPayoutAsCompleted(selected.value.payoutId, [(ProofField, fileList[0])]))
    {
      if |fileList| == 0 {
        toast := Some(ErrorToast(ProofRequired));
        req := None;
        target := None;
        return;
      }
      var formData := [(ProofField, fileList[0])];
      uploading := true;
      toast := None;
      target := selected;
      req := Some(Api.MarkPayoutAsCompleted(selected.value.payoutId, formData));
    }

    /**
     * `handleCompletePayout` after its await, for the `target` that
     * `CompletePayout` returned. Success does what cancel does and starts a re-fetch; failure keeps
     * modal, selection and file. `uploading` is false either way.
     */
    method CompleteUpload(target: Payout, outcome: Fetched<()>) returns (toast: Toast, refetch: Option<Api.Request>)
      requires Valid()
      modifies this`uploading, this`isModalOpen, this`selected, this`fileList, this`loading
      ensures Valid() && !uploading
      ensures outcome.Loaded? ==>
        && toast == SuccessToast(Completed(target.payeeName))
        && !isModalOpen && selected == None && fileList == []
        && loading && refetch == Some(Api.GetPendingPayouts())
      ensures outcome.Failed? ==>
        && toast == ErrorToast(CompleteFailed) && refetch == None
        && isModalOpen == old(isModalOpen) && selected == old(selected) && fileList == old(fileList)
        && loading == old(loading)
    {
      if outcome.Loaded? {
        toast := SuccessToast(Completed(target.payeeName));
        HandleCancel();
        var req := BeginFetch();
        refetch := Some(req);
      } else {
        toast := ErrorToast(CompleteFailed);
        refetch := None;
      }
      uploading := false;
    }

    /** Loading hides everything, then a truthy error replaces the table. */
    function Render(): (s: Screen)
      reads this
      ensures s.Spinner? <==> loading
      ensures s.ErrorAlert? <==> !loading && Truthy(error)
      ensures s.ErrorAlert? ==> s.message == error.value
      ensures s.Table? ==> s.rows == payouts
    {
      if loading then Spinner
      else if Truthy(error) then ErrorAlert(error.value)
      else Table(payouts)
    }
  }

  /** A whole review with a proof file: open, choose, submit, succeed. Exactly one post is issued. */
  method CompleteWithProof(page: PayoutsPage, payout: Payout, file: Api.File)
    returns (req: Option<Api.Request>, toast: Toast)
    requires page.Valid() && !page.isModalOpen && !page.uploading
    modifies page
    ensures page.Valid() && !page.isModalOpen && page.fileList == [] && !page.uploading
    ensures req == Some(Api.MarkPayoutAsCompleted(payout.payoutId, [(ProofField, file)]))
    ensures toast == SuccessToast(Completed(payout.payeeName))
  {
    page.ShowModal(payout);
    var _ := page.BeforeUpload(file);
    var none, target;
    none, req, target := page.CompletePayout();
    var refetch;
    toast, refetch := page.CompleteUpload(target.value, Loaded(()));
  }
}
