/** The owner's list of `src/pages/MyVehicles.jsx`: the guarded load, and the
    two-step delete (open the confirmation modal on an id, then confirm or
    cancel). */
module MyVehicles {
  import opened Wrappers
  import opened Domain
  import opened Seqs
  import Api

  const DeletedMessage: string := "Vehicle deleted successfully!"
  const DeleteFailedMessage: string := "Failed to delete vehicle"

  /** `deleteModal`: whether it shows, and the id it holds (`null` as `None`). */
  datatype Modal = Modal(show: bool, id: Option<string>)

  function ClosedModal(): Modal { Modal(false, None) }

  datatype Page = Page(vehicles: seq<Vehicle>, loading: bool, modal: Modal)

  function InitialPage(): Page {
    Page([], true, ClosedModal())
  }

  /** The load is issued only when the user has an email. */
  function LoadCall(session: Session): (c: Option<Api.Call>)
    ensures c.Some? <==> HasEmail(session)
    ensures c.Some? ==> c.value == Api.Get("/my-vehicles/" + session.value.email)
  {
    if HasEmail(session) then Some(Api.Get("/my-vehicles/" + session.value.email)) else None
  }

  function OnLoaded(p: Page, data: seq<Vehicle>): (r: Page)
    ensures r.vehicles == data && !r.loading && r.modal == p.modal
  {
    p.(vehicles := data, loading := false)
  }

  function OnLoadFailed(p: Page): (r: Page)
    ensures r.vehicles == p.vehicles && !r.loading && r.modal == p.modal
  {
    p.(loading := false)
  }

  /** With no email nothing is fetched and the spinner stays. */
  lemma NoEmailKeepsLoading(session: Session)
    requires !HasEmail(session)
    ensures LoadCall(session).None? && InitialPage().loading
  {
  }

  /** `handleDelete(id)`. */
  function OpenDelete(p: Page, id: string): (r: Page)
    ensures r.modal == Modal(true, Some(id)) && r.vehicles == p.vehicles && r.loading == p.loading
  {
    p.(modal := Modal(true, Some(id)))
  }

  /** The Cancel button. */
  function CancelDelete(p: Page): (r: Page)
    ensures r.modal == ClosedModal() && r.vehicles == p.vehicles && r.loading == p.loading
  {
    p.(modal := ClosedModal())
  }

  /** The text of `${deleteModal.id}`: a `null` id prints as "null". */
  function IdText(id: Option<string>): (t: string)
    ensures id.Some? ==> t == id.value
    ensures id.None? ==> t == "null"
  {
    id.GetOr("null")
  }

  /** What the `confirmDelete` closure captured when the Delete button was
      pressed: the modal's id and the list as it was then. */
  datatype PendingDelete = PendingDelete(id: Option<string>, snapshot: seq<Vehicle>)

  /** `confirmDelete`: the request it issues, and what its callbacks will use
      when the request settles. Nothing on the page changes yet. */
  function ConfirmDelete(p: Page): (r: (Api.Call, PendingDelete))
    ensures r.0.options.verb == Some("DELETE") && r.0.options.body.None?
    ensures p.modal.id.Some? ==> r.0.endpoint == "/vehicles/" + p.modal.id.value
    ensures p.modal.id.None? ==> r.0.endpoint == "/vehicles/null"
    ensures r.1.id == p.modal.id && r.1.snapshot == p.vehicles
  {
    (Api.Delete("/vehicles/" + IdText(p.modal.id)), PendingDelete(p.modal.id, p.vehicles))
  }

  /** `v._id !== deleteModal.id`. */
  function KeepsOther(id: Option<string>): Vehicle -> bool {
    (v: Vehicle) => id.None? || v.id != id.value
  }

  /** The delete settled on page state `p`: on success the list becomes the
      captured list without the captured id, whatever happened to the page in
      between; either way the modal closes. */
  function OnDeleteSettled(p: Page, pending: PendingDelete, succeeded: bool): (r: (Page, Notice))
    ensures r.0.modal == ClosedModal() && r.0.loading == p.loading
    ensures !succeeded ==> r.0.vehicles == p.vehicles && r.1 == Alert(DeleteFailedMessage)
    ensures succeeded ==> r.1 == Confirm(DeletedMessage)
    ensures succeeded ==> IsSubsequence(r.0.vehicles, pending.snapshot)
    ensures succeeded && pending.id.Some? ==>
              && (forall i :: 0 <= i < |r.0.vehicles| ==> r.0.vehicles[i].id != pending.id.value)
              && (forall i :: 0 <= i < |pending.snapshot| && pending.snapshot[i].id != pending.id.value
                    ==> pending.snapshot[i] in r.0.vehicles)
  {
    if succeeded then
      FilterIsSubsequence(pending.snapshot, KeepsOther(pending.id));
      (p.(vehicles := Filter(pending.snapshot, KeepsOther(pending.id)), modal := ClosedModal()), Confirm(DeletedMessage))
    else
      (p.(modal := ClosedModal()), Alert(DeleteFailedMessage))
  }

  /** Count of vehicles carrying a given id. */
  function CountId(vs: seq<Vehicle>, id: string): nat {
    if |vs| == 0 then 0 else (if vs[0].id == id then 1 else 0) + CountId(vs[1..], id)
  }

  lemma {:induction false} RemovedExactly(vs: seq<Vehicle>, id: string)
    ensures |Filter(vs, KeepsOther(Some(id)))| == |vs| - CountId(vs, id)
    decreases |vs|
  {
    if |vs| > 0 {
      RemovedExactly(vs[1..], id);
    }
  }

  /** Open on an id, then confirm successfully: exactly the vehicles with that id leave the list. */
  lemma OpenThenConfirm(p: Page, id: string)
    ensures var (call, pending) := ConfirmDelete(OpenDelete(p, id));
            var r := OnDeleteSettled(OpenDelete(p, id), pending, true).0;
            && |r.vehicles| == |p.vehicles| - CountId(p.vehicles, id)
            && call.endpoint == "/vehicles/" + id
            && r.modal == ClosedModal()
  {
    RemovedExactly(p.vehicles, id);
  }

  /** Cancel pressed while the request is in flight closes the modal at once,
      but a successful reply still removes the vehicle: the callbacks use the
      id captured at confirmation, not the cleared modal. */
  lemma CancelWhilePending(p: Page, id: string)
    ensures var (call, pending) := ConfirmDelete(OpenDelete(p, id));
            var cancelled := CancelDelete(OpenDelete(p, id));
            var r := OnDeleteSettled(cancelled, pending, true).0;
            && cancelled.modal.id.None?
            && call.endpoint == "/vehicles/" + id
            && |r.vehicles| == |p.vehicles| - CountId(p.vehicles, id)
            && forall i :: 0 <= i < |r.vehicles| ==> r.vehicles[i].id != id
  {
    RemovedExactly(p.vehicles, id);
  }

  /** Open then cancel restores the closed modal and leaves the list alone. */
  lemma OpenThenCancel(p: Page, id: string)
    ensures CancelDelete(OpenDelete(p, id)) == p.(modal := ClosedModal())
  {
  }
}
