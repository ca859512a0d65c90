/** What the CRUD pages share: how a request settles, how a listing settles, and the error text they show. */
module PageState {
  import opened Json

  /** A row as a page receives it in a listing. */
  type Record = Body

  /** How a create, update or delete request settles: resolved, or thrown with a message. */
  datatype ApiReply = Done | Rejected(message: string)

  /** How a listing settles: the decoded array (None when the reply was null), or a thrown message. */
  datatype ListReply = Listed(rows: Option<seq<Record>>) | ListFailed(message: string)

  /** `err.message || fallback`. */
  function ErrorText(message: string, fallback: string): (s: string)
    ensures message != "" ==> s == message
    ensures message == "" ==> s == fallback
    ensures fallback != "" ==> s != ""
  {
    if message != "" then message else fallback
  }

  /** `data || []`. */
  function RowsOrEmpty(rows: Option<seq<Record>>): (r: seq<Record>)
    ensures rows.None? ==> r == []
    ensures rows.Some? ==> r == rows.value
  {
    if rows.Some? then rows.value else []
  }

  /** The literal texts a page shows: the three success messages and the four fallbacks. */
  datatype Labels = Labels(
    created: string, updated: string, deleted: string,
    createFailed: string, updateFailed: string, deleteFailed: string, loadFailed: string)

  /**
   * The state every CRUD page keeps: the listed rows, the error and success
   * banners, the create form, the update form with the id it targets, and the
   * delete id. The pages differ only in their form, the payloads they build
   * from it, the form a successful create resets to, and their texts; those
   * are the constant fields.
   */
  class CrudPage<Form(==)> {
    const labels: Labels
    const createPayload: Form -> Body
    const updatePayload: Form -> Body
    /** What the create form starts as and returns to after a create. */
    const createReset: Form
    /** What the update form starts as and returns to after an update. */
    const updateReset: Form

    var rows: seq<Record>
    var error: string
    var message: string
    var createForm: Form
    var updateId: string
    var updateForm: Form
    var deleteId: string

    /** The first render: nothing listed, no banner, forms at their initial values. */
    constructor (labels: Labels, createPayload: Form -> Body, updatePayload: Form -> Body, createReset: Form, updateReset: Form)
      ensures this.labels == labels && this.createReset == createReset && this.updateReset == updateReset
      ensures forall f :: this.createPayload(f) == createPayload(f) && this.updatePayload(f) == updatePayload(f)
      ensures rows == [] && error == "" && message == ""
      ensures createForm == createReset && updateId == "" && updateForm == updateReset && deleteId == ""
    {
      this.labels, this.createPayload, this.updatePayload := labels, createPayload, updatePayload;
      this.createReset, this.updateReset := createReset, updateReset;
      rows, error, message := [], "", "";
      createForm, updateId, updateForm, deleteId := createReset, "", updateReset, "";
    }

    /** `refresh`: a listing replaces the rows (null as none); a failure sets the error and keeps the rows. */
    method Refresh(listing: ListReply)
      modifies this
      ensures listing.Listed? ==> rows == RowsOrEmpty(listing.rows) && error == old(error)
      ensures listing.ListFailed? ==> rows == old(rows) && error == ErrorText(listing.message, labels.loadFailed)
      ensures message == old(message) && createForm == old(createForm)
      ensures updateId == old(updateId) && updateForm == old(updateForm) && deleteId == old(deleteId)
    {
      match listing {
        case Listed(r) => rows := RowsOrEmpty(r);
        case ListFailed(err) => error := ErrorText(err, labels.loadFailed);
      }
    }

    /**
     * `handleCreate` once the request settled with `reply` and, after a
     * success, the listing it triggers settled with `listing`. Returns the
     * payload it sent. The banners are cleared before the request.
     */
    method HandleCreate(reply: ApiReply, listing: ListReply) returns (sent: Body)
      modifies this
      ensures sent == createPayload(old(createForm))
      ensures updateId == old(updateId) && updateForm == old(updateForm) && deleteId == old(deleteId)
      ensures reply.Done? ==>
                && message == labels.created && createForm == createReset
                && (listing.Listed? ==> rows == RowsOrEmpty(listing.rows) && error == "")
                && (listing.ListFailed? ==> rows == old(rows) && error == ErrorText(listing.message, labels.loadFailed))
      ensures reply.Rejected? ==>
                && error == ErrorText(reply.message, labels.createFailed) && message == ""
                && createForm == old(createForm) && rows == old(rows)
    {
      error, message := "", "";
      sent := createPayload(createForm);
      match reply {
        case Done =>
          message := labels.created;
          createForm := createReset;
          Refresh(listing);
        case Rejected(err) =>
          error := ErrorText(err, labels.createFailed);
      }
    }

    /** `handleUpdate`: sends the update payload to the id typed in the update form. */
    method HandleUpdate(reply: ApiReply, listing: ListReply) returns (id: string, sent: Body)
      modifies this
      ensures id == old(updateId) && sent == updatePayload(old(updateForm))
      ensures createForm == old(createForm) && deleteId == old(deleteId)
      ensures reply.Done? ==>
                && message == labels.updated && updateId == "" && updateForm == updateReset
                && (listing.Listed? ==> rows == RowsOrEmpty(listing.rows) && error == "")
                && (listing.ListFailed? ==> rows == old(rows) && error == ErrorText(listing.message, labels.loadFailed))
      ensures reply.Rejected? ==>
                && error == ErrorText(reply.message, labels.updateFailed) && message == ""
                && updateId == old(updateId) && updateForm == old(updateForm) && rows == old(rows)
    {
      error, message := "", "";
      sent := updatePayload(updateForm);
      id := updateId;
      match reply {
        case Done =>
          message := labels.updated;
          updateId, updateForm := "", updateReset;
          Refresh(listing);
        case Rejected(err) =>
          error := ErrorText(err, labels.updateFailed);
      }
    }

    /** `handleDelete`: the id input is cleared only when the delete succeeded. */
    method HandleDelete(reply: ApiReply, listing: ListReply) returns (id: string)
      modifies this
      ensures id == old(deleteId)
      ensures createForm == old(createForm) && updateId == old(updateId) && updateForm == old(updateForm)
      ensures reply.Done? ==>
                && message == labels.deleted && deleteId == ""
                && (listing.Listed? ==> rows == RowsOrEmpty(listing.rows) && error == "")
                && (listing.ListFailed? ==> rows == old(rows) && error == ErrorText(listing.message, labels.loadFailed))
      ensures reply.Rejected? ==>
                && error == ErrorText(reply.message, labels.deleteFailed) && message == ""
                && deleteId == old(deleteId) && rows == old(rows)
    {
      error, message := "", "";
      id := deleteId;
      match reply {
        case Done =>
          message := labels.deleted;
          deleteId := "";
          Refresh(listing);
        case Rejected(err) =>
          error := ErrorText(err, labels.deleteFailed);
      }
    }
  }
}
