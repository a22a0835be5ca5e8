/** The client list page: its in-memory state (loaded list, visible list,
    filters, modal and selection) and the handlers that create, edit and
    delete clients through the backend and then reload the whole list. */
module ClientListing {
  import opened ClientTypes
  import opened Sequences
  import opened ClientFilter
  import opened ClientForm

  /** No two records share an `id`. */
  predicate UniqueIds(rows: seq<Client>)
  {
    forall i, j :: 0 <= i < j < |rows| ==> rows[i].id != rows[j].id
  }

  function Ids(rows: seq<Client>): set<string>
  {
    set c | c in rows :: c.id
  }

  /** The row the backend stores for an inserted form: the form's fields as
      they are (an empty string stays an empty string, it does not become null),
      the identifier and timestamps the backend assigns, and the creator. */
  function InsertedRow(f: ClientFormData, createdBy: Option<string>, id: string, now: string): Client
  {
    Client(
      id := id, full_name := f.full_name, email := Some(f.email), phone := f.phone,
      document_type := f.document_type, document_number := f.document_number,
      address := Some(f.address), service_type := f.service_type, plan := Some(f.plan),
      status := f.status, registration_date := now, last_contact := Some(f.last_contact),
      notes := f.notes, created_by := createdBy, created_at := now, updated_at := now)
  }

  /** `{...formData, updated_at: now}` written over an existing row. */
  function UpdatedRow(row: Client, f: ClientFormData, now: string): Client
  {
    row.(
      full_name := f.full_name, email := Some(f.email), phone := f.phone,
      document_type := f.document_type, document_number := f.document_number,
      address := Some(f.address), service_type := f.service_type, plan := Some(f.plan),
      status := f.status, last_contact := Some(f.last_contact), notes := f.notes,
      updated_at := now)
  }

  /** `update(...).eq('id', id)`: every row with that id is rewritten; no row matching is not an error. */
  function UpdateWhere(rows: seq<Client>, id: string, f: ClientFormData, now: string): (r: seq<Client>)
    ensures |r| == |rows|
    ensures forall i :: 0 <= i < |rows| ==> r[i].id == rows[i].id
  {
    seq(|rows|, i requires 0 <= i < |rows| => if rows[i].id == id then UpdatedRow(rows[i], f, now) else rows[i])
  }

  function IdIsNot(id: string): Client -> bool
  {
    (c: Client) => c.id != id
  }

  /** `delete().eq('id', id)`: every row with that id goes, the others stay in order. */
  function DeleteWhere(rows: seq<Client>, id: string): (r: seq<Client>)
    ensures forall c :: c in r ==> c in rows && c.id != id
    ensures forall c :: c in rows && c.id != id ==> c in r
  {
    Filter(IdIsNot(id), rows)
  }

  /** An update rewrites only the rows with the given id, keeps every server-owned
      field of theirs except `updated_at`, and leaves the other rows alone. */
  lemma UpdateWhereSpec(rows: seq<Client>, id: string, f: ClientFormData, now: string, i: nat)
    requires i < |rows|
    ensures var r := UpdateWhere(rows, id, f, now);
      && (rows[i].id != id ==> r[i] == rows[i])
      && (rows[i].id == id ==>
            && r[i].registration_date == rows[i].registration_date
            && r[i].created_by == rows[i].created_by
            && r[i].created_at == rows[i].created_at
            && r[i].updated_at == now
            && FormFromClient(r[i]) == f.(last_contact := DatePart(f.last_contact)))
  {
  }

  /** An inserted row carries the backend's id, the creator it was stamped with,
      and every form field exactly as the form held it: an empty field is stored
      as "", never as null. */
  lemma InsertedRowFields(f: ClientFormData, createdBy: Option<string>, id: string, now: string, name: string)
    ensures var r := InsertedRow(f, createdBy, id, now);
      && r.id == id && r.created_by == createdBy
      && (name in FormFieldNames ==> ClientGet(r, name) == FormGet(f, name))
      && (name in FormFieldNames ==> ClientGet(r, name) != Some(Null))
  {
  }

  /** An updated row stores every form field exactly as the form held it, stamps
      `updated_at`, and keeps every other property of the old row. */
  lemma UpdatedRowFields(row: Client, f: ClientFormData, now: string, name: string)
    ensures var r := UpdatedRow(row, f, now);
      && (name in FormFieldNames ==> ClientGet(r, name) == FormGet(f, name))
      && (name !in FormFieldNames && name != "updated_at" ==> ClientGet(r, name) == ClientGet(row, name))
      && r.updated_at == now
  {
  }

  /** Reopening a saved form shows the form that was saved, exactly when its date holds no 'T'. */
  lemma SaveThenEditRoundTrip(row: Client, f: ClientFormData, createdBy: Option<string>, id: string, now: string)
    ensures FormFromClient(UpdatedRow(row, f, now)) == f <==> 'T' !in f.last_contact
    ensures FormFromClient(InsertedRow(f, createdBy, id, now)) == f <==> 'T' !in f.last_contact
  {
    LastContactFieldSpec(Some(f.last_contact));
  }

  /** Saving an edit form unchanged writes the row back as it was (but for
      `updated_at`) exactly when none of its optional fields is null and its
      `last_contact` holds no 'T'; a null becomes "" and a timestamp its date. */
  lemma UnchangedEditRoundTrip(row: Client, now: string)
    ensures UpdatedRow(row, FormFromClient(row), now) == row.(updated_at := now)
        <==> && row.email.Some? && row.address.Some? && row.plan.Some?
             && row.last_contact.Some? && 'T' !in row.last_contact.value
  {
    LastContactFieldSpec(row.last_contact);
  }

  /** Every kept element of a sequence without repeated ids keeps its distinct id. */
  lemma {:induction false} FilterKeepsUniqueIds(p: Client -> bool, rows: seq<Client>)
    requires UniqueIds(rows)
    ensures UniqueIds(Filter(p, rows))
  {
    FilterEmbeds(p, rows);
    var f, r := FilterIndices(p, rows), Filter(p, rows);
    forall i, j | 0 <= i < j < |r| ensures r[i].id != r[j].id {
      assert r[i] == rows[f[i]] && r[j] == rows[f[j]] && f[i] < f[j];
    }
  }

  /** Deleting by id leaves no row with that id and keeps ids unique. */
  lemma DeleteWhereSpec(rows: seq<Client>, id: string)
    requires UniqueIds(rows)
    ensures UniqueIds(DeleteWhere(rows, id))
    ensures id !in Ids(DeleteWhere(rows, id))
    ensures Ids(DeleteWhere(rows, id)) == Ids(rows) - {id}
    ensures IsSubsequence(DeleteWhere(rows, id), rows)
  {
    FilterKeepsUniqueIds(IdIsNot(id), rows);
    FilterIsSubsequence(IdIsNot(id), rows);
  }

  /** Updating by id changes no id, so ids stay unique. */
  lemma UpdateWhereKeepsIds(rows: seq<Client>, id: string, f: ClientFormData, now: string)
    requires UniqueIds(rows)
    ensures UniqueIds(UpdateWhere(rows, id, f, now))
    ensures Ids(UpdateWhere(rows, id, f, now)) == Ids(rows)
  {
    var r := UpdateWhere(rows, id, f, now);
    forall x | x in Ids(r) ensures x in Ids(rows) {
      var i :| 0 <= i < |r| && r[i].id == x;
      assert rows[i] in rows;
    }
    forall x | x in Ids(rows) ensures x in Ids(r) {
      var i :| 0 <= i < |rows| && rows[i].id == x;
      assert r[i] in r;
    }
  }

  /** Inserting a row with a fresh id keeps ids unique. */
  lemma AppendFreshKeepsUniqueIds(rows: seq<Client>, row: Client)
    requires UniqueIds(rows) && row.id !in Ids(rows)
    ensures UniqueIds(rows + [row])
    ensures Ids(rows + [row]) == Ids(rows) + {row.id}
  {
    forall i | 0 <= i < |rows| ensures rows[i].id != row.id {
      assert rows[i] in rows;
    }
  }

  /** A request the page sends to the backend. */
  datatype Call = SelectCall | InsertCall(row: Client) | UpdateCall(id: string, form: ClientFormData, now: string) | DeleteCall(id: string)

  /** The backend's `clients` table as this page sees it: the rows, in the
      order a `select` returns them, and the log of requests received. Each
      request takes an outcome `ok`; a failed request changes no row. */
  class ClientTable {
    var rows: seq<Client>
    var calls: seq<Call>

    ghost predicate Valid()
      reads this
    {
      UniqueIds(rows)
    }

    constructor (rows: seq<Client>)
      requires UniqueIds(rows)
      ensures Valid() && this.rows == rows && calls == []
    {
      this.rows := rows;
      calls := [];
    }

    /** `select('*')`: all rows, or an error. */
    method SelectAll(ok: bool) returns (data: Option<seq<Client>>)
      modifies this`calls
      ensures calls == old(calls) + [SelectCall]
      ensures data == if ok then Some(rows) else None
    {
      calls := calls + [SelectCall];
      data := if ok then Some(rows) else None;
    }

    /** `insert([{...formData, created_by}])`; the backend picks the fresh id `newId` and the time `now`. */
    method Insert(f: ClientFormData, createdBy: Option<string>, newId: string, now: string, ok: bool) returns (failed: bool)
      requires Valid() && newId !in Ids(rows)
      modifies this
      ensures Valid()
      ensures calls == old(calls) + [InsertCall(InsertedRow(f, createdBy, newId, now))]
      ensures failed == !ok
      ensures rows == if ok then old(rows) + [InsertedRow(f, createdBy, newId, now)] else old(rows)
    {
      var row := InsertedRow(f, createdBy, newId, now);
      calls := calls + [InsertCall(row)];
      failed := !ok;
      if ok {
        AppendFreshKeepsUniqueIds(rows, row);
        rows := rows + [row];
      }
    }

    /** `update({...formData, updated_at: now}).eq('id', id)`. */
    method Update(id: string, f: ClientFormData, now: string, ok: bool) returns (failed: bool)
      requires Valid()
      modifies this
      ensures Valid()
      ensures calls == old(calls) + [UpdateCall(id, f, now)]
      ensures failed == !ok
      ensures rows == if ok then UpdateWhere(old(rows), id, f, now) else old(rows)
    {
      calls := calls + [UpdateCall(id, f, now)];
      failed := !ok;
      if ok {
        UpdateWhereKeepsIds(rows, id, f, now);
        rows := UpdateWhere(rows, id, f, now);
      }
    }

    /** `delete().eq('id', id)`. */
    method Delete(id: string, ok: bool) returns (failed: bool)
      requires Valid()
      modifies this
      ensures Valid()
      ensures calls == old(calls) + [DeleteCall(id)]
      ensures failed == !ok
      ensures rows == if ok then DeleteWhere(old(rows), id) else old(rows)
    {
      calls := calls + [DeleteCall(id)];
      failed := !ok;
      if ok {
        DeleteWhereSpec(rows, id);
        rows := DeleteWhere(rows, id);
      }
    }
  }

  /** The state of the client list page. `filteredClients` is recomputed from
      the loaded list and the three criteria after every change to them. */
  class ClientList {
    /** `user?.id` of the signed-in user, stamped on inserted rows. */
    const user: Option<string>
    var clients: seq<Client>
    var filteredClients: seq<Client>
    var loading: bool
    var showModal: bool
    var selectedClient: Option<Client>
    var searchTerm: string
    var statusFilter: string
    var serviceFilter: string

    ghost predicate Valid()
      reads this
    {
      && UniqueIds(clients)
      && filteredClients == FilterClients(clients, searchTerm, statusFilter, serviceFilter)
    }

    /** The page as first rendered: nothing loaded, no criteria, no modal. */
    constructor (user: Option<string>)
      ensures Valid()
      ensures this.user == user
      ensures clients == [] && filteredClients == [] && loading
      ensures !showModal && selectedClient == None
      ensures searchTerm == "" && statusFilter == All && serviceFilter == All
    {
      this.user := user;
      clients, filteredClients, loading := [], [], true;
      showModal, selectedClient := false, None;
      searchTerm, statusFilter, serviceFilter := "", All, All;
    }

    /** `loadClients`: on success the whole list is replaced by the table's rows;
        on failure the error is logged and the list stays as it was. */
    method LoadClients(db: ClientTable, ok: bool)
      requires Valid() && db.Valid()
      modifies this`clients, this`filteredClients, this`loading, db`calls
      ensures Valid()
      ensures db.calls == old(db.calls) + [SelectCall]
      ensures clients == if ok then db.rows else old(clients)
      ensures !loading
    {
      var data := db.SelectAll(ok);
      if data.Some? {
        clients := data.value;
      }
      loading := false;
      filteredClients := FilterClients(clients, searchTerm, statusFilter, serviceFilter);
    }

    /** The search box changed. */
    method SetSearchTerm(term: string)
      requires Valid()
      modifies this`searchTerm, this`filteredClients
      ensures Valid() && searchTerm == term
    {
      searchTerm := term;
      filteredClients := FilterClients(clients, searchTerm, statusFilter, serviceFilter);
    }

    /** The status select changed. */
    method SetStatusFilter(value: string)
      requires Valid()
      modifies this`statusFilter, this`filteredClients
      ensures Valid() && statusFilter == value
    {
      statusFilter := value;
      filteredClients := FilterClients(clients, searchTerm, statusFilter, serviceFilter);
    }

    /** The service select changed. */
    method SetServiceFilter(value: string)
      requires Valid()
      modifies this`serviceFilter, this`filteredClients
      ensures Valid() && serviceFilter == value
    {
      serviceFilter := value;
      filteredClients := FilterClients(clients, searchTerm, statusFilter, serviceFilter);
    }

    /** `handleEdit`: open the modal on an existing client. */
    method HandleEdit(c: Client)
      modifies this`selectedClient, this`showModal
      ensures selectedClient == Some(c) && showModal
    {
      selectedClient := Some(c);
      showModal := true;
    }

    /** `handleNew`: open the modal on a blank form. */
    method HandleNew()
      modifies this`selectedClient, this`showModal
      ensures selectedClient == None && showModal
    {
      selectedClient := None;
      showModal := true;
    }

    /** `handleCloseModal`: close the modal and forget the selection; no backend request. */
    method HandleCloseModal()
      modifies this`selectedClient, this`showModal
      ensures selectedClient == None && !showModal
    {
      showModal := false;
      selectedClient := None;
    }

    /** `handleSave`: update the selected client's row, or insert a new row
        stamped with the user, then reload and close the modal. A failed write
        is rethrown (`threw`) with nothing reloaded and the modal state kept; a
        failed reload is swallowed by `loadClients` and the modal still closes. */
    method HandleSave(db: ClientTable, formData: ClientFormData, newId: string, now: string, writeOk: bool, reloadOk: bool)
      returns (threw: bool)
      requires Valid() && db.Valid()
      requires selectedClient.None? ==> newId !in Ids(db.rows)
      modifies this`clients, this`filteredClients, this`loading, this`showModal, this`selectedClient, db
      ensures Valid() && db.Valid()
      ensures threw == !writeOk
      ensures db.calls == old(db.calls)
        + [if old(selectedClient).Some? then UpdateCall(old(selectedClient).value.id, formData, now)
           else InsertCall(InsertedRow(formData, user, newId, now))]
        + (if writeOk then [SelectCall] else [])
      ensures db.rows ==
        if !writeOk then old(db.rows)
        else if old(selectedClient).Some? then UpdateWhere(old(db.rows), old(selectedClient).value.id, formData, now)
        else old(db.rows) + [InsertedRow(formData, user, newId, now)]
      ensures !writeOk ==>
        && clients == old(clients) && loading == old(loading)
        && showModal == old(showModal) && selectedClient == old(selectedClient)
      ensures writeOk ==>
        && clients == (if reloadOk then db.rows else old(clients))
        && !loading && !showModal && selectedClient == None
    {
      var failed;
      if selectedClient.Some? {
        failed := db.Update(selectedClient.value.id, formData, now, writeOk);
      } else {
        failed := db.Insert(formData, user, newId, now, writeOk);
      }
      if failed {
        return true;
      }
      LoadClients(db, reloadOk);
      showModal := false;
      selectedClient := None;
      threw := false;
    }

    /** `handleDelete`: nothing at all unless the user confirms; then delete
        the row and, only if that succeeded, reload. */
    method HandleDelete(db: ClientTable, id: string, confirmed: bool, deleteOk: bool, reloadOk: bool)
      requires Valid() && db.Valid()
      modifies this`clients, this`filteredClients, this`loading, db
      ensures Valid() && db.Valid()
      ensures !confirmed ==>
        && db.calls == old(db.calls) && db.rows == old(db.rows)
        && clients == old(clients) && loading == old(loading)
      ensures confirmed && !deleteOk ==>
        && db.calls == old(db.calls) + [DeleteCall(id)]
        && db.rows == old(db.rows) && clients == old(clients) && loading == old(loading)
      ensures confirmed && deleteOk ==>
        && db.calls == old(db.calls) + [DeleteCall(id), SelectCall]
        && db.rows == DeleteWhere(old(db.rows), id)
        && clients == (if reloadOk then db.rows else old(clients))
        && !loading
      ensures confirmed && deleteOk && reloadOk ==> id !in Ids(clients)
    {
      if !confirmed {
        return;
      }
      var failed := db.Delete(id, deleteOk);
      if failed {
        return;
      }
      LoadClients(db, reloadOk);
      DeleteWhereSpec(old(db.rows), id);
    }

    /** The modal's `handleSubmit` wired to `onSave = handleSave` and
        `onClose = handleCloseModal`: the busy flag is up while the save runs
        and down afterwards; the modal closes only if the save succeeded. The
        page renders the modal only while `showModal` holds, on the selected client. */
    method SubmitModal(modal: ClientModal, db: ClientTable, newId: string, now: string, writeOk: bool, reloadOk: bool)
      returns (closeCalled: bool, ghost loadingWhileSaving: bool)
      requires Valid() && db.Valid()
      requires selectedClient.None? ==> newId !in Ids(db.rows)
      requires showModal && modal.client == selectedClient
      modifies this`clients, this`filteredClients, this`loading, this`showModal, this`selectedClient, db, modal`loading
      ensures Valid() && db.Valid()
      ensures loadingWhileSaving && !modal.loading
      ensures modal.formData == old(modal.formData)
      ensures closeCalled == writeOk
      ensures db.calls == old(db.calls)
        + [if old(selectedClient).Some? then UpdateCall(old(selectedClient).value.id, old(modal.formData), now)
           else InsertCall(InsertedRow(old(modal.formData), user, newId, now))]
        + (if writeOk then [SelectCall] else [])
      ensures db.rows ==
        if !writeOk then old(db.rows)
        else if old(selectedClient).Some? then UpdateWhere(old(db.rows), old(selectedClient).value.id, old(modal.formData), now)
        else old(db.rows) + [InsertedRow(old(modal.formData), user, newId, now)]
      ensures !writeOk ==>
        && showModal == old(showModal) && selectedClient == old(selectedClient)
        && clients == old(clients) && loading == old(loading)
      ensures writeOk ==>
        && clients == (if reloadOk then db.rows else old(clients))
        && !loading && !showModal && selectedClient == None
    {
      var submitted := modal.BeginSubmit();
      var threw := HandleSave(db, submitted, newId, now, writeOk, reloadOk);
      // `HandleSave` cannot write `modal`, so the flag read here is the one it saw while saving.
      loadingWhileSaving := modal.loading;
      closeCalled := modal.EndSubmit(threw);
      if closeCalled {
        HandleCloseModal();
      }
    }
  }
}
