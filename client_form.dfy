/** The create/edit form of a client: its default contents, how an existing
    client is projected onto it, single-field updates, and the busy flag held
    while a submission is pending. */
module ClientForm {
  import opened ClientTypes

  /** The form a new client starts from. */
  function DefaultForm(): ClientFormData
  {
    ClientFormData(
      full_name := "", email := "", phone := "", document_type := "DNI",
      document_number := "", address := "", service_type := "", plan := "",
      status := Active, last_contact := "", notes := "")
  }

  /** Every field of the default form is empty except `document_type` ("DNI") and `status` ("Active"). */
  lemma DefaultFormFields(name: string)
    requires name in FormFieldNames
    ensures FormGet(DefaultForm(), name)
         == Some(Text(if name == "document_type" then "DNI" else if name == "status" then "Active" else ""))
  {
  }

  /** `value || ''` on a nullable string. */
  function OrEmpty(o: Option<string>): string
  {
    if Truthy(o) then o.value else ""
  }

  /** `s.split('T')[0]`: the text before the first 'T', or all of `s` when it holds none. */
  function DatePart(s: string): (r: string)
    ensures r <= s
    ensures 'T' !in r
    ensures |r| < |s| ==> s[|r|] == 'T'
  {
    if s == [] || s[0] == 'T' then [] else [s[0]] + DatePart(s[1..])
  }

  /** The three properties above determine `DatePart` completely. */
  lemma {:induction false} DatePartUnique(s: string, r: string)
    requires r <= s && 'T' !in r && (|r| < |s| ==> s[|r|] == 'T')
    ensures r == DatePart(s)
  {
    var d := DatePart(s);
    assert r == s[..|r|] && d == s[..|d|];
  }

  /** A timestamp is cut down to its date; a text without 'T' is left alone. */
  lemma DatePartExamples()
    ensures DatePart("2024-03-15T00:00:00Z") == "2024-03-15"
    ensures DatePart("2024-03-15") == "2024-03-15"
  {
    DatePartUnique("2024-03-15T00:00:00Z", "2024-03-15");
    DatePartUnique("2024-03-15", "2024-03-15");
  }

  /** `last_contact ? last_contact.split('T')[0] : ''`. */
  function LastContactField(o: Option<string>): string
  {
    if Truthy(o) then DatePart(o.value) else ""
  }

  /** The form's date is empty for a missing or empty value, and otherwise the
      prefix of the stored value before its first 'T'. */
  lemma LastContactFieldSpec(o: Option<string>)
    ensures !Truthy(o) ==> LastContactField(o) == ""
    ensures o.Some? ==> LastContactField(o) <= o.value
    ensures 'T' !in LastContactField(o)
    ensures o.Some? && 'T' !in o.value ==> LastContactField(o) == o.value
    ensures o.Some? && |LastContactField(o)| < |o.value| ==> o.value[|LastContactField(o)|] == 'T'
  {
    if o.Some? && 'T' !in o.value {
      DatePartUnique(o.value, o.value);
    }
  }

  /** The form that editing client `c` starts from. */
  function FormFromClient(c: Client): ClientFormData
  {
    ClientFormData(
      full_name := c.full_name,
      email := OrEmpty(c.email),
      phone := c.phone,
      document_type := c.document_type,
      document_number := c.document_number,
      address := OrEmpty(c.address),
      service_type := c.service_type,
      plan := OrEmpty(c.plan),
      status := c.status,
      last_contact := LastContactField(c.last_contact),
      notes := c.notes)
  }

  const CopiedFields: set<string> :=
    {"full_name", "phone", "document_type", "document_number", "service_type", "status", "notes"}

  const EmptiedWhenNullFields: set<string> := {"email", "address", "plan"}

  /** Field by field, the edit form copies the client's non-null fields, turns
      a null `email`, `address` or `plan` into "", and keeps the date part of `last_contact`. */
  lemma FormFromClientFields(c: Client, name: string)
    ensures name in CopiedFields ==> FormGet(FormFromClient(c), name) == ClientGet(c, name)
    ensures name in EmptiedWhenNullFields ==>
      FormGet(FormFromClient(c), name)
        == Some(Text(match ClientGet(c, name).value case Null => "" case Text(v) => v))
    ensures name == "last_contact" ==> FormGet(FormFromClient(c), name) == Some(Text(LastContactField(c.last_contact)))
    ensures FormGet(FormFromClient(c), name).Some? <==> name in CopiedFields + EmptiedWhenNullFields + {"last_contact"}
  {
  }

  /** The edit form cannot tell a null optional field from an empty one. */
  lemma FormForgetsNullVersusEmpty(c: Client)
    ensures FormFromClient(c.(email := None)) == FormFromClient(c.(email := Some("")))
    ensures FormFromClient(c.(address := None)) == FormFromClient(c.(address := Some("")))
    ensures FormFromClient(c.(plan := None)) == FormFromClient(c.(plan := Some("")))
    ensures FormFromClient(c.(last_contact := None)) == FormFromClient(c.(last_contact := Some("")))
  {
  }

  /** The form a modal opens with: the client's projection when editing, the default form otherwise. */
  function InitialForm(client: Option<Client>): ClientFormData
  {
    match client
    case Some(c) => FormFromClient(c)
    case None => DefaultForm()
  }

  /** The value a form field can be set to: the `status` select offers only the three status names. */
  predicate SettableField(name: string, value: string)
  {
    name in FormFieldNames && (name == "status" ==> ParseStatus(value).Some?)
  }

  /** `{...formData, [name]: value}`. */
  function FormSet(f: ClientFormData, name: string, value: string): ClientFormData
    requires SettableField(name, value)
  {
    if name == "full_name" then f.(full_name := value)
    else if name == "email" then f.(email := value)
    else if name == "phone" then f.(phone := value)
    else if name == "document_type" then f.(document_type := value)
    else if name == "document_number" then f.(document_number := value)
    else if name == "address" then f.(address := value)
    else if name == "service_type" then f.(service_type := value)
    else if name == "plan" then f.(plan := value)
    else if name == "status" then f.(status := ParseStatus(value).value)
    else if name == "last_contact" then f.(last_contact := value)
    else f.(notes := value)
  }

  /** Setting a field gives it the new value and leaves every other field as it was. */
  lemma FormSetSpec(f: ClientFormData, name: string, value: string, other: string)
    requires SettableField(name, value)
    ensures FormGet(FormSet(f, name, value), name) == Some(Text(value))
    ensures other != name ==> FormGet(FormSet(f, name, value), other) == FormGet(f, other)
  {
  }

  /** Setting a field to the value it holds changes nothing. */
  lemma FormSetCurrentValue(f: ClientFormData, name: string)
    requires name in FormFieldNames
    ensures SettableField(name, FormGet(f, name).value.text)
    ensures FormSet(f, name, FormGet(f, name).value.text) == f
  {
    StatusNameRoundTrip(f.status);
  }

  /** Of two changes to the same field, the later one wins. */
  lemma FormSetLastWins(f: ClientFormData, name: string, v: string, w: string)
    requires SettableField(name, v) && SettableField(name, w)
    ensures FormSet(FormSet(f, name, v), name, w) == FormSet(f, name, w)
  {
  }

  /** The modal's state: the form being edited and the busy flag of a pending save. */
  class ClientModal {
    const client: Option<Client>
    var formData: ClientFormData
    var loading: bool

    /** Opens the modal: the default form, replaced by the client's projection when a client is given. */
    constructor (client: Option<Client>)
      ensures this.client == client
      ensures formData == InitialForm(client)
      ensures !loading
    {
      this.client := client;
      loading := false;
      formData := DefaultForm();
      if client.Some? {
        formData := FormFromClient(client.value);
      }
    }

    /** `handleChange`: one input changed. */
    method HandleChange(name: string, value: string)
      requires SettableField(name, value)
      modifies this
      ensures formData == FormSet(old(formData), name, value)
      ensures loading == old(loading)
    {
      formData := FormSet(formData, name, value);
    }

    /** First half of `handleSubmit`: the busy flag goes up and the form is handed to `onSave`. */
    method BeginSubmit() returns (submitted: ClientFormData)
      modifies this`loading
      ensures loading
      ensures submitted == formData
    {
      loading := true;
      submitted := formData;
    }

    /** Second half of `handleSubmit`, once `onSave` has settled: `onClose` is
        called only when the save did not throw, and the busy flag always goes down. */
    method EndSubmit(saveThrew: bool) returns (closeCalled: bool)
      requires loading
      modifies this`loading
      ensures !loading
      ensures closeCalled == !saveThrew
    {
      closeCalled := !saveThrew;
      loading := false;
    }
  }
}
