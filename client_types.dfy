/** The client record as the backend stores it, and the all-string projection
    that the create/edit form holds. A nullable field is an `Option<string>`. */
module ClientTypes {

  datatype Option<+T> = None | Some(value: T)

  /** JavaScript truthiness of a nullable string: neither `null` nor empty. */
  predicate Truthy(o: Option<string>)
  {
    o.Some? && o.value != ""
  }

  /** The three values of the `status` column. */
  datatype Status = Active | Inactive | Suspended

  /** A record of the `clients` table. */
  datatype Client = Client(
    id: string,
    full_name: string,
    email: Option<string>,
    phone: string,
    document_type: string,
    document_number: string,
    address: Option<string>,
    service_type: string,
    plan: Option<string>,
    status: Status,
    registration_date: string,
    last_contact: Option<string>,
    notes: string,
    created_by: Option<string>,
    created_at: string,
    updated_at: string)

  /** The editable subset of a client, every field a string. */
  datatype ClientFormData = ClientFormData(
    full_name: string,
    email: string,
    phone: string,
    document_type: string,
    document_number: string,
    address: string,
    service_type: string,
    plan: string,
    status: Status,
    last_contact: string,
    notes: string)

  /** A property value as JavaScript sees it: a string or `null`. */
  datatype FieldValue = Text(text: string) | Null

  /** The string a status is written as. */
  function StatusName(s: Status): string
  {
    match s
    case Active => "Active"
    case Inactive => "Inactive"
    case Suspended => "Suspended"
  }

  /** The status a string names, if any. */
  function ParseStatus(name: string): (r: Option<Status>)
    ensures r.Some? ==> StatusName(r.value) == name
  {
    if name == "Active" then Some(Active)
    else if name == "Inactive" then Some(Inactive)
    else if name == "Suspended" then Some(Suspended)
    else None
  }

  lemma StatusNameRoundTrip(s: Status)
    ensures ParseStatus(StatusName(s)) == Some(s)
    ensures StatusName(s) in {"Active", "Inactive", "Suspended"}
  {
  }

  function Nullable(o: Option<string>): FieldValue
  {
    match o
    case Some(v) => Text(v)
    case None => Null
  }

  const ClientFieldNames: set<string> :=
    {"id", "full_name", "email", "phone", "document_type", "document_number", "address",
     "service_type", "plan", "status", "registration_date", "last_contact", "notes",
     "created_by", "created_at", "updated_at"}

  const FormFieldNames: set<string> :=
    {"full_name", "email", "phone", "document_type", "document_number", "address",
     "service_type", "plan", "status", "last_contact", "notes"}

  /** The fields the backend assigns and the form never carries. */
  const ServerAssignedFields: set<string> :=
    {"id", "registration_date", "created_by", "created_at", "updated_at"}

  const NullableClientFields: set<string> :=
    {"email", "address", "plan", "last_contact", "created_by"}

  /** `client[name]`: the value of the property called `name`, or `None` when there is no such property. */
  function ClientGet(c: Client, name: string): Option<FieldValue>
  {
    if name == "id" then Some(Text(c.id))
    else if name == "full_name" then Some(Text(c.full_name))
    else if name == "email" then Some(Nullable(c.email))
    else if name == "phone" then Some(Text(c.phone))
    else if name == "document_type" then Some(Text(c.document_type))
    else if name == "document_number" then Some(Text(c.document_number))
    else if name == "address" then Some(Nullable(c.address))
    else if name == "service_type" then Some(Text(c.service_type))
    else if name == "plan" then Some(Nullable(c.plan))
    else if name == "status" then Some(Text(StatusName(c.status)))
    else if name == "registration_date" then Some(Text(c.registration_date))
    else if name == "last_contact" then Some(Nullable(c.last_contact))
    else if name == "notes" then Some(Text(c.notes))
    else if name == "created_by" then Some(Nullable(c.created_by))
    else if name == "created_at" then Some(Text(c.created_at))
    else if name == "updated_at" then Some(Text(c.updated_at))
    else None
  }

  /** `formData[name]`: the value of the form field called `name`, or `None` when there is no such field. */
  function FormGet(f: ClientFormData, name: string): Option<FieldValue>
  {
    if name == "full_name" then Some(Text(f.full_name))
    else if name == "email" then Some(Text(f.email))
    else if name == "phone" then Some(Text(f.phone))
    else if name == "document_type" then Some(Text(f.document_type))
    else if name == "document_number" then Some(Text(f.document_number))
    else if name == "address" then Some(Text(f.address))
    else if name == "service_type" then Some(Text(f.service_type))
    else if name == "plan" then Some(Text(f.plan))
    else if name == "status" then Some(Text(StatusName(f.status)))
    else if name == "last_contact" then Some(Text(f.last_contact))
    else if name == "notes" then Some(Text(f.notes))
    else None
  }

  /** A client has exactly the listed properties, and only the five nullable
      ones can hold `null`; `status` is always one of the three names. */
  lemma ClientShape(c: Client, name: string)
    ensures ClientGet(c, name).Some? <==> name in ClientFieldNames
    ensures ClientGet(c, name) == Some(Null) ==> name in NullableClientFields
    ensures name == "status" ==> ClientGet(c, name).value.text in {"Active", "Inactive", "Suspended"}
  {
  }

  /** A form has exactly the client's properties minus the server-assigned ones,
      and none of them is ever `null`. */
  lemma FormShape(f: ClientFormData, name: string)
    ensures FormGet(f, name).Some? <==> name in ClientFieldNames - ServerAssignedFields
    ensures FormGet(f, name).Some? ==> FormGet(f, name).value.Text?
    ensures name == "status" ==> FormGet(f, name).value.text in {"Active", "Inactive", "Suspended"}
  {
  }

  /** The form-field names are the client-field names without the server-assigned ones. */
  lemma FormFieldsAreClientFieldsMinusServer()
    ensures FormFieldNames == ClientFieldNames - ServerAssignedFields
    ensures NullableClientFields <= ClientFieldNames && "notes" !in NullableClientFields
  {
  }
}
