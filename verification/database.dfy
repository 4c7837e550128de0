/**
 * Row shapes of the hosted record store as the application sees them: the
 * `clients` table, the `projects` rows joined with their client, and the two
 * status enumerations the forms offer.
 */
module Database {
  import opened Wrappers

  /** The three statuses a client row may carry. */
  datatype ClientStatus = Active | Inactive | Lead

  /** The string stored in the `status` column for a client status. */
  function ClientStatusName(s: ClientStatus): string {
    match s
    case Active => "active"
    case Inactive => "inactive"
    case Lead => "lead"
  }

  /** Reads a stored client status; `None` for any string outside the enumeration. */
  function ParseClientStatus(t: string): (r: Option<ClientStatus>)
    ensures r.Some? ==> ClientStatusName(r.value) == t
    ensures forall s: ClientStatus :: ClientStatusName(s) == t ==> r == Some(s)
  {
    if t == "active" then Some(ClientStatus.Active)
    else if t == "inactive" then Some(Inactive)
    else if t == "lead" then Some(Lead)
    else None
  }

  /** A row of the `clients` table; nullable columns are `Option`s. */
  datatype Client = Client(
    id: string,
    userId: string,
    name: string,
    email: Option<string>,
    phone: Option<string>,
    company: Option<string>,
    status: ClientStatus,
    notes: Option<string>,
    createdAt: string,
    updatedAt: string)

  /** The insertable part of a client row: everything but the system-assigned columns. */
  datatype ClientInsert = ClientInsert(
    userId: string,
    name: string,
    email: Option<string>,
    phone: Option<string>,
    company: Option<string>,
    status: ClientStatus,
    notes: Option<string>)

  /** `ClientInsert`, `Omit<Client, "id" | "created_at" | "updated_at">`: a row without its system-assigned columns. */
  function InsertPart(c: Client): (r: ClientInsert)
    ensures Stored(r, c.id, c.createdAt, c.updatedAt) == c
  {
    ClientInsert(c.userId, c.name, c.email, c.phone, c.company, c.status, c.notes)
  }

  /** The row the store keeps for an insert, once it assigns the id and the timestamps. */
  function Stored(ins: ClientInsert, id: string, createdAt: string, updatedAt: string): (c: Client)
    ensures c.id == id && c.createdAt == createdAt && c.updatedAt == updatedAt
  {
    Client(id, ins.userId, ins.name, ins.email, ins.phone, ins.company, ins.status, ins.notes, createdAt, updatedAt)
  }

  /** The five project statuses the new-project form offers. */
  datatype ProjectStatus = Planning | Active | OnHold | Completed | Archived

  /** The string stored in the `status` column for a project status. */
  function ProjectStatusName(s: ProjectStatus): string {
    match s
    case Planning => "planning"
    case Active => "active"
    case OnHold => "on-hold"
    case Completed => "completed"
    case Archived => "archived"
  }

  /** Holds of exactly the stored strings of the five project statuses. */
  predicate IsProjectStatusName(t: string) {
    t in {"planning", "active", "on-hold", "completed", "archived"}
  }

  /** Every project status is stored as one of the five known strings, and no two share one. */
  lemma ProjectStatusNames()
    ensures forall s: ProjectStatus :: IsProjectStatusName(ProjectStatusName(s))
    ensures forall s, u: ProjectStatus :: ProjectStatusName(s) == ProjectStatusName(u) ==> s == u
  {
  }

  /** The joined client columns a project row carries, and the client choices of the project form. */
  datatype ClientRef = ClientRef(id: string, name: string, company: Option<string>)

  /** A project row as the project list receives it, joined with its client (or `None`). */
  datatype Project = Project(
    id: string,
    name: string,
    description: Option<string>,
    status: string,
    dueDate: Option<string>,
    clients: Option<ClientRef>)

  /** JavaScript truthiness of a nullable string: present and non-empty. */
  predicate Truthy(t: Option<string>) {
    t.Some? && t.value != ""
  }

  /** The name shown for a client: the company when truthy, else the contact name (`company || name`). */
  function DisplayName(c: ClientRef): (r: string)
    ensures Truthy(c.company) ==> r == c.company.value
    ensures !Truthy(c.company) ==> r == c.name
    ensures r == "" <==> !Truthy(c.company) && c.name == ""
  {
    if Truthy(c.company) then c.company.value else c.name
  }
}
