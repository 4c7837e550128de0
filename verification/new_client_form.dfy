/**
 * The "Add Client" modal: its draft record, the insert payload (the draft
 * sent as it is, plus the user id), and the submit handler as one
 * deterministic step over the replies of the identity provider and the
 * record store. Unlike the project form, this handler has no
 * `try`/`finally`: a rejected call leaves it with loading set.
 */
module NewClientForm {
  import opened Wrappers
  import opened Database
  import opened Form

  /** `formData`: every field as the text the inputs hold. */
  datatype Draft = Draft(
    name: string,
    email: string,
    phone: string,
    company: string,
    status: string,
    notes: string)

  /** The draft the form starts with: status "lead", every other field empty. */
  const InitialDraft := Draft("", "", "", "", "lead", "")

  /** The component's initial state. */
  const Initial := Fresh(InitialDraft)

  /** The error shown when nobody is signed in at submit time. */
  const NotSignedInMessage := "You must be logged in to create a client"

  /** The object sent to the `clients` table: `{ ...formData, user_id }`. */
  datatype Payload = Payload(
    name: string,
    email: string,
    phone: string,
    company: string,
    status: string,
    notes: string,
    userId: string)

  /** The draft's fields unchanged, empty ones included, plus the user id. */
  function BuildPayload(d: Draft, userId: string): (p: Payload)
    ensures p.userId == userId
    ensures DraftOf(p) == d
  {
    Payload(d.name, d.email, d.phone, d.company, d.status, d.notes, userId)
  }

  /** The draft part of a payload. */
  function DraftOf(p: Payload): Draft {
    Draft(p.name, p.email, p.phone, p.company, p.status, p.notes)
  }

  /**
   * The payload as a `clients` row to insert, when its status is one the
   * table accepts. Every optional column is present, the empty string
   * included: nothing is turned into null.
   */
  function AsClientInsert(p: Payload): (r: Option<ClientInsert>)
    ensures r.Some? <==> ParseClientStatus(p.status).Some?
    ensures r.Some? ==> r.value.userId == p.userId && r.value.name == p.name
    ensures r.Some? ==> r.value.email == Some(p.email) && r.value.phone == Some(p.phone)
    ensures r.Some? ==> r.value.company == Some(p.company) && r.value.notes == Some(p.notes)
    ensures r.Some? ==> ClientStatusName(r.value.status) == p.status
  {
    match ParseClientStatus(p.status)
    case None => None
    case Some(st) => Some(ClientInsert(p.userId, p.name, Some(p.email), Some(p.phone), Some(p.company), st, Some(p.notes)))
  }

  /** Whether a submit ends in a stored client. */
  predicate Succeeds(auth: AuthReply, insert: InsertReply) {
    auth.SignedIn? && insert.Inserted?
  }

  /** Whether an awaited call rejects, which the handler does not catch. */
  predicate Rejects(auth: AuthReply, insert: InsertReply) {
    auth.AuthRejected? || (auth.SignedIn? && insert.InsertRejected?)
  }

  /**
   * `handleSubmit`. Loading is set and the error cleared; without a user the
   * error says so; otherwise the payload is inserted, an error reply is
   * shown, and success closes the form and resets the draft. Each handled
   * path clears loading itself; a rejected call ends the handler where it
   * stands, with loading still set.
   */
  function SubmitClient(s: FormState<Draft>, auth: AuthReply, insert: InsertReply): (r: Step<Draft, Payload>)
    ensures r.state.loading <==> Rejects(auth, insert)
    ensures r.sent.Some? <==> auth.SignedIn?
    ensures auth.SignedIn? ==> r.sent == Some(BuildPayload(s.draft, auth.userId))
    ensures Succeeds(auth, insert) ==> r.state == Initial
    ensures !Succeeds(auth, insert) ==> r.state.open == s.open && r.state.draft == s.draft
    ensures r.state.error.None? <==> Succeeds(auth, insert) || Rejects(auth, insert)
    ensures auth.SignedOut? ==> r.state.error == Some(NotSignedInMessage)
    ensures auth.SignedIn? && insert.InsertFailed? ==> r.state.error == Some(insert.message)
  {
    var b := BeginSubmit(s);
    match auth
    case AuthRejected(_) => Quiet(b)
    case SignedOut => Quiet(b.(error := Some(NotSignedInMessage), loading := false))
    case SignedIn(userId) =>
      var p := BuildPayload(b.draft, userId);
      match insert
      case InsertRejected(_) => Step(b, Some(p))
      case InsertFailed(m) => Step(b.(error := Some(m), loading := false), Some(p))
      case Inserted =>
        Step(b.(open := false, draft := Draft("", "", "", "", "lead", ""), loading := false), Some(p))
  }

  /** The outcome of a submit does not depend on the error or loading flag it starts from. */
  lemma SubmitForgetsPriorError(s: FormState<Draft>, error: Option<string>, loading: bool, auth: AuthReply, insert: InsertReply)
    ensures SubmitClient(s.(error := error, loading := loading), auth, insert) == SubmitClient(s, auth, insert)
  {
  }

  /** The field edits of the modal; the status select offers only the three client statuses. */
  datatype Edit =
    | SetCompany(company: string)
    | SetName(name: string)
    | SetEmail(email: string)
    | SetPhone(phone: string)
    | SetStatus(status: ClientStatus)
    | SetNotes(notes: string)

  /**
   * `setFormData({ ...formData, field: value })`: the edited field takes the
   * value, every other field is kept; the status can only become a client status.
   */
  function Apply(d: Draft, e: Edit): (r: Draft)
    ensures e.SetStatus? ==> r.status == ClientStatusName(e.status) && ParseClientStatus(r.status) == Some(e.status)
    ensures !e.SetStatus? ==> r.status == d.status
    ensures e.SetCompany? ==> r.company == e.company
    ensures !e.SetCompany? ==> r.company == d.company
    ensures e.SetName? ==> r.name == e.name
    ensures !e.SetName? ==> r.name == d.name
    ensures e.SetEmail? ==> r.email == e.email
    ensures !e.SetEmail? ==> r.email == d.email
    ensures e.SetPhone? ==> r.phone == e.phone
    ensures !e.SetPhone? ==> r.phone == d.phone
    ensures e.SetNotes? ==> r.notes == e.notes
    ensures !e.SetNotes? ==> r.notes == d.notes
  {
    match e
    case SetCompany(v) => d.(company := v)
    case SetName(v) => d.(name := v)
    case SetEmail(v) => d.(email := v)
    case SetPhone(v) => d.(phone := v)
    case SetStatus(v) => d.(status := ClientStatusName(v))
    case SetNotes(v) => d.(notes := v)
  }

  /** The browser's `required` check: the company name is filled in. */
  function Ready(d: Draft): (r: bool)
    ensures r <==> d.company != ""
    ensures d == InitialDraft ==> !r
  {
    d.company != ""
  }

  /** The component's reaction to one event. Opening and closing keep the draft, the error and the loading flag. */
  function Handle(s: FormState<Draft>, e: Event<Edit>): (r: Step<Draft, Payload>)
    ensures !e.Submit? ==> r.sent.None? && r.state.loading == s.loading && r.state.error == s.error
  {
    match e
    case OpenForm => Quiet(s.(open := true))
    case CloseForm => Quiet(s.(open := false))
    case Change(edit) => Quiet(s.(draft := Apply(s.draft, edit)))
    case Submit(auth, insert) => SubmitClient(s, auth, insert)
  }

  /** The draft status is one of the three client statuses. */
  predicate ValidStatus(d: Draft) {
    ParseClientStatus(d.status).Some?
  }

  /** Whatever happens, a draft with a valid status keeps a valid status. */
  lemma {:induction false} RunKeepsValidStatus(s: FormState<Draft>, es: seq<Event<Edit>>)
    requires ValidStatus(s.draft)
    ensures ValidStatus(Run(Handle, Ready, s, es).state.draft)
    decreases |es|
  {
    if |es| > 0 {
      var e := es[0];
      var r := if Enabled(s, e, Ready) then Handle(s, e) else Quiet(s);
      assert ValidStatus(r.state.draft);
      RunKeepsValidStatus(r.state, es[1..]);
    }
  }

  /**
   * In every reachable state the draft status is one of the three client
   * statuses, so every payload the form sends is a well-formed client row.
   */
  lemma ReachableSendsClientRows(es: seq<Event<Edit>>)
    ensures ValidStatus(Run(Handle, Ready, Initial, es).state.draft)
    ensures forall p :: p in Run(Handle, Ready, Initial, es).sent ==> AsClientInsert(p).Some?
  {
    RunKeepsValidStatus(Initial, es);
    RunSendsClientRows(Initial, es);
  }

  /** Every payload sent from a state with a valid draft status is a well-formed client row. */
  lemma {:induction false} RunSendsClientRows(s: FormState<Draft>, es: seq<Event<Edit>>)
    requires ValidStatus(s.draft)
    ensures forall p :: p in Run(Handle, Ready, s, es).sent ==> AsClientInsert(p).Some?
    decreases |es|
  {
    if |es| > 0 {
      var e := es[0];
      var r := if Enabled(s, e, Ready) then Handle(s, e) else Quiet(s);
      assert r.sent.Some? ==> DraftOf(r.sent.value) == s.draft;
      assert ValidStatus(r.state.draft);
      RunSendsClientRows(r.state, es[1..]);
    }
  }

  /**
   * Once the form is left loading, it stays loading and never sends again:
   * the submit button stays disabled, and nothing in the component clears
   * the flag.
   */
  lemma {:induction false} LoadingIsPermanent(s: FormState<Draft>, es: seq<Event<Edit>>)
    requires s.loading
    ensures Run(Handle, Ready, s, es).state.loading
    ensures Run(Handle, Ready, s, es).sent == []
    decreases |es|
  {
    if |es| > 0 {
      var r := if Enabled(s, es[0], Ready) then Handle(s, es[0]) else Quiet(s);
      assert r.state.loading && r.sent.None?;
      LoadingIsPermanent(r.state, es[1..]);
    }
  }

  /** Filling in the company and submitting into a rejected identity call leaves the form loading for good. */
  lemma RejectionCanBeReached()
    ensures var t := Run(Handle, Ready, Initial, [OpenForm, Change(SetCompany("Acme Inc.")), Submit(AuthRejected("network"), Inserted)]);
      t.state.open && t.state.loading && t.sent == []
  {
  }

  /** Every client the form sends has a company name, as the `required` field demands. */
  lemma {:induction false} RunSendsCompanies(s: FormState<Draft>, es: seq<Event<Edit>>)
    ensures forall p :: p in Run(Handle, Ready, s, es).sent ==> p.company != ""
    decreases |es|
  {
    if |es| > 0 {
      var r := if Enabled(s, es[0], Ready) then Handle(s, es[0]) else Quiet(s);
      assert r.sent.Some? ==> r.sent.value.company != "";
      RunSendsCompanies(r.state, es[1..]);
    }
  }

  /** The form sends at most one client per submit. */
  lemma InsertsOnlyOnSubmit(s: FormState<Draft>, es: seq<Event<Edit>>)
    ensures |Run(Handle, Ready, s, es).sent| <= Submits(es)
  {
    SentAtMostSubmits(Handle, Ready, s, es);
  }

  /**
   * Every client the form sends is stored as a `clients` row with a
   * non-empty company, a client status and no null column, and omitting the
   * columns the store assigns gives back exactly what was sent.
   */
  lemma SentClientsStoreAsRows(es: seq<Event<Edit>>, id: string, createdAt: string, updatedAt: string)
    ensures forall p :: p in Run(Handle, Ready, Initial, es).sent ==>
      AsClientInsert(p).Some? &&
      var c := Stored(AsClientInsert(p).value, id, createdAt, updatedAt);
      c.company == Some(p.company) && p.company != "" && c.email == Some(p.email) &&
      ClientStatusName(c.status) == p.status && InsertPart(c) == AsClientInsert(p).value
  {
    ReachableSendsClientRows(es);
    RunSendsCompanies(Initial, es);
  }
}
