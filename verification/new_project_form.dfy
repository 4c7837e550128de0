/**
 * The "New Project" modal: its draft record, the insert payload built from
 * it, and the submit handler as one deterministic step over the replies of
 * the identity provider and the record store.
 */
module NewProjectForm {
  import opened Wrappers
  import opened Database
  import opened Form
  import ProjectList

  /** `formData`: every field as the text the inputs hold. */
  datatype Draft = Draft(
    name: string,
    description: string,
    clientId: string,
    status: string,
    startDate: string,
    dueDate: string,
    budget: string)

  /** The draft the form starts with: status "planning", every other field empty. */
  const InitialDraft := Draft("", "", "", "planning", "", "", "")

  /** The component's initial state. */
  const Initial := Fresh(InitialDraft)

  /** The error shown when nobody is signed in at submit time. */
  const NotSignedInMessage := "You must be logged in"

  /**
   * The row sent to the `projects` table. Of `budget` only its presence is
   * modelled: the source stores `parseFloat` of the draft's text, a
   * floating-point value this model does not compute.
   */
  datatype Payload = Payload(
    userId: string,
    name: string,
    description: Option<string>,
    clientId: string,
    status: string,
    startDate: Option<string>,
    dueDate: Option<string>,
    hasBudget: bool)

  /**
   * `projectData`: optional text fields become null when empty; budget is
   * added only when non-empty. Every field but the budget can be read back.
   */
  function BuildPayload(d: Draft, userId: string): (p: Payload)
    ensures p.userId == userId
    ensures p.name == d.name && p.clientId == d.clientId && p.status == d.status
    ensures p.description.None? <==> d.description == ""
    ensures p.startDate.None? <==> d.startDate == ""
    ensures p.dueDate.None? <==> d.dueDate == ""
    ensures p.hasBudget <==> d.budget != ""
    ensures FieldsOf(p) == d.(budget := "")
  {
    Payload(userId, d.name, NullIfEmpty(d.description), d.clientId, d.status,
            NullIfEmpty(d.startDate), NullIfEmpty(d.dueDate), d.budget != "")
  }

  /** Reads the text fields back from a payload, a null field as empty text; the budget text is not recoverable. */
  function FieldsOf(p: Payload): Draft {
    Draft(p.name, p.description.GetOr(""), p.clientId, p.status,
          p.startDate.GetOr(""), p.dueDate.GetOr(""), "")
  }

  /** Whether a submit ends in a stored project. */
  predicate Succeeds(auth: AuthReply, insert: InsertReply) {
    auth.SignedIn? && insert.Inserted?
  }

  /**
   * `handleSubmit`. Loading is set and the error cleared; without a user the
   * error says so; otherwise the payload is inserted. A failed or rejected
   * call lands in the `catch`, which shows its message; success closes the
   * form and resets the draft. The `finally` clears loading on every path.
   */
  function SubmitProject(s: FormState<Draft>, auth: AuthReply, insert: InsertReply): (r: Step<Draft, Payload>)
    ensures !r.state.loading
    ensures r.sent.Some? <==> auth.SignedIn?
    ensures auth.SignedIn? ==> r.sent == Some(BuildPayload(s.draft, auth.userId))
    ensures Succeeds(auth, insert) <==> r.state.error.None?
    ensures Succeeds(auth, insert) ==> r.state == Initial
    ensures !Succeeds(auth, insert) ==> r.state.open == s.open && r.state.draft == s.draft
    ensures auth.SignedOut? ==> r.state.error == Some(NotSignedInMessage)
    ensures auth.AuthRejected? ==> r.state.error == Some(auth.message)
    ensures auth.SignedIn? && !insert.Inserted? ==> r.state.error == Some(insert.message)
  {
    var b := BeginSubmit(s);
    var t: Step<Draft, Payload> :=
      match auth
      case SignedOut => Quiet(b.(error := Some(NotSignedInMessage)))
      case AuthRejected(m) => Quiet(b.(error := Some(m)))
      case SignedIn(userId) =>
        var p := BuildPayload(b.draft, userId);
        match insert
        case Inserted => Step(b.(open := false, draft := Draft("", "", "", "planning", "", "", "")), Some(p))
        case InsertFailed(m) => Step(b.(error := Some(m)), Some(p))
        case InsertRejected(m) => Step(b.(error := Some(m)), Some(p));
    Step(t.state.(loading := false), t.sent)
  }

  /** The outcome of a submit does not depend on the error or loading flag it starts from. */
  lemma SubmitForgetsPriorError(s: FormState<Draft>, error: Option<string>, loading: bool, auth: AuthReply, insert: InsertReply)
    ensures SubmitProject(s.(error := error, loading := loading), auth, insert) == SubmitProject(s, auth, insert)
  {
  }

  /** The field edits of the modal; the status select offers only the five project statuses. */
  datatype Edit =
    | SetClient(clientId: string)
    | SetName(name: string)
    | SetDescription(description: string)
    | SetStatus(status: ProjectStatus)
    | SetBudget(budget: string)
    | SetStartDate(startDate: string)
    | SetDueDate(dueDate: string)

  /**
   * `setFormData({ ...formData, field: value })`: the edited field takes the
   * value, every other field is kept; the status can only become a known one.
   */
  function Apply(d: Draft, e: Edit): (r: Draft)
    ensures e.SetStatus? ==> r.status == ProjectStatusName(e.status) && IsProjectStatusName(r.status)
    ensures !e.SetStatus? ==> r.status == d.status
    ensures e.SetName? ==> r.name == e.name
    ensures !e.SetName? ==> r.name == d.name
    ensures e.SetClient? ==> r.clientId == e.clientId
    ensures !e.SetClient? ==> r.clientId == d.clientId
    ensures e.SetDescription? ==> r.description == e.description
    ensures !e.SetDescription? ==> r.description == d.description
    ensures e.SetBudget? ==> r.budget == e.budget
    ensures !e.SetBudget? ==> r.budget == d.budget
    ensures e.SetStartDate? ==> r.startDate == e.startDate
    ensures !e.SetStartDate? ==> r.startDate == d.startDate
    ensures e.SetDueDate? ==> r.dueDate == e.dueDate
    ensures !e.SetDueDate? ==> r.dueDate == d.dueDate
  {
    match e
    case SetClient(v) => d.(clientId := v)
    case SetName(v) => d.(name := v)
    case SetDescription(v) => d.(description := v)
    case SetStatus(v) => d.(status := ProjectStatusName(v))
    case SetBudget(v) => d.(budget := v)
    case SetStartDate(v) => d.(startDate := v)
    case SetDueDate(v) => d.(dueDate := v)
  }

  /** The label of each option of the status select. */
  function OptionLabel(s: ProjectStatus): (r: string)
    ensures |r| == |ProjectStatusName(s)|
    ensures 'A' <= r[0] <= 'Z'
  {
    match s
    case Planning => "Planning"
    case Active => "Active"
    case OnHold => "On Hold"
    case Completed => "Completed"
    case Archived => "Archived"
  }

  /** The project list's status badge reads exactly like the option the status was chosen from. */
  lemma BadgeMatchesOptionLabel(s: ProjectStatus)
    ensures ProjectList.FormatStatus(ProjectStatusName(s)) == OptionLabel(s)
  {
    match s {
      case OnHold =>
        ProjectList.FormatOnHold();
      case _ =>
        var name := ProjectStatusName(s);
        ProjectList.FormatWord(name);
        assert name[1..] == OptionLabel(s)[1..];
    }
  }

  /** The browser's `required` checks: a client is selected and the project has a name. */
  function Ready(d: Draft): (r: bool)
    ensures r <==> d.clientId != "" && d.name != ""
    ensures d == InitialDraft ==> !r
  {
    d.clientId != "" && d.name != ""
  }

  /** The component's reaction to one event. Opening and closing keep the draft and the error. */
  function Handle(s: FormState<Draft>, e: Event<Edit>): (r: Step<Draft, Payload>)
    ensures !e.Submit? ==> r.sent.None? && r.state.loading == s.loading && r.state.error == s.error
    ensures e.Submit? ==> !r.state.loading
  {
    match e
    case OpenForm => Quiet(s.(open := true))
    case CloseForm => Quiet(s.(open := false))
    case Change(edit) => Quiet(s.(draft := Apply(s.draft, edit)))
    case Submit(auth, insert) => SubmitProject(s, auth, insert)
  }

  /** What holds of every state the component can reach: idle, and a known status in the draft. */
  predicate Consistent(s: FormState<Draft>) {
    !s.loading && IsProjectStatusName(s.draft.status)
  }

  /**
   * From any consistent state, whatever the user does and whatever the
   * backend answers, the form stays consistent: it never stays loading, so
   * its submit button is never left disabled, and the draft status is one
   * of the five known ones.
   */
  lemma {:induction false} RunStaysConsistent(s: FormState<Draft>, es: seq<Event<Edit>>)
    requires Consistent(s)
    ensures Consistent(Run(Handle, Ready, s, es).state)
    decreases |es|
  {
    if |es| > 0 {
      var e := es[0];
      var r := if Enabled(s, e, Ready) then Handle(s, e) else Quiet(s);
      assert Consistent(r.state);
      RunStaysConsistent(r.state, es[1..]);
    }
  }

  /** Every state reachable from the initial one is consistent. */
  lemma ReachableConsistent(es: seq<Event<Edit>>)
    ensures Consistent(Run(Handle, Ready, Initial, es).state)
  {
    RunStaysConsistent(Initial, es);
  }

  /** Every project the form sends has a name and a client, as the `required` fields demand. */
  lemma {:induction false} RunSendsNamedProjects(s: FormState<Draft>, es: seq<Event<Edit>>)
    ensures forall p :: p in Run(Handle, Ready, s, es).sent ==> p.name != "" && p.clientId != ""
    decreases |es|
  {
    if |es| > 0 {
      var r := if Enabled(s, es[0], Ready) then Handle(s, es[0]) else Quiet(s);
      assert r.sent.Some? ==> r.sent.value.name != "" && r.sent.value.clientId != "";
      RunSendsNamedProjects(r.state, es[1..]);
    }
  }

  /** The form sends at most one project per submit. */
  lemma InsertsOnlyOnSubmit(s: FormState<Draft>, es: seq<Event<Edit>>)
    ensures |Run(Handle, Ready, s, es).sent| <= Submits(es)
  {
    SentAtMostSubmits(Handle, Ready, s, es);
  }
}
