/**
 * What the two create-record forms share: the component state
 * `(isOpen, loading, error, formData)`, the replies of the identity provider
 * and the record store (taken as inputs, since the calls themselves are
 * foreign), the user events, and the run of a form over a sequence of events.
 */
module Form {
  import opened Wrappers

  /** `isOpen`, `loading`, `error` and the draft record `formData`. */
  datatype FormState<D> = FormState(open: bool, loading: bool, error: Option<string>, draft: D)

  /** A closed, idle form without an error, holding the given draft: how both forms start. */
  function Fresh<D>(draft: D): (s: FormState<D>)
    ensures !s.open && !s.loading && s.error.None? && s.draft == draft
  {
    FormState(false, false, None, draft)
  }

  /**
   * The identity provider's answer to "who is signed in": a user id, nobody,
   * or a rejected call (the awaited promise throws with a message).
   */
  datatype AuthReply = SignedIn(userId: string) | SignedOut | AuthRejected(message: string)

  /**
   * The record store's answer to an insert: success, an error object
   * returned in the reply, or a rejected call.
   */
  datatype InsertReply = Inserted | InsertFailed(message: string) | InsertRejected(message: string)

  /** The state a handled event leaves, and the insert payload it sent, if any. */
  datatype Step<D, P> = Step(state: FormState<D>, sent: Option<P>)

  /** A step that only changes the state. */
  function Quiet<D, P>(s: FormState<D>): (r: Step<D, P>)
    ensures r.state == s && r.sent.None?
  {
    Step(s, None)
  }

  /** The synchronous start of every submit: `setLoading(true); setError(null)`. */
  function BeginSubmit<D>(s: FormState<D>): (b: FormState<D>)
    ensures b.loading && b.error.None?
    ensures b.open == s.open && b.draft == s.draft
  {
    s.(loading := true, error := None)
  }

  /** `value || null`: the empty string becomes null, anything else is kept. */
  function NullIfEmpty(t: string): (r: Option<string>)
    ensures r.None? <==> t == ""
    ensures r.GetOr("") == t
  {
    if t == "" then None else Some(t)
  }

  /** What the user can do: open the modal, close it (X or Cancel), edit a field, submit. */
  datatype Event<E> = OpenForm | CloseForm | Change(edit: E) | Submit(auth: AuthReply, insert: InsertReply)

  /**
   * Whether the event reaches the component: the open button is always
   * there; the close buttons and the fields only while the modal is open;
   * the submit button only while open and not loading, and the browser runs
   * the submit handler only when the draft passes the form's `required`
   * checks (`ready`).
   */
  function Enabled<D, E>(s: FormState<D>, e: Event<E>, ready: D -> bool): (r: bool)
    ensures r && !e.OpenForm? ==> s.open
    ensures e.Submit? ==> (r <==> s.open && !s.loading && ready(s.draft))
  {
    match e
    case OpenForm => true
    case CloseForm => s.open
    case Change(_) => s.open
    case Submit(_, _) => s.open && !s.loading && ready(s.draft)
  }

  /** The final state of a run and the payloads it sent, oldest first. */
  datatype Trace<D, P> = Trace(state: FormState<D>, sent: seq<P>)

  /**
   * Runs a form's event handler over a sequence of events; an event that
   * does not reach the component in the current state does nothing.
   */
  function Run<D, E, P>(handle: (FormState<D>, Event<E>) -> Step<D, P>, ready: D -> bool,
                        s: FormState<D>, es: seq<Event<E>>): (t: Trace<D, P>)
    ensures |t.sent| <= |es|
    decreases |es|
  {
    if |es| == 0 then Trace(s, [])
    else
      var r := if Enabled(s, es[0], ready) then handle(s, es[0]) else Quiet(s);
      var rest := Run(handle, ready, r.state, es[1..]);
      Trace(rest.state, (if r.sent.Some? then [r.sent.value] else []) + rest.sent)
  }

  /**
   * Running `a` then `b` is running `a + b`: events are handled one after
   * another, each from the state the previous ones left, and the payloads
   * come out in the order they were sent.
   */
  lemma {:induction false} RunAppend<D, E, P>(handle: (FormState<D>, Event<E>) -> Step<D, P>, ready: D -> bool,
                                             s: FormState<D>, a: seq<Event<E>>, b: seq<Event<E>>)
    ensures var first := Run(handle, ready, s, a);
      var second := Run(handle, ready, first.state, b);
      Run(handle, ready, s, a + b) == Trace(second.state, first.sent + second.sent)
    decreases |a|
  {
    if |a| == 0 {
      assert a + b == b;
    } else {
      var r := if Enabled(s, a[0], ready) then handle(s, a[0]) else Quiet(s);
      assert (a + b)[0] == a[0];
      assert (a + b)[1..] == a[1..] + b;
      RunAppend(handle, ready, r.state, a[1..], b);
      var out: seq<P> := if r.sent.Some? then [r.sent.value] else [];
      var first := Run(handle, ready, r.state, a[1..]);
      var second := Run(handle, ready, first.state, b);
      assert out + (first.sent + second.sent) == (out + first.sent) + second.sent;
    }
  }

  /** An event that does not reach the component leaves the run as if it had not happened. */
  lemma DisabledEventIgnored<D, E, P>(handle: (FormState<D>, Event<E>) -> Step<D, P>, ready: D -> bool,
                                      s: FormState<D>, e: Event<E>, es: seq<Event<E>>)
    requires !Enabled(s, e, ready)
    ensures Run(handle, ready, s, [e] + es) == Run(handle, ready, s, es)
  {
  }

  /** The number of submit events in a sequence. */
  function Submits<E>(es: seq<Event<E>>): nat {
    if |es| == 0 then 0 else (if es[0].Submit? then 1 else 0) + Submits(es[1..])
  }

  /** A handler in which only a submit sends an insert. */
  ghost predicate SendsOnlyOnSubmit<D(!new), E(!new), P>(handle: (FormState<D>, Event<E>) -> Step<D, P>) {
    forall s: FormState<D>, e: Event<E> :: !e.Submit? ==> handle(s, e).sent.None?
  }

  /** With such a handler, a run sends at most one insert per submit event. */
  lemma {:induction false} SentAtMostSubmits<D(!new), E(!new), P>(handle: (FormState<D>, Event<E>) -> Step<D, P>, ready: D -> bool,
                                                     s: FormState<D>, es: seq<Event<E>>)
    requires SendsOnlyOnSubmit(handle)
    ensures |Run(handle, ready, s, es).sent| <= Submits(es)
    decreases |es|
  {
    if |es| > 0 {
      var r := if Enabled(s, es[0], ready) then handle(s, es[0]) else Quiet(s);
      SentAtMostSubmits(handle, ready, r.state, es[1..]);
    }
  }
}
