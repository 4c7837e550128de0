/**
 * The presentation logic of the project list: the status filter, the counts
 * on the filter buttons, the status badge (colour and label), the shortened
 * description, the client label, and the choice between the empty state and
 * the table.
 */
module ProjectList {
  import opened Wrappers
  import opened Database
  import opened Strings

  /** The filter value that shows every project; it is also the initial filter. */
  const AllFilter := "all"

  /** The longest description shown in full. */
  const DescriptionLimit := 60

  /** What an absent client or due date is shown as. */
  const Placeholder := "—"

  // ---------------------------------------------------------------- filter

  /** `projects.filter(p => p.status === status)`. */
  function WithStatus(ps: seq<Project>, status: string): (r: seq<Project>)
    ensures |r| <= |ps|
    ensures forall p :: p in r <==> p in ps && p.status == status
  {
    if |ps| == 0 then []
    else (if ps[0].status == status then [ps[0]] else []) + WithStatus(ps[1..], status)
  }

  /** The projects the table shows under the selected filter. */
  function Visible(ps: seq<Project>, filter: string): (r: seq<Project>)
    ensures filter == AllFilter ==> r == ps
    ensures filter != AllFilter ==> forall p :: p in r <==> p in ps && p.status == filter
    ensures |r| <= |ps|
  {
    if filter == AllFilter then ps else WithStatus(ps, filter)
  }

  /** `sub` is `s` with some elements removed and the rest kept in order. */
  predicate IsSubsequence<T(==)>(sub: seq<T>, s: seq<T>)
    decreases |s|
  {
    if |sub| == 0 then true
    else if |s| == 0 then false
    else if sub[0] == s[0] then IsSubsequence(sub[1..], s[1..])
    else IsSubsequence(sub, s[1..])
  }

  /** Filtering distributes over concatenation, so it keeps the input order. */
  lemma {:induction false} WithStatusAppend(a: seq<Project>, b: seq<Project>, status: string)
    ensures WithStatus(a + b, status) == WithStatus(a, status) + WithStatus(b, status)
  {
    if |a| == 0 {
      assert a + b == b;
    } else {
      assert (a + b)[1..] == a[1..] + b;
      assert (a + b)[0] == a[0];
      WithStatusAppend(a[1..], b, status);
    }
  }

  /** The kept projects are a subsequence of the input. */
  lemma {:induction false} WithStatusIsSubsequence(ps: seq<Project>, status: string)
    ensures IsSubsequence(WithStatus(ps, status), ps)
  {
    if |ps| > 0 {
      WithStatusIsSubsequence(ps[1..], status);
      var rest := WithStatus(ps[1..], status);
      if ps[0].status == status {
        assert WithStatus(ps, status) == [ps[0]] + rest;
        assert ([ps[0]] + rest)[1..] == rest;
      } else {
        assert WithStatus(ps, status) == rest;
        SubsequenceDropFront(rest, ps);
      }
    }
  }

  /** A subsequence of the tail of `s` is a subsequence of `s`. */
  lemma {:induction false} SubsequenceDropFront<T>(sub: seq<T>, s: seq<T>)
    requires |s| > 0
    requires IsSubsequence(sub, s[1..])
    ensures IsSubsequence(sub, s)
    decreases |s|, 1
  {
    if |sub| > 0 && sub[0] == s[0] {
      SubsequenceOfTail(sub, s[1..]);
    }
  }

  /** Removing the head of a nonempty subsequence keeps it a subsequence. */
  lemma {:induction false} SubsequenceOfTail<T>(sub: seq<T>, s: seq<T>)
    requires |sub| > 0
    requires IsSubsequence(sub, s)
    ensures IsSubsequence(sub[1..], s)
    decreases |s| + 1, 0
  {
    if sub[0] == s[0] {
      SubsequenceDropFront(sub[1..], s);
    } else {
      SubsequenceOfTail(sub, s[1..]);
      SubsequenceDropFront(sub[1..], s);
    }
  }

  /** Every project with the status is kept as often as it occurs; no other project is kept. */
  lemma {:induction false} WithStatusCounts(ps: seq<Project>, status: string)
    ensures forall p: Project :: p.status == status ==> multiset(WithStatus(ps, status))[p] == multiset(ps)[p]
    ensures forall p: Project :: p.status != status ==> multiset(WithStatus(ps, status))[p] == 0
  {
    if |ps| > 0 {
      WithStatusCounts(ps[1..], status);
      assert ps == [ps[0]] + ps[1..];
      assert multiset(ps) == multiset([ps[0]]) + multiset(ps[1..]);
    }
  }

  /**
   * Under any filter other than "all" the table shows exactly the projects
   * with that status: in the input order, none dropped, none added.
   */
  lemma VisibleIsExactFilter(ps: seq<Project>, filter: string)
    requires filter != AllFilter
    ensures IsSubsequence(Visible(ps, filter), ps)
    ensures forall p: Project :: p.status == filter ==> multiset(Visible(ps, filter))[p] == multiset(ps)[p]
    ensures forall p: Project :: p.status != filter ==> multiset(Visible(ps, filter))[p] == 0
  {
    WithStatusIsSubsequence(ps, filter);
    WithStatusCounts(ps, filter);
  }

  /** A list in which every project has the status is kept whole. */
  lemma {:induction false} WithStatusKeepsMatching(ps: seq<Project>, status: string)
    requires forall i :: 0 <= i < |ps| ==> ps[i].status == status
    ensures WithStatus(ps, status) == ps
  {
    if |ps| > 0 {
      WithStatusKeepsMatching(ps[1..], status);
      assert [ps[0]] + ps[1..] == ps;
    }
  }

  /** Applying a status filter to an already filtered list changes nothing. */
  lemma WithStatusIdempotent(ps: seq<Project>, status: string)
    ensures WithStatus(WithStatus(ps, status), status) == WithStatus(ps, status)
  {
    var once := WithStatus(ps, status);
    assert forall i :: 0 <= i < |once| ==> once[i] in once;
    WithStatusKeepsMatching(once, status);
  }

  /** Re-selecting the same filter leaves the visible list as it is. */
  lemma VisibleIdempotent(ps: seq<Project>, filter: string)
    ensures Visible(Visible(ps, filter), filter) == Visible(ps, filter)
  {
    if filter != AllFilter {
      WithStatusIdempotent(ps, filter);
    }
  }

  // ---------------------------------------------------------------- counts

  /** The positions of the projects with the given status: an independent way to count them. */
  function Positions(ps: seq<Project>, status: string): set<nat> {
    set i: nat | i < |ps| && ps[i].status == status
  }

  /** Appending one project adds its position exactly when it has the status. */
  lemma PositionsSnoc(init: seq<Project>, last: Project, status: string)
    ensures Positions(init + [last], status)
      == Positions(init, status) + (if last.status == status then {|init|} else {})
  {
  }

  /** The number of kept projects equals the number of positions holding that status. */
  lemma {:induction false} WithStatusLength(ps: seq<Project>, status: string)
    ensures |WithStatus(ps, status)| == |Positions(ps, status)|
    decreases |ps|
  {
    if |ps| == 0 {
      assert Positions(ps, status) == {};
    } else {
      var init := ps[..|ps| - 1];
      var last := ps[|ps| - 1];
      assert ps == init + [last];
      WithStatusAppend(init, [last], status);
      WithStatusLength(init, status);
      PositionsSnoc(init, last, status);
      assert |init| !in Positions(init, status);
    }
  }

  /** Two different statuses are never both kept from one project, so their counts add up to at most the total. */
  lemma {:induction false} WithStatusDisjointBound(ps: seq<Project>, a: string, b: string)
    requires a != b
    ensures |WithStatus(ps, a)| + |WithStatus(ps, b)| <= |ps|
  {
    if |ps| > 0 {
      WithStatusDisjointBound(ps[1..], a, b);
    }
  }

  /** The numbers shown on the three filter buttons. */
  datatype FilterCounts = FilterCounts(all: nat, active: nat, completed: nat)

  /** `projects.length` and the two `projects.filter(...).length` button counts. */
  function Counts(ps: seq<Project>): (r: FilterCounts)
    ensures r.all == |ps| == |Visible(ps, AllFilter)|
    ensures r.active == |Visible(ps, "active")| == |Positions(ps, "active")|
    ensures r.completed == |Visible(ps, "completed")| == |Positions(ps, "completed")|
    ensures r.active + r.completed <= r.all
  {
    WithStatusLength(ps, "active");
    WithStatusLength(ps, "completed");
    WithStatusDisjointBound(ps, "active", "completed");
    FilterCounts(|ps|, |WithStatus(ps, "active")|, |WithStatus(ps, "completed")|)
  }

  // ---------------------------------------------------------------- status badge

  /** The badge of the "planning" status. */
  const PlanningBadge := "bg-gray-100 text-gray-800"

  /** The five badge styles a status can be shown in. */
  const BadgeStyles: set<string> := {
    "bg-gray-100 text-gray-800", "bg-green-100 text-green-800", "bg-yellow-100 text-yellow-800",
    "bg-blue-100 text-blue-800", "bg-gray-100 text-gray-500"}

  /** `getStatusColor`: the badge classes for a status; unknown statuses look like "planning". */
  function StatusColor(status: string): (r: string)
    ensures r in BadgeStyles
    ensures !IsProjectStatusName(status) ==> r == PlanningBadge
  {
    match status
    case "planning" => "bg-gray-100 text-gray-800"
    case "active" => "bg-green-100 text-green-800"
    case "on-hold" => "bg-yellow-100 text-yellow-800"
    case "completed" => "bg-blue-100 text-blue-800"
    case "archived" => "bg-gray-100 text-gray-500"
    case _ => "bg-gray-100 text-gray-800"
  }

  /**
   * Every string gets a badge; a status outside the five known ones gets the
   * "planning" badge, and the five known statuses get five different badges.
   */
  lemma StatusColorTotal()
    ensures forall t :: !IsProjectStatusName(t) ==> StatusColor(t) == StatusColor("planning")
    ensures forall s, u: ProjectStatus ::
      StatusColor(ProjectStatusName(s)) == StatusColor(ProjectStatusName(u)) ==> s == u
  {
  }

  /**
   * The status rewritten in one left-to-right pass: a `-` becomes a space and
   * the character that opens a word is upper-cased. `atStart` says whether
   * the first character opens a word.
   */
  function TitleScan(s: string, atStart: bool): (r: string)
    ensures |r| == |s|
  {
    if |s| == 0 then []
    else if s[0] == '-' then [' '] + TitleScan(s[1..], true)
    else [if atStart then UpperAscii(s[0]) else s[0]] + TitleScan(s[1..], false)
  }

  /** What the scan makes of the character at position `i`. */
  function TitleChar(s: string, i: nat, atStart: bool): char
    requires i < |s|
  {
    if s[i] == '-' then ' '
    else if (if i == 0 then atStart else s[i - 1] == '-') then UpperAscii(s[i])
    else s[i]
  }

  /** The scan, position by position: a `-` becomes a space, a word's first character is upper-cased. */
  lemma {:induction false} TitleScanAt(s: string, atStart: bool)
    ensures forall i :: 0 <= i < |s| ==> TitleScan(s, atStart)[i] == TitleChar(s, i, atStart)
  {
    if |s| > 0 {
      var next := s[0] == '-';
      TitleScanAt(s[1..], next);
      var r := TitleScan(s, atStart);
      forall i | 0 < i < |s|
        ensures r[i] == TitleChar(s, i, atStart)
      {
        assert r[i] == TitleScan(s[1..], next)[i - 1];
        assert TitleChar(s[1..], i - 1, next) == TitleChar(s, i, atStart);
      }
    }
  }

  /**
   * `formatStatus`: split on `-`, capitalise each word, join with a space.
   * Character by character: every `-` becomes a space, a letter at the start
   * or after a `-` is upper-cased, everything else is kept.
   */
  function FormatStatus(status: string): (r: string)
    ensures |r| == |status|
    ensures '-' !in r
    ensures forall i :: 0 <= i < |status| ==>
      r[i] == (if status[i] == '-' then ' '
               else if i == 0 || status[i - 1] == '-' then UpperAscii(status[i])
               else status[i])
  {
    var words := Split(status, '-');
    FormatIsScan(status, true);
    TitleScanAt(status, true);
    assert [Capitalize(words[0])] + CapitalizeAll(words[1..]) == CapitalizeAll(words);
    var r := Join(CapitalizeAll(words), " ");
    assert forall i :: 0 <= i < |r| ==> r[i] == TitleChar(status, i, true) != '-';
    r
  }

  /** Capitalises the word if it opens the status. */
  function CapitalizeIf(w: string, first: bool): string {
    if first then Capitalize(w) else w
  }

  /** Split-map-join agrees with the one-pass scan. */
  lemma {:induction false} FormatIsScan(s: string, atStart: bool)
    ensures var ws := Split(s, '-');
      Join([CapitalizeIf(ws[0], atStart)] + CapitalizeAll(ws[1..]), " ") == TitleScan(s, atStart)
  {
    var ws := Split(s, '-');
    if |s| == 0 {
      assert ws == [""];
    } else {
      var rest := Split(s[1..], '-');
      FormatIsScan(s[1..], s[0] == '-');
      if s[0] == '-' {
        assert ws == [""] + rest;
        assert ws[1..] == rest;
        assert CapitalizeAll(rest) == [CapitalizeIf(rest[0], true)] + CapitalizeAll(rest[1..]);
        var tail := CapitalizeAll(ws[1..]);
        assert |tail| >= 1;
        assert Join([CapitalizeIf(ws[0], atStart)] + tail, " ") == "" + " " + Join(tail, " ");
      } else {
        var c := if atStart then UpperAscii(s[0]) else s[0];
        assert ws == [[s[0]] + rest[0]] + rest[1..];
        assert ws[1..] == rest[1..];
        assert CapitalizeIf(ws[0], atStart) == [c] + CapitalizeIf(rest[0], false);
        var tail := CapitalizeAll(rest[1..]);
        JoinConsFirst(c, rest[0], tail, " ");
      }
    }
  }

  /** Prefixing the first word prefixes the joined string. */
  lemma JoinConsFirst(c: char, w: string, tail: seq<string>, sep: string)
    ensures Join([[c] + w] + tail, sep) == [c] + Join([w] + tail, sep)
  {
  }

  /** The example of the status select: "on-hold" is shown as "On Hold". */
  lemma FormatOnHold()
    ensures FormatStatus("on-hold") == "On Hold"
  {
  }

  /** A status without `-` is one word, shown with its first letter upper-cased. */
  lemma FormatWord(w: string)
    requires |w| > 0 && '-' !in w
    ensures FormatStatus(w) == [UpperAscii(w[0])] + w[1..]
  {
    var r := FormatStatus(w);
    forall i | 0 < i < |w|
      ensures r[i] == w[i]
    {
      assert w[i] in w && w[i - 1] in w;
    }
    assert w[0] in w;
  }

  // ---------------------------------------------------------------- row cells

  /** The description as displayed: up to 60 characters in full, longer ones cut to 60 plus "...". */
  function Shorten(d: string): (r: string)
    ensures |d| <= DescriptionLimit ==> r == d
    ensures |d| > DescriptionLimit ==> |r| == DescriptionLimit + 3 && r[..DescriptionLimit] == d[..DescriptionLimit] && r[DescriptionLimit..] == "..."
  {
    if |d| > DescriptionLimit then d[..DescriptionLimit] + "..." else d
  }

  /** Shortening a shortened description changes nothing. */
  lemma ShortenIdempotent(d: string)
    ensures Shorten(Shorten(d)) == Shorten(d)
    ensures |Shorten(d)| <= DescriptionLimit + 3
  {
  }

  /** The description line under the name: absent when the description is null or empty. */
  function DescriptionLine(p: Project): (r: Option<string>)
    ensures r.Some? <==> Truthy(p.description)
    ensures r.Some? ==> r.value == Shorten(p.description.value)
  {
    if Truthy(p.description) then Some(Shorten(p.description.value)) else None
  }

  /** The client cell: `clients?.company || clients?.name || "—"`. */
  function ClientLabel(p: Project): (r: string)
    ensures r != ""
    ensures p.clients.Some? && Truthy(p.clients.value.company) ==> r == p.clients.value.company.value
    ensures p.clients.Some? && !Truthy(p.clients.value.company) && p.clients.value.name != "" ==> r == p.clients.value.name
    ensures (p.clients.None? || DisplayName(p.clients.value) == "") ==> r == Placeholder
  {
    match p.clients
    case None => Placeholder
    case Some(c) => if DisplayName(c) != "" then DisplayName(c) else Placeholder
  }

  /** One table row; the due date is kept as stored (its locale rendering is not modelled). */
  datatype Row = Row(
    id: string,
    name: string,
    description: Option<string>,
    client: string,
    statusLabel: string,
    statusColor: string,
    dueDate: Option<string>)

  function RowOf(p: Project): (r: Row)
    ensures r.id == p.id && r.name == p.name
    ensures r.description == DescriptionLine(p)
    ensures r.client == ClientLabel(p)
    ensures r.statusLabel == FormatStatus(p.status)
    ensures r.statusColor == StatusColor(p.status)
    ensures r.dueDate.Some? <==> Truthy(p.dueDate)
    ensures Truthy(p.dueDate) ==> r.dueDate == p.dueDate
  {
    Row(p.id, p.name, DescriptionLine(p), ClientLabel(p), FormatStatus(p.status), StatusColor(p.status),
        if Truthy(p.dueDate) then p.dueDate else None)
  }

  // ---------------------------------------------------------------- the view

  /** What the component renders: the empty state, or the filter buttons and the table. */
  datatype View = EmptyState | Table(counts: FilterCounts, rows: seq<Row>)

  function Render(ps: seq<Project>, filter: string): (r: View)
    ensures r.EmptyState? <==> |ps| == 0
    ensures r.Table? ==> r.counts == Counts(ps)
    ensures r.Table? ==> |r.rows| == |Visible(ps, filter)|
    ensures r.Table? ==> forall i :: 0 <= i < |r.rows| ==> r.rows[i] == RowOf(Visible(ps, filter)[i])
  {
    if |ps| == 0 then EmptyState
    else
      var shown := Visible(ps, filter);
      Table(Counts(ps), seq(|shown|, i requires 0 <= i < |shown| => RowOf(shown[i])))
  }

  /** A nonempty list whose filter matches nothing shows the table with no rows, not the empty state. */
  lemma NoMatchShowsEmptyTable(ps: seq<Project>, filter: string)
    requires |ps| > 0 && filter != AllFilter
    requires forall i :: 0 <= i < |ps| ==> ps[i].status != filter
    ensures Render(ps, filter).Table? && Render(ps, filter).rows == []
  {
  }
}
