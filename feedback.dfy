/** The rules of backend/routes/feedback.js: what a new feedback needs and gets by default, how an
    admin's PATCH moves it between open and resolved, who sees which feedback, and how the
    statistics count resolved items. Storage is left out: stored feedback is a `Feedback` object
    or a list of `Row` snapshots. */
module Feedback {
  import opened Text
  import J = Json
  import opened Http

  /** Statuses that mark a feedback as resolved, and statuses that reopen it. */
  predicate IsResolving(status: string) {
    status == "resolved" || status == "closed"
  }

  predicate IsReopening(status: string) {
    status == "pending" || status == "reviewing" || status == "in_progress"
  }

  // ---------------------------------------------------------------- create

  /** The check `!v || !v.trim()` on a required text field. */
  datatype TextCheck = Missing | NotText | Present(text: string)

  function RequiredText(v: J.Json): (r: TextCheck)
    ensures r.Missing? <==> !J.JsTruthy(v) || (v.Str? && Trim(v.s) == "")
    ensures r.NotText? <==> J.JsTruthy(v) && !v.Str?
    ensures r.Present? ==> v.Str? && r.text == Trim(v.s) && r.text != "" && Trimmed(r.text)
  {
    if !J.JsTruthy(v) then Missing
    else if !v.Str? then NotText
    else if Trim(v.s) == "" then Missing
    else
      TrimIdempotent(v.s);
      Present(Trim(v.s))
  }

  /** `v || fallback` for an optional text field; None for a value the text column refuses. */
  function TextOr(v: J.Json, fallback: string): (r: Option<string>)
    ensures !J.JsTruthy(v) ==> r == Some(fallback)
    ensures J.JsTruthy(v) && v.Str? ==> r == Some(v.s)
    ensures J.JsTruthy(v) && !v.Str? ==> r.None?
  {
    if !J.JsTruthy(v) then Some(fallback)
    else if v.Str? then Some(v.s)
    else None
  }

  datatype NewFeedback = NewFeedback(title: string, category: string, description: string, priority: string)

  /** POST /feedback: the title is checked before the description; both are stored trimmed, and
      a missing category or priority becomes 'other' or 'medium'. */
  function ValidateCreate(title: J.Json, category: J.Json, description: J.Json, priority: J.Json): (r: Outcome<NewFeedback>)
    ensures RequiredText(title).Missing? ==> r == BadRequest("Title is required")
    ensures RequiredText(title).Present? && RequiredText(description).Missing? ==> r == BadRequest("Description is required")
    ensures r.Ok? ==> title.Str? && r.value.title == Trim(title.s) && r.value.title != "" && Trimmed(r.value.title)
    ensures r.Ok? ==> description.Str? && r.value.description == Trim(description.s) && r.value.description != ""
    ensures r.Ok? ==> TextOr(category, "other") == Some(r.value.category)
    ensures r.Ok? ==> TextOr(priority, "medium") == Some(r.value.priority)
    ensures RequiredText(title).Present? && RequiredText(description).Present? &&
            TextOr(category, "other").Some? && TextOr(priority, "medium").Some?
            ==> r.Ok?
    ensures r.ServerError? ==>
              (J.JsTruthy(title) && !title.Str?) || (J.JsTruthy(description) && !description.Str?)
              || (J.JsTruthy(category) && !category.Str?) || (J.JsTruthy(priority) && !priority.Str?)
    ensures r.Ok? || r.BadRequest? || r.ServerError?
  {
    match RequiredText(title)
    case Missing => BadRequest("Title is required")
    case NotText => ServerError
    case Present(t) =>
      match RequiredText(description)
      case Missing => BadRequest("Description is required")
      case NotText => ServerError
      case Present(d) =>
        var c := TextOr(category, "other");
        var p := TextOr(priority, "medium");
        if c.None? || p.None? then ServerError
        else Ok(NewFeedback(t, c.value, d, p.value))
  }

  // ---------------------------------------------------------------- update

  /** The effect of `admin_notes`: leave as is when absent, clear when falsy, store trimmed text;
      a truthy non-text value has no `trim` and fails. */
  datatype NotesChange = Keep | Clear | SetTo(text: string) | Invalid

  function NotesChangeOf(notes: Option<J.Json>): (r: NotesChange)
    ensures notes.None? <==> r.Keep?
    ensures r.Clear? <==> notes.Some? && !J.JsTruthy(notes.value)
    ensures r.Invalid? <==> notes.Some? && J.JsTruthy(notes.value) && !notes.value.Str?
    ensures r.SetTo? ==> notes.value.Str? && r.text == Trim(notes.value.s) && Trimmed(r.text)
  {
    match notes
    case None => Keep
    case Some(v) =>
      if !J.JsTruthy(v) then Clear
      else if v.Str? then
        TrimIdempotent(v.s);
        SetTo(Trim(v.s))
      else Invalid
  }

  /** The resolution fields after the status becomes `status`: stamped with the acting admin and
      the time when resolving, cleared when reopening, untouched otherwise. */
  function ResolutionAfter(status: string, at: Option<int>, resolver: Option<int>, actor: int, now: int): (r: (Option<int>, Option<int>))
    ensures IsResolving(status) ==> r == (Some(now), Some(actor))
    ensures IsReopening(status) ==> r == (None, None)
    ensures !IsResolving(status) && !IsReopening(status) ==> r == (at, resolver)
  {
    if IsResolving(status) then (Some(now), Some(actor))
    else if IsReopening(status) then (None, None)
    else (at, resolver)
  }

  /** A status is never both resolving and reopening. */
  lemma ResolvingExcludesReopening(status: string)
    ensures !(IsResolving(status) && IsReopening(status))
  {
  }

  class Feedback {
    const id: int
    const userId: int
    var title: string
    var category: string
    var description: string
    var priority: string
    var status: string
    var adminNotes: Option<string>
    var resolvedAt: Option<int>
    var resolvedBy: Option<int>

    /** A resolved feedback names its resolver and time; an open one names neither. */
    predicate Valid()
      reads this
    {
      && (IsResolving(status) ==> resolvedAt.Some? && resolvedBy.Some?)
      && (IsReopening(status) ==> resolvedAt.None? && resolvedBy.None?)
    }

    /** The stored feedback of a validated POST: pending, with no notes and no resolution. */
    constructor Create(id: int, userId: int, n: NewFeedback)
      ensures this.id == id && this.userId == userId
      ensures title == n.title && category == n.category && description == n.description && priority == n.priority
      ensures status == "pending" && adminNotes.None? && resolvedAt.None? && resolvedBy.None?
      ensures Valid()
    {
      this.id := id;
      this.userId := userId;
      title := n.title;
      category := n.category;
      description := n.description;
      priority := n.priority;
      status := "pending";
      adminNotes := None;
      resolvedAt := None;
      resolvedBy := None;
    }

    /** PATCH /feedback/:id by user `actor` at time `now`. Only an admin gets through. A truthy
        status replaces the status and moves the resolution fields; a defined admin_notes
        replaces the notes. A notes value without `trim` fails before anything is stored. */
    method Update(isAdmin: bool, actor: int, now: int, newStatus: Option<string>, notes: Option<J.Json>)
      returns (r: Outcome<()>)
      modifies this
      ensures !isAdmin ==> r == AdminRequired
      ensures isAdmin && NotesChangeOf(notes).Invalid? ==> r == ServerError
      ensures !r.Ok? ==>
        status == old(status) && adminNotes == old(adminNotes) && resolvedAt == old(resolvedAt) && resolvedBy == old(resolvedBy)
      ensures r.Ok? <==> isAdmin && !NotesChangeOf(notes).Invalid?
      ensures r.Ok? && newStatus.Some? && newStatus.value != "" ==>
        status == newStatus.value
        && (resolvedAt, resolvedBy) == ResolutionAfter(newStatus.value, old(resolvedAt), old(resolvedBy), actor, now)
      ensures r.Ok? && (newStatus.None? || newStatus.value == "") ==>
        status == old(status) && resolvedAt == old(resolvedAt) && resolvedBy == old(resolvedBy)
      ensures r.Ok? ==> adminNotes == match NotesChangeOf(notes)
        case Keep => old(adminNotes)
        case Clear => None
        case SetTo(t) => Some(t)
        case Invalid => old(adminNotes)
      ensures title == old(title) && category == old(category)
      ensures description == old(description) && priority == old(priority)
      ensures old(Valid()) ==> Valid()
    {
      if !isAdmin {
        return AdminRequired;
      }
      var change := NotesChangeOf(notes);
      if change.Invalid? {
        return ServerError;
      }
      if newStatus.Some? && newStatus.value != "" {
        status := newStatus.value;
        var res := ResolutionAfter(newStatus.value, resolvedAt, resolvedBy, actor, now);
        resolvedAt := res.0;
        resolvedBy := res.1;
      }
      if change.Clear? {
        adminNotes := None;
      } else if change.SetTo? {
        adminNotes := Some(change.text);
      }
      r := Ok(());
    }
  }

  // ---------------------------------------------------------------- visibility

  /** A snapshot of one stored feedback, as the list query filters it. */
  datatype Row = Row(id: int, userId: int, status: string, category: string, priority: string)

  /** The list's query parameters; absent ones are None. */
  datatype ListQuery = ListQuery(userId: Option<string>, status: Option<string>, category: Option<string>, priority: Option<string>)

  /** Whose feedback a list covers: everyone's, one user's, or (a user_id that does not read as
      an integer) no one's. */
  datatype Scope = Everyone | OnlyUser(id: int) | NoUser

  function ScopeOf(isAdmin: bool, me: int, q: ListQuery): (s: Scope)
    ensures !isAdmin ==> s == OnlyUser(me)
    ensures isAdmin && (q.userId.None? || q.userId.value == "") ==> s == Everyone
  {
    if !isAdmin then OnlyUser(me)
    else if q.userId.None? || q.userId.value == "" then Everyone
    else match J.ParseInt(q.userId.value)
      case Some(n) => OnlyUser(n)
      case None => NoUser
  }

  /** A filter given as an empty or absent parameter lets everything through. */
  predicate FilterAdmits(filter: Option<string>, value: string) {
    filter.None? || filter.value == "" || filter.value == value
  }

  predicate Matches(row: Row, scope: Scope, q: ListQuery) {
    && (match scope
        case Everyone => true
        case OnlyUser(id) => row.userId == id
        case NoUser => false)
    && FilterAdmits(q.status, row.status)
    && FilterAdmits(q.category, row.category)
    && FilterAdmits(q.priority, row.priority)
  }

  /** GET /feedback: the stored rows that match, in store order. */
  function ListFeedback(rows: seq<Row>, isAdmin: bool, me: int, q: ListQuery): (r: seq<Row>)
    ensures forall x :: x in r <==> x in rows && Matches(x, ScopeOf(isAdmin, me, q), q)
    decreases |rows|
  {
    if |rows| == 0 then []
    else
      var rest := ListFeedback(rows[1..], isAdmin, me, q);
      if Matches(rows[0], ScopeOf(isAdmin, me, q), q) then [rows[0]] + rest else rest
  }

  /** A team member lists only their own feedback, whatever user_id they pass. */
  lemma MembersListOwnFeedback(rows: seq<Row>, me: int, q: ListQuery, otherUserId: Option<string>)
    ensures forall x :: x in ListFeedback(rows, false, me, q) ==> x.userId == me
    ensures ListFeedback(rows, false, me, q) == ListFeedback(rows, false, me, q.(userId := otherUserId))
  {
    SameScopeSameList(rows, false, me, q, q.(userId := otherUserId));
  }

  lemma {:induction false} SameScopeSameList(rows: seq<Row>, isAdmin: bool, me: int, q1: ListQuery, q2: ListQuery)
    requires ScopeOf(isAdmin, me, q1) == ScopeOf(isAdmin, me, q2)
    requires q1.status == q2.status && q1.category == q2.category && q1.priority == q2.priority
    ensures ListFeedback(rows, isAdmin, me, q1) == ListFeedback(rows, isAdmin, me, q2)
    decreases |rows|
  {
    if |rows| > 0 {
      SameScopeSameList(rows[1..], isAdmin, me, q1, q2);
    }
  }

  /** GET /feedback/:id: an admin, or the author. */
  predicate CanView(isAdmin: bool, me: int, owner: int) {
    isAdmin || owner == me
  }

  /** DELETE /feedback/:id: the author, or an admin. */
  predicate CanDelete(isAdmin: bool, me: int, owner: int) {
    owner == me || isAdmin
  }

  /** Viewing and deleting are granted to the same people, and a team member is refused both on
      someone else's feedback. */
  lemma ViewAndDeleteAgree(isAdmin: bool, me: int, owner: int)
    ensures CanView(isAdmin, me, owner) <==> CanDelete(isAdmin, me, owner)
    ensures !isAdmin && owner != me ==> !CanView(isAdmin, me, owner) && !CanDelete(isAdmin, me, owner)
  {
  }

  // ---------------------------------------------------------------- statistics

  /** How many of the statuses lie in `set`. */
  function CountIn(statuses: seq<string>, s: set<string>): (n: nat)
    ensures n <= |statuses|
    decreases |statuses|
  {
    if |statuses| == 0 then 0
    else CountIn(statuses[..|statuses| - 1], s) + (if statuses[|statuses| - 1] in s then 1 else 0)
  }

  /** Counting over two disjoint sets of statuses adds up. */
  lemma {:induction false} CountInUnion(statuses: seq<string>, a: set<string>, b: set<string>)
    requires a !! b
    ensures CountIn(statuses, a + b) == CountIn(statuses, a) + CountIn(statuses, b)
    decreases |statuses|
  {
    if |statuses| > 0 {
      CountInUnion(statuses[..|statuses| - 1], a, b);
    }
  }

  datatype Stats = Stats(total: nat, pending: nat, inProgress: nat, resolved: nat)

  /** The headline figures of GET /feedback/stats/overview over the stored statuses. */
  function StatsOf(statuses: seq<string>): (r: Stats)
    ensures r.total == |statuses|
  {
    Stats(|statuses|, CountIn(statuses, {"pending"}), CountIn(statuses, {"in_progress"}),
          CountIn(statuses, {"resolved", "closed"}))
  }

  /** The resolved figure counts resolved and closed feedback together, and the three figures
      never exceed the total. */
  lemma StatsAddUp(statuses: seq<string>)
    ensures StatsOf(statuses).resolved == CountIn(statuses, {"resolved"}) + CountIn(statuses, {"closed"})
    ensures StatsOf(statuses).pending + StatsOf(statuses).inProgress + StatsOf(statuses).resolved <= StatsOf(statuses).total
  {
    CountInUnion(statuses, {"resolved"}, {"closed"});
    assert {"resolved"} + {"closed"} == {"resolved", "closed"};
    CountInUnion(statuses, {"pending"}, {"in_progress"});
    CountInUnion(statuses, {"pending"} + {"in_progress"}, {"resolved", "closed"});
  }
}
