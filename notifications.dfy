/** The `/expiring-commits` notification of backend/routes/notifications.js: reservations held
    by other users that expire within two hours, ranked by the priority of their commit. Times
    are milliseconds since the epoch; the clock reading is a parameter. */
module Notifications {
  import opened Text
  import P = Priority

  const ExpiringSoonMillis: int := 2 * 60 * 60 * 1000
  const ListLimit: nat := 20
  const QueryLimit: nat := 30

  datatype Repo = Repo(fullName: Option<string>, repoName: Option<string>, isActive: bool)

  datatype Commit = Commit(id: int, repo: Option<Repo>, baseCommit: Option<string>,
                           mergedCommit: Option<string>, fields: P.CommitRecord)

  datatype Reservation = Reservation(id: int, status: string, userId: int, expiresAt: int,
                                     commit: Option<Commit>, reservedBy: Option<string>)

  /** One item of the response. */
  datatype Entry = Entry(reservationId: int, commitId: Option<int>, repoName: Option<string>,
                         baseCommit: Option<string>, mergedCommit: Option<string>,
                         expectedValue: int, expiresAt: int, reservedBy: Option<string>)

  datatype Response = Response(expiringCommits: seq<Entry>, total: nat)

  /** The query's filter: reserved, held by someone else, expiring in [now, now + 2h], with a
      commit whose repository is active. */
  predicate IsCandidate(r: Reservation, me: int, now: int) {
    && r.status == "reserved"
    && r.userId != me
    && now <= r.expiresAt <= now + ExpiringSoonMillis
    && r.commit.Some? && r.commit.value.repo.Some? && r.commit.value.repo.value.isActive
  }

  /** The rows the query returns: the candidates in store order, at most 30. */
  function Candidates(rs: seq<Reservation>, me: int, now: int): (r: seq<Reservation>)
    ensures forall i :: 0 <= i < |r| ==> IsCandidate(r[i], me, now)
    ensures forall x :: x in r ==> x in rs
    ensures forall x :: x in rs && IsCandidate(x, me, now) ==> x in r
    ensures |r| <= |rs|
    decreases |rs|
  {
    if |rs| == 0 then []
    else if IsCandidate(rs[0], me, now) then [rs[0]] + Candidates(rs[1..], me, now)
    else Candidates(rs[1..], me, now)
  }

  /** LIMIT 30 over the candidates: every candidate when there are at most 30, otherwise
      30 of them. */
  function Query(rs: seq<Reservation>, me: int, now: int): (r: seq<Reservation>)
    ensures |r| <= QueryLimit
    ensures forall i :: 0 <= i < |r| ==> IsCandidate(r[i], me, now)
    ensures forall x :: x in r ==> x in rs
    ensures |r| == P.Min(|Candidates(rs, me, now)|, QueryLimit)
    ensures r == Candidates(rs, me, now)[..|r|]
    ensures |Candidates(rs, me, now)| <= QueryLimit ==>
              forall x :: x in rs && IsCandidate(x, me, now) ==> x in r
  {
    var c := Candidates(rs, me, now);
    if |c| <= QueryLimit then c else c[..QueryLimit]
  }

  /** `fullName || repoName`: an empty full name falls back too. */
  function RepoName(c: Option<Commit>): Option<string> {
    if c.None? || c.value.repo.None? then None
    else
      var repo := c.value.repo.value;
      if repo.fullName.Some? && repo.fullName.value != "" then repo.fullName else repo.repoName
  }

  /** The expected value of a reservation: the priority of its commit, 0 without one. */
  function ExpectedValue(r: Reservation): (v: int)
    ensures 0 <= v <= 95
    ensures r.commit.None? ==> v == 0
  {
    if r.commit.Some? then P.ComputePriority(Some(r.commit.value.fields)) else 0
  }

  function ToEntry(r: Reservation): (e: Entry)
    ensures e.reservationId == r.id && e.expiresAt == r.expiresAt && e.reservedBy == r.reservedBy
    ensures e.expectedValue == ExpectedValue(r)
  {
    Entry(r.id, if r.commit.Some? then Some(r.commit.value.id) else None, RepoName(r.commit),
          if r.commit.Some? then r.commit.value.baseCommit else None,
          if r.commit.Some? then r.commit.value.mergedCommit else None,
          ExpectedValue(r), r.expiresAt, r.reservedBy)
  }

  function ToEntries(rs: seq<Reservation>): (es: seq<Entry>)
    ensures |es| == |rs|
    ensures forall i :: 0 <= i < |rs| ==> es[i] == ToEntry(rs[i])
  {
    seq(|rs|, i requires 0 <= i < |rs| => ToEntry(rs[i]))
  }

  /** The comparator: a higher expected value first, then the earlier expiry. */
  predicate Precedes(a: Entry, b: Entry) {
    a.expectedValue > b.expectedValue || (a.expectedValue == b.expectedValue && a.expiresAt <= b.expiresAt)
  }

  predicate Ranked(es: seq<Entry>) {
    forall i, j :: 0 <= i < j < |es| ==> Precedes(es[i], es[j])
  }

  /** Puts `e` before the first entry it precedes; equal entries keep their order. */
  function Insert(e: Entry, es: seq<Entry>): (r: seq<Entry>)
    ensures multiset(r) == multiset(es) + multiset{e}
    ensures |r| == |es| + 1
    decreases |es|
  {
    if |es| == 0 || Precedes(e, es[0]) then [e] + es
    else
      assert es == [es[0]] + es[1..];
      [es[0]] + Insert(e, es[1..])
  }

  lemma {:induction false} InsertRanked(e: Entry, es: seq<Entry>)
    requires Ranked(es)
    ensures Ranked(Insert(e, es))
    decreases |es|
  {
    if |es| > 0 && !Precedes(e, es[0]) {
      InsertRanked(e, es[1..]);
      var r := Insert(e, es[1..]);
      forall j | 0 <= j < |r|
        ensures Precedes(es[0], r[j])
      {
        assert r[j] in multiset(es[1..]) + multiset{e} by {
          assert r[j] in multiset(r);
        }
        if r[j] != e {
          assert r[j] in es[1..];
        }
      }
    }
  }

  /** The sort of the handler, stable as JavaScript's `Array.prototype.sort` is. */
  function Sort(es: seq<Entry>): (r: seq<Entry>)
    ensures multiset(r) == multiset(es)
    ensures |r| == |es|
    decreases |es|
  {
    if |es| == 0 then []
    else
      assert es == [es[0]] + es[1..];
      Insert(es[0], Sort(es[1..]))
  }

  lemma {:induction false} SortRanked(es: seq<Entry>)
    ensures Ranked(Sort(es))
    decreases |es|
  {
    if |es| > 0 {
      SortRanked(es[1..]);
      InsertRanked(es[0], Sort(es[1..]));
    }
  }

  /** GET /notifications/expiring-commits for user `me` at time `now`. */
  function ExpiringCommits(rs: seq<Reservation>, me: int, now: int): (r: Response)
    ensures r.total == |r.expiringCommits| <= ListLimit
  {
    var ranked := Sort(ToEntries(Query(rs, me, now)));
    var list := if |ranked| <= ListLimit then ranked else ranked[..ListLimit];
    Response(list, |list|)
  }

  /** The response is ranked and drawn from the candidates' entries without duplication: as
      many as there are, up to 20. */
  lemma ExpiringCommitsRanked(rs: seq<Reservation>, me: int, now: int)
    ensures var r := ExpiringCommits(rs, me, now);
      var mapped := ToEntries(Query(rs, me, now));
      && Ranked(r.expiringCommits)
      && multiset(r.expiringCommits) <= multiset(mapped)
      && |r.expiringCommits| == (if |mapped| <= ListLimit then |mapped| else ListLimit)
  {
    var mapped := ToEntries(Query(rs, me, now));
    var ranked := Sort(mapped);
    SortRanked(mapped);
    var list := ExpiringCommits(rs, me, now).expiringCommits;
    assert multiset(list) <= multiset(ranked) by {
      assert ranked == list + ranked[|list|..];
    }
  }

  /** Every listed entry is the entry of a candidate reservation, with its commit's priority. */
  lemma ExpiringCommitsFromCandidates(rs: seq<Reservation>, me: int, now: int)
    ensures forall e :: e in ExpiringCommits(rs, me, now).expiringCommits ==>
      exists x :: x in Query(rs, me, now) && IsCandidate(x, me, now) && e == ToEntry(x)
  {
    var q := Query(rs, me, now);
    var mapped := ToEntries(q);
    var list := ExpiringCommits(rs, me, now).expiringCommits;
    forall e | e in list
      ensures exists x :: x in q && IsCandidate(x, me, now) && e == ToEntry(x)
    {
      assert e in multiset(Sort(mapped));
      var i :| 0 <= i < |mapped| && mapped[i] == e;
      assert q[i] in q;
    }
  }

  /** Every entry left out of a full list ranks no better than the last one listed. */
  lemma ExpiringCommitsKeepsBest(rs: seq<Reservation>, me: int, now: int)
    ensures var r := ExpiringCommits(rs, me, now);
      var ranked := Sort(ToEntries(Query(rs, me, now)));
      && r.expiringCommits <= ranked
      && forall i, j :: 0 <= i < |r.expiringCommits| <= j < |ranked| ==> Precedes(r.expiringCommits[i], ranked[j])
  {
    SortRanked(ToEntries(Query(rs, me, now)));
  }
}
