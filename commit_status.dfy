/** The availability refresh of backend/services/commitStatusCron.js: the CSV of unavailable
    commits that the Habitat API returns is parsed into a map from commit hash to status, and
    every commit of the repository gets one upsert into the status cache of the account. The
    API call is an input; the clock reading is a parameter. */
module CommitStatus {
  import opened Text
  import J = Json

  /** What one CSV line says about a commit: its status and, when given, its expiry text. */
  datatype StatusInfo = StatusInfo(status: string, expiresAt: Option<string>)

  /** One line: blank lines, lines with fewer than two comma fields and lines whose trimmed
      hash or status is empty say nothing; the expiry is kept only when a third field is
      non-empty after trimming. */
  function ParseLine(raw: string): Option<(string, StatusInfo)>
  {
    var line := Trim(raw);
    if line == "" then None
    else
      var parts := Split(line, ',');
      if |parts| < 2 then None
      else
        var hash, status := Trim(parts[0]), Trim(parts[1]);
        var expires := if |parts| > 2 && Trim(parts[2]) != "" then Some(Trim(parts[2])) else None;
        if hash != "" && status != "" then Some((hash, StatusInfo(status, expires))) else None
  }

  /** A line with fewer than two comma fields, a blank one included, says nothing; what a
      line says is non-empty and trimmed. */
  lemma ParseLineShape(raw: string)
    ensures |Split(Trim(raw), ',')| < 2 ==> ParseLine(raw).None?
    ensures var r := ParseLine(raw);
      && (r.Some? ==> r.value.0 != "" && Trimmed(r.value.0))
      && (r.Some? ==> r.value.1.status != "" && Trimmed(r.value.1.status))
      && (r.Some? && r.value.1.expiresAt.Some? ==> r.value.1.expiresAt.value != "")
  {
  }

  /** Splitting at a first separator that is not in the head. */
  lemma {:induction false} SplitAtFirst(a: string, b: string, c: char)
    requires c !in a
    ensures Split(a + [c] + b, c) == [a] + Split(b, c)
    decreases |a|
  {
    if |a| == 0 {
      assert a + [c] + b == [c] + b;
      assert ([c] + b)[1..] == b;
    } else {
      assert a[0] != c && c !in a[1..];
      SplitAtFirst(a[1..], b, c);
      assert (a + [c] + b)[0] == a[0];
      assert (a + [c] + b)[1..] == a[1..] + [c] + b;
      assert [a[0]] + a[1..] == a;
    }
  }

  lemma {:induction false} SplitWithout(a: string, c: char)
    requires c !in a
    ensures Split(a, c) == [a]
    decreases |a|
  {
    if |a| > 0 {
      SplitWithout(a[1..], c);
      assert [a[0]] + a[1..] == a;
    }
  }

  /** Three comma-free fields joined by commas split back into those fields. */
  lemma SplitThree(x: string, y: string, z: string)
    requires ',' !in x && ',' !in y && ',' !in z
    ensures Split(x + "," + y + "," + z, ',') == [x, y, z]
  {
    SplitWithout(z, ',');
    SplitAtFirst(y, z, ',');
    assert x + "," + y + "," + z == x + [','] + (y + [','] + z);
    SplitAtFirst(x, y + [','] + z, ',');
  }

  lemma SplitTwo(x: string, y: string)
    requires ',' !in x && ',' !in y
    ensures Split(x + "," + y, ',') == [x, y]
  {
    SplitWithout(y, ',');
    assert x + "," + y == x + [','] + y;
    SplitAtFirst(x, y, ',');
  }

  /** A trimmed line that splits into three trimmed, non-empty fields reads as them. */
  lemma ParseThreeFields(line: string, x: string, y: string, z: string)
    requires Trim(line) == line != ""
    requires Split(line, ',') == [x, y, z]
    requires x != "" && y != "" && z != "" && Trim(x) == x && Trim(y) == y && Trim(z) == z
    ensures ParseLine(line) == Some((x, StatusInfo(y, Some(z))))
  {
  }

  lemma ParseTwoFields(line: string, x: string, y: string)
    requires Trim(line) == line != ""
    requires Split(line, ',') == [x, y]
    requires x != "" && y != "" && Trim(x) == x && Trim(y) == y
    ensures ParseLine(line) == Some((x, StatusInfo(y, None)))
  {
  }

  /** A line written as `hash,status,expires` reads back as what was written, when the three
      fields are non-empty, already trimmed and free of commas. */
  lemma LineRoundTrip(hash: string, status: string, expires: string)
    requires hash != "" && status != "" && expires != ""
    requires Trimmed(hash) && Trimmed(status) && Trimmed(expires)
    requires ',' !in hash && ',' !in status && ',' !in expires
    ensures ParseLine(hash + "," + status + "," + expires) == Some((hash, StatusInfo(status, Some(expires))))
  {
    var line := hash + "," + status + "," + expires;
    assert line[0] == hash[0] && line[|line| - 1] == expires[|expires| - 1];
    TrimmedIsFixed(line);
    SplitThree(hash, status, expires);
    TrimmedIsFixed(hash);
    TrimmedIsFixed(status);
    TrimmedIsFixed(expires);
    ParseThreeFields(line, hash, status, expires);
  }

  /** A two-field line reads back with no expiry. */
  lemma ShortLineRoundTrip(hash: string, status: string)
    requires hash != "" && status != ""
    requires Trimmed(hash) && Trimmed(status)
    requires ',' !in hash && ',' !in status
    ensures ParseLine(hash + "," + status) == Some((hash, StatusInfo(status, None)))
  {
    var line := hash + "," + status;
    assert line[0] == hash[0] && line[|line| - 1] == status[|status| - 1];
    TrimmedIsFixed(line);
    SplitTwo(hash, status);
    TrimmedIsFixed(hash);
    TrimmedIsFixed(status);
    ParseTwoFields(line, hash, status);
  }

  type Parsed = Option<(string, StatusInfo)>

  function Record(m: map<string, StatusInfo>, p: Parsed): map<string, StatusInfo> {
    if p.Some? then m[p.value.0 := p.value.1] else m
  }

  /** The map the loop builds from the parsed data lines, a later line for the same hash
      replacing an earlier one. */
  function Collect(parsed: seq<Parsed>): map<string, StatusInfo>
    decreases |parsed|
  {
    if |parsed| == 0 then map[]
    else Record(Collect(parsed[..|parsed| - 1]), parsed[|parsed| - 1])
  }

  function ParseLines(lines: seq<string>): (r: seq<Parsed>)
    ensures |r| == |lines|
    ensures forall i :: 0 <= i < |lines| ==> r[i] == ParseLine(lines[i])
  {
    seq(|lines|, i requires 0 <= i < |lines| => ParseLine(lines[i]))
  }

  /** `startIdx`: the first line is a header, and skipped, exactly when it contains
      `commit_hash` in any case. */
  function HeaderLines(first: string): (n: nat)
    ensures n == 1 <==> ContainsIgnoreCase(first, "commit_hash")
    ensures n <= 1
  {
    if ContainsIgnoreCase(first, "commit_hash") then 1 else 0
  }

  /** The data lines: the trimmed text split on newlines, without its header line. */
  function DataLines(text: string): seq<string> {
    var lines := Split(Trim(text), '\n');
    lines[HeaderLines(lines[0])..]
  }

  /** parseUnavailableCommitsCSV: empty for anything but a non-empty string. */
  function StatusMap(csv: J.Json): (m: map<string, StatusInfo>)
    ensures !csv.Str? || csv.s == "" ==> m == map[]
  {
    if csv.Str? && csv.s != "" then Collect(ParseLines(DataLines(csv.s))) else map[]
  }

  /** A hash is in the map exactly when some line names it. */
  lemma {:induction false} CollectKeys(parsed: seq<Parsed>, k: string)
    ensures k in Collect(parsed) <==> exists i :: 0 <= i < |parsed| && parsed[i].Some? && parsed[i].value.0 == k
    decreases |parsed|
  {
    if |parsed| > 0 {
      var init := parsed[..|parsed| - 1];
      CollectKeys(init, k);
      assert forall i :: 0 <= i < |init| ==> init[i] == parsed[i];
    }
  }

  /** The value of a hash comes from the last line that names it. */
  lemma {:induction false} CollectLastWins(parsed: seq<Parsed>, i: nat)
    requires i < |parsed| && parsed[i].Some?
    requires forall j :: i < j < |parsed| ==> parsed[j].None? || parsed[j].value.0 != parsed[i].value.0
    ensures parsed[i].value.0 in Collect(parsed)
    ensures Collect(parsed)[parsed[i].value.0] == parsed[i].value.1
    decreases |parsed|
  {
    if i < |parsed| - 1 {
      var init := parsed[..|parsed| - 1];
      assert forall j :: 0 <= j < |init| ==> init[j] == parsed[j];
      CollectLastWins(init, i);
    }
  }

  /** Every stored hash and status is non-empty and trimmed. */
  lemma {:induction false} CollectValues(lines: seq<string>)
    ensures forall k :: k in Collect(ParseLines(lines)) ==>
      k != "" && Trimmed(k) && Collect(ParseLines(lines))[k].status != "" && Trimmed(Collect(ParseLines(lines))[k].status)
  {
    var parsed := ParseLines(lines);
    forall k | k in Collect(parsed)
      ensures k != "" && Trimmed(k) && Collect(parsed)[k].status != "" && Trimmed(Collect(parsed)[k].status)
    {
      CollectKeys(parsed, k);
      var i :| 0 <= i < |parsed| && parsed[i].Some? && parsed[i].value.0 == k;
      var last := LastNaming(parsed, k, i);
      CollectLastWins(parsed, last);
      assert parsed[last] == ParseLine(lines[last]);
      ParseLineShape(lines[last]);
    }
  }

  /** The last line naming `k`, given one that does. */
  lemma {:induction false} LastNaming(parsed: seq<Parsed>, k: string, i: nat) returns (last: nat)
    requires i < |parsed| && parsed[i].Some? && parsed[i].value.0 == k
    ensures i <= last < |parsed| && parsed[last].Some? && parsed[last].value.0 == k
    ensures forall j :: last < j < |parsed| ==> parsed[j].None? || parsed[j].value.0 != k
    decreases |parsed| - i
  {
    if exists j :: i < j < |parsed| && parsed[j].Some? && parsed[j].value.0 == k {
      var j :| i < j < |parsed| && parsed[j].Some? && parsed[j].value.0 == k;
      last := LastNaming(parsed, k, j);
    } else {
      last := i;
    }
  }

  /** The body of the loop of parseUnavailableCommitsCSV for one line, its `continue`s
      returning None. */
  method ReadLine(raw: string) returns (p: Parsed)
    ensures p == ParseLine(raw)
  {
    var line := Trim(raw);
    if line == "" {
      return None;
    }
    var parts := Split(line, ',');
    if |parts| < 2 {
      return None;
    }
    var hash := Trim(parts[0]);
    var status := Trim(parts[1]);
    var expires := if |parts| > 2 && Trim(parts[2]) != "" then Some(Trim(parts[2])) else None;
    if hash != "" && status != "" {
      return Some((hash, StatusInfo(status, expires)));
    }
    return None;
  }

  /** One more line read extends the map as Collect does. */
  lemma CollectStep(parsed: seq<Parsed>, k: nat)
    requires k < |parsed|
    ensures Collect(parsed[..k + 1]) == Record(Collect(parsed[..k]), parsed[k])
  {
    assert parsed[..k + 1][..k] == parsed[..k];
  }

  /** The index loop of parseUnavailableCommitsCSV, from `start` to the last line. */
  method CollectFrom(lines: seq<string>, start: nat) returns (m: map<string, StatusInfo>)
    requires start <= |lines|
    ensures m == Collect(ParseLines(lines[start..]))
  {
    m := map[];
    for i := start to |lines|
      invariant m == Collect(ParseLines(lines[start..])[..i - start])
    {
      CollectStep(ParseLines(lines[start..]), i - start);
      var p := ReadLine(lines[i]);
      if p.Some? {
        m := m[p.value.0 := p.value.1];
      }
    }
    assert ParseLines(lines[start..])[..|lines| - start] == ParseLines(lines[start..]);
  }

  /** parseUnavailableCommitsCSV. */
  method ParseUnavailableCommits(csv: J.Json) returns (m: map<string, StatusInfo>)
    ensures m == StatusMap(csv)
  {
    if !csv.Str? || csv.s == "" {
      return map[];
    }
    var lines := Split(Trim(csv.s), '\n');
    var start := HeaderLines(lines[0]);
    m := CollectFrom(lines, start);
  }

  // ---------------------------------------------------------------- the status cache

  /** The status the cache records for a commit: 'available' when the API did not list it;
      otherwise the trimmed status, 'reserved' renamed 'already_reserved' and an empty one
      read as 'unavailable'. The expiry is kept when non-empty. */
  function CachedStatus(info: Option<StatusInfo>): (r: (string, Option<string>))
    ensures info.None? ==> r == ("available", None)
    ensures info.Some? && Trim(info.value.status) == "reserved" ==> r.0 == "already_reserved"
    ensures info.Some? && Trim(info.value.status) == "" ==> r.0 == "unavailable"
    ensures info.Some? && Trim(info.value.status) !in {"reserved", ""} ==> r.0 == Trim(info.value.status)
    ensures r.1.Some? ==> info.Some? && info.value.expiresAt == r.1 && r.1.value != ""
    ensures info.Some? && info.value.expiresAt.Some? && info.value.expiresAt.value != "" ==> r.1 == info.value.expiresAt
  {
    match info
    case None => ("available", None)
    case Some(StatusInfo(status, expiresAt)) =>
      var apiStatus := Trim(status);
      var mapped := if apiStatus == "reserved" then "already_reserved" else apiStatus;
      (if mapped == "" then "unavailable" else mapped,
       if expiresAt.Some? && expiresAt.value != "" then expiresAt else None)
  }

  /** For a parsed map the 'unavailable' fallback never applies: the status is kept as
      listed, only 'reserved' being renamed. */
  lemma ParsedStatusKept(csv: J.Json, hash: string)
    requires hash in StatusMap(csv)
    ensures var info := StatusMap(csv)[hash];
      CachedStatus(Some(info)).0 == if info.status == "reserved" then "already_reserved" else info.status
  {
    var info := StatusMap(csv)[hash];
    assert Trimmed(info.status) && info.status != "" by {
      CollectValues(DataLines(csv.s));
    }
    TrimmedIsFixed(info.status);
    var r := CachedStatus(Some(info));
    if info.status == "reserved" {
      assert r.0 == "already_reserved";
    } else {
      assert Trim(info.status) !in {"reserved", ""};
    }
  }

  datatype CacheEntry = CacheEntry(status: string, expiresAt: Option<string>, checkedAt: int)

  /** A commit of the repository, with the hash the API lists it by. */
  datatype RepoCommit = RepoCommit(id: int, baseCommit: string)

  /** The result of the API call: a failure, or the CSV under `commits` or `data`. */
  datatype ApiResult = ApiResult(success: bool, commits: J.Json, data: J.Json)

  /** `result.commits || result.data || ''`. */
  function ResponseText(result: ApiResult): J.Json {
    if J.JsTruthy(result.commits) then result.commits
    else if J.JsTruthy(result.data) then result.data
    else J.Str("")
  }

  function EntryFor(c: RepoCommit, statuses: map<string, StatusInfo>, now: int): CacheEntry {
    var info := if c.baseCommit in statuses then Some(statuses[c.baseCommit]) else None;
    var (status, expiresAt) := CachedStatus(info);
    CacheEntry(status, expiresAt, now)
  }

  /** A map after a sequence of upserts, in order. */
  function Upserts<K, V>(m: map<K, V>, updates: seq<(K, V)>): map<K, V>
    decreases |updates|
  {
    if |updates| == 0 then m
    else
      var (key, value) := updates[|updates| - 1];
      Upserts(m, updates[..|updates| - 1])[key := value]
  }

  lemma UpsertsStep<K, V>(m: map<K, V>, updates: seq<(K, V)>, k: nat)
    requires k < |updates|
    ensures Upserts(m, updates[..k + 1]) == Upserts(m, updates[..k])[updates[k].0 := updates[k].1]
  {
    assert updates[..k + 1][..k] == updates[..k];
  }

  /** With distinct keys, every upserted key ends with its value. */
  lemma {:induction false} UpsertsSet<K, V>(m: map<K, V>, updates: seq<(K, V)>)
    requires forall i, j :: 0 <= i < j < |updates| ==> updates[i].0 != updates[j].0
    ensures forall i :: 0 <= i < |updates| ==>
      updates[i].0 in Upserts(m, updates) && Upserts(m, updates)[updates[i].0] == updates[i].1
    decreases |updates|
  {
    if |updates| > 0 {
      var init := updates[..|updates| - 1];
      assert forall i :: 0 <= i < |init| ==> init[i] == updates[i];
      UpsertsSet(m, init);
    }
  }

  /** A key that is never upserted keeps its entry, or its absence. */
  lemma {:induction false} UpsertsKeep<K, V>(m: map<K, V>, updates: seq<(K, V)>, key: K)
    requires forall i :: 0 <= i < |updates| ==> updates[i].0 != key
    ensures key in Upserts(m, updates) <==> key in m
    ensures key in m ==> Upserts(m, updates)[key] == m[key]
    decreases |updates|
  {
    if |updates| > 0 {
      var init := updates[..|updates| - 1];
      assert forall i :: 0 <= i < |init| ==> init[i] == updates[i];
      UpsertsKeep(m, init, key);
    }
  }

  /** The upserts of the loop: one per commit, keyed by (commit, account). */
  function Updates(account: int, commits: seq<RepoCommit>, statuses: map<string, StatusInfo>, now: int)
    : (us: seq<((int, int), CacheEntry)>)
    ensures |us| == |commits|
    ensures forall i :: 0 <= i < |commits| ==> us[i] == ((commits[i].id, account), EntryFor(commits[i], statuses, now))
  {
    seq(|commits|, i requires 0 <= i < |commits| => ((commits[i].id, account), EntryFor(commits[i], statuses, now)))
  }

  /** Each commit of the repository ends with the entry its status gives; every other entry,
      and every absent key, stays as it was. */
  lemma UpsertedEffect(entries: map<(int, int), CacheEntry>, account: int, commits: seq<RepoCommit>,
                       statuses: map<string, StatusInfo>, now: int, key: (int, int))
    requires forall i, j :: 0 <= i < j < |commits| ==> commits[i].id != commits[j].id
    ensures var after := Upserts(entries, Updates(account, commits, statuses, now));
      && (forall i :: 0 <= i < |commits| ==>
            (commits[i].id, account) in after && after[(commits[i].id, account)] == EntryFor(commits[i], statuses, now))
      && ((forall i :: 0 <= i < |commits| ==> key != (commits[i].id, account)) ==>
            (key in after <==> key in entries) && (key in entries ==> after[key] == entries[key]))
  {
    var us := Updates(account, commits, statuses, now);
    UpsertsSet(entries, us);
    if forall i :: 0 <= i < |commits| ==> key != (commits[i].id, account) {
      UpsertsKeep(entries, us, key);
    }
  }

  /** The status cache of one account's commits, as CommitStatusCache rows keyed by
      (commit id, account id). */
  class StatusCache {
    var entries: map<(int, int), CacheEntry>

    constructor()
      ensures entries == map[]
    {
      entries := map[];
    }

    /** The upsert loop: one upsert per commit, counted. */
    method UpsertAll(account: int, commits: seq<RepoCommit>, statuses: map<string, StatusInfo>, now: int)
      returns (count: nat)
      modifies this
      ensures count == |commits|
      ensures entries == Upserts(old(entries), Updates(account, commits, statuses, now))
    {
      count := 0;
      ghost var updates := Updates(account, commits, statuses, now);
      for i := 0 to |commits|
        invariant count == i
        invariant entries == Upserts(old(entries), updates[..i])
      {
        UpsertsStep(old(entries), updates, i);
        var c := commits[i];
        entries := entries[(c.id, account) := EntryFor(c, statuses, now)];
        count := count + 1;
      }
      assert updates[..|commits|] == updates;
    }

    /** fetchCommitStatusesForRepo: nothing changes when the API call failed or listed no
        commit; otherwise every commit of the repository is upserted once. */
    method FetchStatusesForRepo(account: int, result: ApiResult, commits: seq<RepoCommit>, now: int)
      returns (count: nat)
      modifies this
      ensures var statuses := StatusMap(ResponseText(result));
        if !result.success || |statuses| == 0 then count == 0 && entries == old(entries)
        else count == |commits| && entries == Upserts(old(entries), Updates(account, commits, statuses, now))
    {
      if !result.success {
        return 0;
      }
      var statuses := ParseUnavailableCommits(ResponseText(result));
      if |statuses| == 0 {
        return 0;
      }
      count := UpsertAll(account, commits, statuses, now);
    }
  }
}
