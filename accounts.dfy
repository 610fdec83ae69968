/** The rules inside backend/routes/accounts.js: how many reversals an account has left, how its
    health is classified, which fields a PATCH may change and the defaults of a new account.
    The database and the Habitat API are left out: their answers are parameters. */
module Accounts {
  import opened Text
  import J = Json

  /** Reservation statuses that use up a reversal in the account list and in the health check. */
  const ListStatuses: set<string> := {"pending", "active", "reserved"}
  const HealthStatuses: set<string> := {"pending", "active"}
  const DefaultReverseLimit: int := 7
  const FallbackApiUrl: string := "https://code.habitat.inc"

  /** The only request-body keys a PATCH copies. */
  const AllowedFields: seq<string> := ["accountName", "apiToken", "isActive"]

  /** A reservation row as the count queries see it. */
  datatype ReservationRow = ReservationRow(accountId: int, status: string)

  /** One row of the grouped count query: the account and its raw COUNT value. */
  datatype CountRow = CountRow(accountId: int, count: J.Json)

  // ---------------------------------------------------------------- counting

  /** The number of rows of account `id` whose status is one of `statuses`. */
  function CountWhere(rs: seq<ReservationRow>, id: int, statuses: set<string>): (n: nat)
    ensures n <= |rs|
    decreases |rs|
  {
    if |rs| == 0 then 0
    else CountWhere(rs[..|rs| - 1], id, statuses)
         + (if rs[|rs| - 1].accountId == id && rs[|rs| - 1].status in statuses then 1 else 0)
  }

  /** Counting over more statuses never counts fewer rows. */
  lemma {:induction false} CountWhereMonotone(rs: seq<ReservationRow>, id: int, fewer: set<string>, more: set<string>)
    requires fewer <= more
    ensures CountWhere(rs, id, fewer) <= CountWhere(rs, id, more)
    decreases |rs|
  {
    if |rs| > 0 {
      CountWhereMonotone(rs[..|rs| - 1], id, fewer, more);
    }
  }

  /** JavaScript `parseInt` on the values a COUNT column can arrive as: a number is cut toward
      zero, text must be an optionally signed run of digits; None stands for NaN. */
  function JsParseInt(v: J.Json): (r: Option<int>)
    ensures v.Num? ==> r == Some(J.Truncate(v.x))
    ensures v.Null? || v.Bool? ==> r.None?
  {
    match v
    case Num(x) => Some(J.Truncate(x))
    case Str(s) => J.ParseInt(s)
    case _ => None
  }

  /** `parseInt(r.count || 0) || 0`: the count of one grouped row, 0 when it is missing or
      does not parse. */
  function CountValue(v: J.Json): (n: int)
    ensures !J.JsTruthy(v) ==> n == 0
    ensures v.Num? && v.x == (v.x.Floor as real) ==> n == v.x.Floor
    ensures JsParseInt(v).None? ==> n == 0
  {
    if !J.JsTruthy(v) then 0
    else JsParseInt(v).GetOr(0)
  }

  /** The count map as the `forEach` leaves it: a later row for the same account overwrites. */
  function CountMap(rows: seq<CountRow>): (m: map<int, int>)
    ensures m.Keys == set i | 0 <= i < |rows| :: rows[i].accountId
    decreases |rows|
  {
    if |rows| == 0 then map[]
    else
      var last := rows[|rows| - 1];
      CountMap(rows[..|rows| - 1])[last.accountId := CountValue(last.count)]
  }

  /** With one row per account, as a GROUP BY returns them, each account maps to its own row's
      count. */
  lemma {:induction false} CountMapLookup(rows: seq<CountRow>, j: nat)
    requires forall a, b :: 0 <= a < b < |rows| ==> rows[a].accountId != rows[b].accountId
    requires j < |rows|
    ensures rows[j].accountId in CountMap(rows)
    ensures CountMap(rows)[rows[j].accountId] == CountValue(rows[j].count)
    decreases |rows|
  {
    if j < |rows| - 1 {
      var init := rows[..|rows| - 1];
      CountMapLookup(init, j);
      assert init[j] == rows[j];
    }
  }

  /** The loop filling `reservationCountMap`. */
  method BuildCountMap(rows: seq<CountRow>) returns (m: map<int, int>)
    ensures m == CountMap(rows)
  {
    m := map[];
    var i := 0;
    while i < |rows|
      invariant 0 <= i <= |rows|
      invariant m == CountMap(rows[..i])
    {
      assert rows[..i + 1][..i] == rows[..i];
      m := m[rows[i].accountId := CountValue(rows[i].count)];
      i := i + 1;
    }
    assert rows[..i] == rows;
  }

  /** `reservationCountMap[id] || 0`. */
  function ActiveCount(counts: map<int, int>, id: int): (n: int)
    ensures id !in counts ==> n == 0
    ensures id in counts ==> n == counts[id]
  {
    if id in counts then counts[id] else 0
  }

  // ---------------------------------------------------------------- capacity and health

  /** `Math.max(0, reverseLimit - activeCount)`. */
  function Remaining(reverseLimit: int, active: int): (r: int)
    ensures r >= 0
    ensures r == 0 <==> active >= reverseLimit
    ensures r > 0 ==> r + active == reverseLimit
  {
    if reverseLimit - active > 0 then reverseLimit - active else 0
  }

  /** The health label of a remaining count: no reversal left, one or two, or three and more. */
  function Health(remaining: int): (h: string)
    ensures h == "exhausted" <==> remaining == 0
    ensures h == "warning" <==> remaining != 0 && remaining <= 2
    ensures h == "healthy" <==> remaining > 2
  {
    if remaining == 0 then "exhausted"
    else if remaining <= 2 then "warning"
    else "healthy"
  }

  /** Fewer reservations in use never give a worse label; a rank orders the labels. */
  function HealthRank(h: string): nat {
    if h == "exhausted" then 0 else if h == "warning" then 1 else 2
  }

  lemma HealthMonotone(reverseLimit: int, active1: int, active2: int)
    requires active1 <= active2
    ensures HealthRank(Health(Remaining(reverseLimit, active2))) <= HealthRank(Health(Remaining(reverseLimit, active1)))
  {
  }

  /** The label in terms of the limit and the reservations in use. */
  lemma HealthOfUse(reverseLimit: int, active: int)
    ensures Health(Remaining(reverseLimit, active)) == "exhausted" <==> active >= reverseLimit
    ensures Health(Remaining(reverseLimit, active)) == "healthy" <==> active + 3 <= reverseLimit
  {
  }

  /** The list endpoint counts reserved rows as well, so on the same rows the health check never
      reports fewer remaining reversals than the list. */
  lemma HealthCheckSeesAtLeastListRemaining(rs: seq<ReservationRow>, id: int, reverseLimit: int)
    ensures Remaining(reverseLimit, CountWhere(rs, id, ListStatuses))
         <= Remaining(reverseLimit, CountWhere(rs, id, HealthStatuses))
  {
    CountWhereMonotone(rs, id, HealthStatuses, ListStatuses);
  }

  /** An account as the list endpoint returns it. */
  datatype Listed = Listed(id: int, reverseLimit: int, remainingReversals: int)

  /** The list endpoint's mapping: every account with its remaining reversals, in order. */
  function ListWithRemaining(accounts: seq<(int, int)>, counts: map<int, int>): (r: seq<Listed>)
    ensures |r| == |accounts|
    ensures forall i :: 0 <= i < |r| ==> r[i].id == accounts[i].0 && r[i].reverseLimit == accounts[i].1
    ensures forall i :: 0 <= i < |r| ==> 0 <= r[i].remainingReversals
    ensures forall i :: 0 <= i < |r| && accounts[i].0 !in counts ==>
      r[i].remainingReversals == (if accounts[i].1 > 0 then accounts[i].1 else 0)
    ensures forall i :: 0 <= i < |r| && r[i].remainingReversals > 0 ==>
      r[i].remainingReversals == accounts[i].1 - ActiveCount(counts, accounts[i].0)
    ensures forall i :: 0 <= i < |r| ==>
      (r[i].remainingReversals == 0 <==> ActiveCount(counts, accounts[i].0) >= accounts[i].1)
  {
    seq(|accounts|, i requires 0 <= i < |accounts| =>
      Listed(accounts[i].0, accounts[i].1, Remaining(accounts[i].1, ActiveCount(counts, accounts[i].0))))
  }

  // ---------------------------------------------------------------- create and PATCH

  /** `a || b` on two optional strings: an absent or empty `a` falls back to `b`. */
  function UrlOr(a: Option<string>, b: Option<string>): (r: Option<string>)
    ensures a.Some? && a.value != "" ==> r == a
    ensures (a.None? || a.value == "") ==> r == b
  {
    if a.Some? && a.value != "" then a else b
  }

  /** The URL the health check calls: the account's own, else the environment's, else the
      public default; never empty. */
  function ApiUrl(accountUrl: Option<string>, envUrl: Option<string>): (url: string)
    ensures url != ""
    ensures accountUrl.Some? && accountUrl.value != "" ==> url == accountUrl.value
    ensures (accountUrl.None? || accountUrl.value == "") && envUrl.Some? && envUrl.value != "" ==> url == envUrl.value
  {
    var u := UrlOr(accountUrl, envUrl);
    if u.Some? && u.value != "" then u.value else FallbackApiUrl
  }

  /** `reverseLimit || 7`: a missing limit, and a limit of 0, become 7. */
  function LimitOrDefault(reverseLimit: Option<int>): (r: int)
    ensures reverseLimit.None? || reverseLimit.value == 0 ==> r == DefaultReverseLimit
    ensures reverseLimit.Some? && reverseLimit.value != 0 ==> r == reverseLimit.value
    ensures r != 0
  {
    if reverseLimit.Some? && reverseLimit.value != 0 then reverseLimit.value else DefaultReverseLimit
  }

  /** The `forEach` over the allowed fields: the body's entries under an allowed key, and only
      those. A key present in the body is a defined value (JSON has no `undefined`). */
  method PickAllowed(body: map<string, J.Json>, allowed: seq<string>) returns (updates: map<string, J.Json>)
    ensures updates == map k | k in body && k in allowed :: body[k]
  {
    updates := map[];
    var i := 0;
    while i < |allowed|
      invariant 0 <= i <= |allowed|
      invariant updates == map k | k in body && k in allowed[..i] :: body[k]
    {
      var field := allowed[i];
      assert allowed[..i + 1] == allowed[..i] + [field];
      if field in body {
        updates := updates[field := body[field]];
      }
      i := i + 1;
    }
    assert allowed[..i] == allowed;
  }

  /** The picked updates never carry a key outside the allowed list, and carry every allowed key
      the body defines, unchanged. */
  lemma PickedKeys(body: map<string, J.Json>, allowed: seq<string>, k: string)
    ensures var updates := map k | k in body && k in allowed :: body[k];
      && (k in updates <==> k in body && k in allowed)
      && (k in updates ==> updates[k] == body[k])
  {
  }

  /** What the Habitat API answered to the reservation query: its error, or the number of
      reservations it listed. */
  datatype ApiResult = ApiFailure(error: string) | ApiSuccess(totalReservations: int)

  /** The health-check reply: rejected as inactive, failed at the API, or classified. */
  datatype HealthReply =
    | NotActive
    | Failed(error: string)
    | Checked(health: string, remainingReversals: int, activeReservations: int, reverseLimit: int)

  /** A stored account; the three PATCH-able attributes keep the JSON value they were given. */
  class Account {
    const id: int
    const userId: int
    var accountName: J.Json
    var apiToken: J.Json
    var isActive: J.Json
    var apiUrl: Option<string>
    var reverseLimit: int
    var remainingReversals: Option<int>
    var totalReservationsMade: int
    var accountHealth: string
    var healthLastChecked: Option<int>

    /** POST /accounts: the body's name, token and URL (falling back to the environment's) and
        the limit or its default; the rest takes the column defaults. */
    constructor Create(id: int, userId: int, accountName: J.Json, apiToken: J.Json, apiUrl: Option<string>,
                       reverseLimit: Option<int>, envApiUrl: Option<string>)
      ensures this.id == id && this.userId == userId
      ensures this.accountName == accountName && this.apiToken == apiToken
      ensures this.apiUrl == UrlOr(apiUrl, envApiUrl)
      ensures this.reverseLimit == LimitOrDefault(reverseLimit)
      ensures this.isActive == J.Bool(true) && this.accountHealth == "unknown"
      ensures this.remainingReversals.None? && this.totalReservationsMade == 0 && this.healthLastChecked.None?
    {
      this.id := id;
      this.userId := userId;
      this.accountName := accountName;
      this.apiToken := apiToken;
      this.apiUrl := UrlOr(apiUrl, envApiUrl);
      this.reverseLimit := LimitOrDefault(reverseLimit);
      this.isActive := J.Bool(true);
      this.accountHealth := "unknown";
      this.remainingReversals := None;
      this.totalReservationsMade := 0;
      this.healthLastChecked := None;
    }

    /** PATCH /accounts/:id: each allowed attribute the body defines is replaced, and nothing
        else changes. */
    method Patch(body: map<string, J.Json>)
      modifies this
      ensures accountName == if "accountName" in body then body["accountName"] else old(accountName)
      ensures apiToken == if "apiToken" in body then body["apiToken"] else old(apiToken)
      ensures isActive == if "isActive" in body then body["isActive"] else old(isActive)
      ensures apiUrl == old(apiUrl) && reverseLimit == old(reverseLimit)
      ensures remainingReversals == old(remainingReversals) && totalReservationsMade == old(totalReservationsMade)
      ensures accountHealth == old(accountHealth) && healthLastChecked == old(healthLastChecked)
    {
      var updates := PickAllowed(body, AllowedFields);
      if "accountName" in updates {
        accountName := updates["accountName"];
      }
      if "apiToken" in updates {
        apiToken := updates["apiToken"];
      }
      if "isActive" in updates {
        isActive := updates["isActive"];
      }
    }

    /** POST /accounts/:id/check-health at time `now`. An inactive account is turned away with no
        API request (`requested` is None); otherwise the account's URL is requested, a failure
        marks the account 'error', and a success classifies the remaining reversals counted from
        the pending and active reservations in `reservations`. */
    method CheckHealth(envApiUrl: Option<string>, api: ApiResult, reservations: seq<ReservationRow>, now: int)
      returns (reply: HealthReply, requested: Option<string>)
      modifies this
      ensures !J.JsTruthy(old(isActive)) ==> reply == NotActive && requested.None?
      ensures !J.JsTruthy(old(isActive)) ==>
        accountHealth == old(accountHealth) && healthLastChecked == old(healthLastChecked)
        && remainingReversals == old(remainingReversals) && totalReservationsMade == old(totalReservationsMade)
      ensures J.JsTruthy(old(isActive)) ==> requested == Some(ApiUrl(apiUrl, envApiUrl)) && healthLastChecked == Some(now)
      ensures J.JsTruthy(old(isActive)) && api.ApiFailure? ==>
        reply == Failed(api.error) && accountHealth == "error"
        && remainingReversals == old(remainingReversals) && totalReservationsMade == old(totalReservationsMade)
      ensures J.JsTruthy(old(isActive)) && api.ApiSuccess? ==>
        var active := CountWhere(reservations, id, HealthStatuses);
        var remaining := Remaining(reverseLimit, active);
        && reply == Checked(Health(remaining), remaining, active, reverseLimit)
        && accountHealth == Health(remaining) && remainingReversals == Some(remaining)
        && totalReservationsMade == (if api.totalReservations != 0 then api.totalReservations else old(totalReservationsMade))
      ensures accountName == old(accountName) && apiToken == old(apiToken) && isActive == old(isActive)
      ensures apiUrl == old(apiUrl) && reverseLimit == old(reverseLimit)
    {
      if !J.JsTruthy(isActive) {
        return NotActive, None;
      }
      requested := Some(ApiUrl(apiUrl, envApiUrl));
      match api
      case ApiFailure(error) =>
        accountHealth := "error";
        healthLastChecked := Some(now);
        reply := Failed(error);
      case ApiSuccess(total) =>
        var active := CountWhere(reservations, id, HealthStatuses);
        var remaining := Remaining(reverseLimit, active);
        var health := Health(remaining);
        accountHealth := health;
        remainingReversals := Some(remaining);
        healthLastChecked := Some(now);
        if total != 0 {
          totalReservationsMade := total;
        }
        reply := Checked(health, remaining, active, reverseLimit);
    }
  }
}
