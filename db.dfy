/**
 * The SQLite store of db.py: a settings table (key -> value), a requests table
 * and a submissions table, each operation one short transaction. Rows are held
 * in insertion (rowid) order; `created_at` is the timestamp passed in as `now`.
 */
module Db {
  import opened Wrappers
  import opened Tables

  /** A row of `requests` (db.py:45-54). `one_time_use` is only ever written as 0 or 1, so it is a bool. */
  datatype Request = Request(
    id: nat,
    title: string,
    description: string,
    status: string,
    token: string,
    createdAt: nat,
    oneTimeUse: bool,
    usedCount: nat)

  /** A row of `submissions` (db.py:60-68). `request_id` is not checked against `requests`. */
  datatype Submission = Submission(
    id: nat,
    requestId: int,
    name: string,
    phone: string,
    email: string,
    createdAt: nat)

  datatype DbError =
    | TokenTaken      // the UNIQUE constraint on requests.token
    | DuplicatePhone  // "A submission with this phone number already exists for this request"

  /** The WHERE clause of `list_requests`: Python's `if status:` treats None and "" as "no filter". */
  predicate StatusSelects(status: Option<string>, r: Request) {
    status == None || status == Some("") || r.status == status.value
  }

  function TokenOf(r: Request): string { r.token }
  function RequestIdOf(r: Request): int { r.id }
  function SubmissionIdOf(s: Submission): int { s.id }
  /** The pair add_submission checks before inserting. */
  function PhoneKey(s: Submission): (int, string) { (s.requestId, s.phone) }

  /** A submission for the request already carries this exact phone string: the check of `add_submission`. */
  predicate PhoneTaken(subs: seq<Submission>, requestId: int, phone: string) {
    exists i :: 0 <= i < |subs| && subs[i].requestId == requestId && subs[i].phone == phone
  }

  predicate HasToken(rows: seq<Request>, token: string) {
    exists i :: 0 <= i < |rows| && rows[i].token == token
  }

  /** `SELECT * FROM requests WHERE token = ?` followed by `fetchone()`: the first matching row. */
  function FindByToken(rows: seq<Request>, token: string): (r: Option<Request>)
    ensures r.Some? <==> HasToken(rows, token)
    ensures r.Some? ==> r.value in rows && r.value.token == token
  {
    if rows == [] then None
    else if rows[0].token == token then Some(rows[0])
    else
      var r := FindByToken(rows[1..], token);
      assert HasToken(rows, token) ==> HasToken(rows[1..], token) by {
        if HasToken(rows, token) {
          var i :| 0 <= i < |rows| && rows[i].token == token;
          assert rows[1..][i - 1].token == token;
        }
      }
      r
  }

  /** When tokens are unique, the row found for a token is the one row holding it. */
  lemma {:induction false} FindByTokenUnique(rows: seq<Request>, i: nat)
    requires i < |rows|
    requires DistinctBy(rows, TokenOf)
    ensures FindByToken(rows, rows[i].token) == Some(rows[i])
  {
    if i > 0 {
      assert rows[0].token != rows[i].token;
      assert DistinctBy(rows[1..], TokenOf) by {
        forall a, b | 0 <= a < b < |rows[1..]| ensures rows[1..][a].token != rows[1..][b].token {
          assert rows[1..][a] == rows[a + 1] && rows[1..][b] == rows[b + 1];
        }
      }
      FindByTokenUnique(rows[1..], i - 1);
    }
  }

  /** The test of `is_token_used` on the row found: one-time use and used at least once. */
  predicate TokenUsedIn(rows: seq<Request>, token: string) {
    match FindByToken(rows, token)
    case None => false
    case Some(r) => r.oneTimeUse && r.usedCount > 0
  }

  lemma TokenUsedMeaning(rows: seq<Request>, token: string)
    requires DistinctBy(rows, TokenOf)
    ensures TokenUsedIn(rows, token) <==>
      exists i :: 0 <= i < |rows| && rows[i].token == token && rows[i].oneTimeUse && rows[i].usedCount > 0
  {
    if HasToken(rows, token) {
      var i :| 0 <= i < |rows| && rows[i].token == token;
      FindByTokenUnique(rows, i);
    }
  }

  /** `UPDATE requests SET status = ? WHERE id = ?`. */
  function WithStatus(rows: seq<Request>, id: int, status: string): (r: seq<Request>)
    ensures |r| == |rows|
  {
    seq(|rows|, i requires 0 <= i < |rows| => if rows[i].id == id then rows[i].(status := status) else rows[i])
  }

  /** `UPDATE requests SET one_time_use = ? WHERE id = ?`. */
  function WithOneTimeUse(rows: seq<Request>, id: int, flag: bool): (r: seq<Request>)
    ensures |r| == |rows|
  {
    seq(|rows|, i requires 0 <= i < |rows| => if rows[i].id == id then rows[i].(oneTimeUse := flag) else rows[i])
  }

  /** `UPDATE requests SET used_count = used_count + 1 WHERE token = ?`. */
  function WithUseCounted(rows: seq<Request>, token: string): (r: seq<Request>)
    ensures |r| == |rows|
  {
    seq(|rows|, i requires 0 <= i < |rows| =>
      if rows[i].token == token then rows[i].(usedCount := rows[i].usedCount + 1) else rows[i])
  }

  /** Setting a status twice is the same as setting it once. */
  lemma WithStatusIdempotent(rows: seq<Request>, id: int, status: string)
    ensures WithStatus(WithStatus(rows, id, status), id, status) == WithStatus(rows, id, status)
  {
  }

  function TotalUses(rows: seq<Request>): nat {
    if rows == [] then 0 else rows[0].usedCount + TotalUses(rows[1..])
  }

  /**
   * `mark_token_used` on a token held by some row adds exactly one use to the
   * table as a whole (tokens are unique, so exactly one row moves by one).
   */
  lemma {:induction false} UseCountedAddsOne(rows: seq<Request>, token: string)
    requires DistinctBy(rows, TokenOf)
    requires HasToken(rows, token)
    ensures TotalUses(WithUseCounted(rows, token)) == TotalUses(rows) + 1
  {
    var r := WithUseCounted(rows, token);
    assert r[1..] == WithUseCounted(rows[1..], token);
    if rows[0].token == token {
      NoTokenNoUse(rows[1..], token);
    } else {
      assert DistinctBy(rows[1..], TokenOf) by {
        forall a, b | 0 <= a < b < |rows[1..]| ensures rows[1..][a].token != rows[1..][b].token {
          assert rows[1..][a] == rows[a + 1] && rows[1..][b] == rows[b + 1];
        }
      }
      var i :| 0 <= i < |rows| && rows[i].token == token;
      assert rows[1..][i - 1].token == token;
      UseCountedAddsOne(rows[1..], token);
    }
  }

  /** Counting uses of a token nobody holds changes nothing. */
  lemma {:induction false} NoTokenNoUse(rows: seq<Request>, token: string)
    requires forall i :: 0 <= i < |rows| ==> rows[i].token != token
    ensures WithUseCounted(rows, token) == rows
  {
  }

  /**
   * After `mark_token_used(t)` on a one-time request, `is_token_used(t)` holds,
   * and the used state of every other token is what it was.
   */
  lemma MarkedTokenIsUsed(rows: seq<Request>, i: nat, other: string)
    requires i < |rows| && rows[i].oneTimeUse
    requires DistinctBy(rows, TokenOf)
    ensures TokenUsedIn(WithUseCounted(rows, rows[i].token), rows[i].token)
    ensures other != rows[i].token ==>
      TokenUsedIn(WithUseCounted(rows, rows[i].token), other) == TokenUsedIn(rows, other)
  {
    var t := rows[i].token;
    var r := WithUseCounted(rows, t);
    assert DistinctBy(r, TokenOf) by {
      assert forall k :: 0 <= k < |r| ==> r[k].token == rows[k].token;
    }
    FindByTokenUnique(r, i);
    if other != t {
      if HasToken(rows, other) {
        var k :| 0 <= k < |rows| && rows[k].token == other;
        FindByTokenUnique(rows, k);
        FindByTokenUnique(r, k);
      } else {
        assert !HasToken(r, other);
      }
    }
  }

  /** The requests table's keys: ids and tokens are unique, ids lie in 1..last. */
  ghost predicate RequestsValid(rows: seq<Request>, last: nat) {
    && DistinctBy(rows, RequestIdOf)
    && DistinctBy(rows, TokenOf)
    && (forall r :: r in rows ==> 1 <= r.id <= last)
  }

  /** The submissions table's keys: ids unique in 1..last, and no (request, phone) pair twice. */
  ghost predicate SubmissionsValid(subs: seq<Submission>, last: nat) {
    && DistinctBy(subs, SubmissionIdOf)
    && DistinctBy(subs, PhoneKey)
    && (forall s :: s in subs ==> 1 <= s.id <= last)
  }

  /** `DELETE FROM requests WHERE id = ?`. */
  function WithoutRequest(rows: seq<Request>, id: int): (r: seq<Request>)
    ensures forall x :: x in r <==> x in rows && x.id != id
  {
    Filter(rows, (x: Request) => x.id != id)
  }

  /** `DELETE FROM submissions WHERE request_id = ?`. */
  function WithoutSubmissionsOf(subs: seq<Submission>, requestId: int): (r: seq<Submission>)
    ensures forall s :: s in r <==> s in subs && s.requestId != requestId
  {
    Filter(subs, (s: Submission) => s.requestId != requestId)
  }

  lemma DeleteKeepsRequestsValid(rows: seq<Request>, id: int, last: nat)
    requires RequestsValid(rows, last)
    ensures RequestsValid(WithoutRequest(rows, id), last)
  {
    FilterKeepsDistinct(rows, (x: Request) => x.id != id, RequestIdOf);
    FilterKeepsDistinct(rows, (x: Request) => x.id != id, TokenOf);
  }

  lemma DeleteKeepsSubmissionsValid(subs: seq<Submission>, requestId: int, last: nat)
    requires SubmissionsValid(subs, last)
    ensures SubmissionsValid(WithoutSubmissionsOf(subs, requestId), last)
  {
    FilterKeepsDistinct(subs, (s: Submission) => s.requestId != requestId, SubmissionIdOf);
    FilterKeepsDistinct(subs, (s: Submission) => s.requestId != requestId, PhoneKey);
  }

  /**
   * The persistent store. `lastRequestId` and `lastSubmissionId` stand for
   * SQLite's AUTOINCREMENT counters (sqlite_sequence): ids are never reused,
   * not even after rows are deleted.
   */
  class Store {
    var settings: map<string, string>
    var requests: seq<Request>
    var submissions: seq<Submission>
    var lastRequestId: nat
    var lastSubmissionId: nat

    /**
     * The schema's guarantees (db.py:34-70) plus the one add_submission keeps:
     * ids are keys below their counter, tokens are UNIQUE, and no request has
     * two submissions with the same phone string.
     */
    ghost predicate Valid()
      reads this
    {
      RequestsValid(requests, lastRequestId) && SubmissionsValid(submissions, lastSubmissionId)
    }

    /** `init_db` on a new database file: three empty tables. */
    constructor ()
      ensures Valid()
      ensures settings == map[] && requests == [] && submissions == []
    {
      settings := map[];
      requests := [];
      submissions := [];
      lastRequestId := 0;
      lastSubmissionId := 0;
    }

    /** `get_setting`: the stored value, or the caller's default when the key is absent. */
    function GetSetting(key: string, default: Option<string>): (r: Option<string>)
      reads this
      ensures key in settings ==> r == Some(settings[key])
      ensures key !in settings ==> r == default
    {
      if key in settings then Some(settings[key]) else default
    }

    /** `set_setting`: insert or overwrite one key; every other key and both other tables stay. */
    method SetSetting(key: string, value: string)
      requires Valid()
      modifies this
      ensures Valid()
      ensures settings == old(settings)[key := value]
      ensures forall d :: GetSetting(key, d) == Some(value)
      ensures forall k :: k != key ==> (k in settings <==> k in old(settings))
      ensures forall k :: k != key && k in settings ==> settings[k] == old(settings)[k]
      ensures requests == old(requests) && submissions == old(submissions)
      ensures lastRequestId == old(lastRequestId) && lastSubmissionId == old(lastSubmissionId)
    {
      settings := settings[key := value];
    }

    /**
     * `create_request`: one new open row with a fresh id, `one_time_use = 0`
     * and `used_count = 0`; a token some row already holds violates the
     * UNIQUE constraint and nothing is written.
     */
    method CreateRequest(title: string, description: string, token: string, now: nat)
      returns (r: Result<Request, DbError>)
      requires Valid()
      modifies this
      ensures Valid()
      ensures settings == old(settings) && submissions == old(submissions)
      ensures lastSubmissionId == old(lastSubmissionId)
      ensures HasToken(old(requests), token) ==>
        r == Err(TokenTaken) && requests == old(requests) && lastRequestId == old(lastRequestId)
      ensures !HasToken(old(requests), token) ==>
        && r == Ok(Request(old(lastRequestId) + 1, title, description, "open", token, now, false, 0))
        && requests == old(requests) + [r.value]
        && lastRequestId == old(lastRequestId) + 1
      ensures r.Ok? ==> forall i :: 0 <= i < |old(requests)| ==> old(requests)[i].id != r.value.id
    {
      if HasToken(requests, token) {
        r := Err(TokenTaken);
      } else {
        var row := Request(lastRequestId + 1, title, description, "open", token, now, false, 0);
        requests := requests + [row];
        lastRequestId := lastRequestId + 1;
        r := Ok(row);
      }
    }

    /**
     * `list_requests(status)`: exactly the rows whose status is `status` (all
     * rows when it is None or ""), newest first.
     */
    function ListRequests(status: Option<string>): (r: seq<Request>)
      reads this
      ensures NewestFirst(r, (x: Request) => x.createdAt)
      ensures forall x :: multiset(r)[x] == if StatusSelects(status, x) then multiset(requests)[x] else 0
    {
      SortNewestFirst(Filter(requests, (x: Request) => StatusSelects(status, x)), (x: Request) => x.createdAt)
    }

    /** `get_request_by_token`: the row holding the token, or None. */
    function GetRequestByToken(token: string): (r: Option<Request>)
      reads this
      ensures r.Some? <==> HasToken(requests, token)
      ensures r.Some? ==> r.value in requests && r.value.token == token
    {
      FindByToken(requests, token)
    }

    /** `update_request_status`: only the status of the row with that id changes. */
    method UpdateRequestStatus(id: int, status: string)
      requires Valid()
      modifies this
      ensures Valid()
      ensures requests == WithStatus(old(requests), id, status)
      ensures forall i :: 0 <= i < |requests| ==>
        requests[i] == if old(requests)[i].id == id then old(requests)[i].(status := status) else old(requests)[i]
      ensures settings == old(settings) && submissions == old(submissions)
      ensures lastRequestId == old(lastRequestId) && lastSubmissionId == old(lastSubmissionId)
    {
      requests := WithStatus(requests, id, status);
    }

    /**
     * `delete_request`: the request and every submission pointing at it go;
     * all other rows stay, and the `points_{id}` and `qr_custom_{id}` settings
     * are NOT removed.
     */
    method DeleteRequest(id: int)
      requires Valid()
      modifies this
      ensures Valid()
      ensures requests == WithoutRequest(old(requests), id)
      ensures submissions == WithoutSubmissionsOf(old(submissions), id)
      ensures settings == old(settings)
      ensures lastRequestId == old(lastRequestId) && lastSubmissionId == old(lastSubmissionId)
    {
      DeleteSubmissionsOf(id);
      DeleteRequestRow(id);
    }

    /** `DELETE FROM submissions WHERE request_id = ?`. */
    method DeleteSubmissionsOf(id: int)
      requires Valid()
      modifies this
      ensures Valid()
      ensures submissions == WithoutSubmissionsOf(old(submissions), id)
      ensures requests == old(requests) && settings == old(settings)
      ensures lastRequestId == old(lastRequestId) && lastSubmissionId == old(lastSubmissionId)
    {
      DeleteKeepsSubmissionsValid(submissions, id, lastSubmissionId);
      submissions := WithoutSubmissionsOf(submissions, id);
    }

    /** `DELETE FROM requests WHERE id = ?`. */
    method DeleteRequestRow(id: int)
      requires Valid()
      modifies this
      ensures Valid()
      ensures requests == WithoutRequest(old(requests), id)
      ensures submissions == old(submissions) && settings == old(settings)
      ensures lastRequestId == old(lastRequestId) && lastSubmissionId == old(lastSubmissionId)
    {
      DeleteKeepsRequestsValid(requests, id, lastRequestId);
      requests := WithoutRequest(requests, id);
    }

    /**
     * `add_submission`: a submission for the same request with the identical
     * phone string is refused and nothing is written; otherwise exactly one
     * row with the given fields and a fresh id is appended.
     */
    method AddSubmission(requestId: int, name: string, phone: string, email: string, now: nat)
      returns (r: Result<Submission, DbError>)
      requires Valid()
      modifies this
      ensures Valid()
      ensures settings == old(settings) && requests == old(requests)
      ensures lastRequestId == old(lastRequestId)
      ensures PhoneTaken(old(submissions), requestId, phone) ==>
        r == Err(DuplicatePhone) && submissions == old(submissions) && lastSubmissionId == old(lastSubmissionId)
      ensures !PhoneTaken(old(submissions), requestId, phone) ==>
        && r == Ok(Submission(old(lastSubmissionId) + 1, requestId, name, phone, email, now))
        && submissions == old(submissions) + [r.value]
        && lastSubmissionId == old(lastSubmissionId) + 1
    {
      if PhoneTaken(submissions, requestId, phone) {
        r := Err(DuplicatePhone);
      } else {
        var row := Submission(lastSubmissionId + 1, requestId, name, phone, email, now);
        submissions := submissions + [row];
        lastSubmissionId := lastSubmissionId + 1;
        r := Ok(row);
      }
    }

    /** `list_submissions(request_id)`: exactly that request's submissions, newest first. */
    function ListSubmissions(requestId: int): (r: seq<Submission>)
      reads this
      ensures NewestFirst(r, (s: Submission) => s.createdAt)
      ensures forall s :: multiset(r)[s] == if s.requestId == requestId then multiset(submissions)[s] else 0
    {
      SortNewestFirst(Filter(submissions, (s: Submission) => s.requestId == requestId), (s: Submission) => s.createdAt)
    }

    /** A request none of whose submissions remain lists no submissions. */
    lemma NothingListedFor(requestId: int)
      requires forall s :: s in submissions ==> s.requestId != requestId
      ensures ListSubmissions(requestId) == []
    {

    }

    /** `is_token_used`: a request holds the token, is one-time use, and has been used. */
    function IsTokenUsed(token: string): (b: bool)
      reads this
      requires Valid()
      ensures b <==> exists i :: 0 <= i < |requests| && requests[i].token == token
                                && requests[i].oneTimeUse && requests[i].usedCount > 0
    {
      TokenUsedMeaning(requests, token);
      TokenUsedIn(requests, token)
    }

    /** `mark_token_used`: the row holding the token gains one use; nothing else changes. */
    method MarkTokenUsed(token: string)
      requires Valid()
      modifies this
      ensures Valid()
      ensures requests == WithUseCounted(old(requests), token)
      ensures forall i :: 0 <= i < |requests| ==>
        requests[i] == if old(requests)[i].token == token
                       then old(requests)[i].(usedCount := old(requests)[i].usedCount + 1)
                       else old(requests)[i]
      ensures settings == old(settings) && submissions == old(submissions)
      ensures lastRequestId == old(lastRequestId) && lastSubmissionId == old(lastSubmissionId)
    {
      requests := WithUseCounted(requests, token);
    }

    /** `set_one_time_use`: only the one-time flag of the row with that id changes. */
    method SetOneTimeUse(id: int, oneTime: bool)
      requires Valid()
      modifies this
      ensures Valid()
      ensures requests == WithOneTimeUse(old(requests), id, oneTime)
      ensures forall i :: 0 <= i < |requests| ==>
        requests[i] == if old(requests)[i].id == id then old(requests)[i].(oneTimeUse := oneTime) else old(requests)[i]
      ensures settings == old(settings) && submissions == old(submissions)
      ensures lastRequestId == old(lastRequestId) && lastSubmissionId == old(lastSubmissionId)
    {
      requests := WithOneTimeUse(requests, id, oneTime);
    }

    /**
     * `wipe_database`: settings, requests and submissions are emptied. DELETE
     * does not reset AUTOINCREMENT, so later ids keep counting upwards.
     */
    method WipeDatabase()
      requires Valid()
      modifies this
      ensures Valid()
      ensures settings == map[] && requests == [] && submissions == []
      ensures lastRequestId == old(lastRequestId) && lastSubmissionId == old(lastSubmissionId)
    {
      submissions := [];
      requests := [];
      settings := map[];
    }
  }
}
