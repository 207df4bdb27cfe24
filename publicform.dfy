/**
 * `_public_form`: the gate a scanned token must pass before the form is shown,
 * and what submitting the form does to the store.
 */
module PublicForm {
  import opened Wrappers
  import opened Text
  import opened Tables
  import opened Db
  import opened Forms

  /** Where the token stops: unknown, closed request, spent one-time code, or open with its request. */
  datatype GateState = UnknownToken | Closed | Expired | Open(request: Request)

  /** The three checks of `_public_form`, in source order, on the requests table. */
  function GateOf(rows: seq<Request>, token: string): GateState {
    match FindByToken(rows, token)
    case None => UnknownToken
    case Some(r) =>
      if r.status != "open" then Closed
      else if TokenUsedIn(rows, token) then Expired
      else Open(r)
  }

  /**
   * The form opens exactly when some request holds the token, is open, and is
   * not a one-time request that has already been used; it is unknown exactly
   * when no request holds the token.
   */
  lemma GateMeaning(rows: seq<Request>, token: string)
    requires DistinctBy(rows, TokenOf)
    ensures GateOf(rows, token).Open? <==>
      exists i :: 0 <= i < |rows| && rows[i].token == token && rows[i].status == "open"
                  && !(rows[i].oneTimeUse && rows[i].usedCount > 0)
    ensures GateOf(rows, token) == UnknownToken <==> !HasToken(rows, token)
    ensures GateOf(rows, token).Open? ==> GateOf(rows, token).request in rows
  {
    if HasToken(rows, token) {
      var i :| 0 <= i < |rows| && rows[i].token == token;
      FindByTokenUnique(rows, i);
      forall j | 0 <= j < |rows| && rows[j].token == token ensures j == i {
      }
    }
  }

  /** Once a one-time request has been used, its token never opens the form again. */
  lemma UsedOneTimeTokenExpires(rows: seq<Request>, i: nat)
    requires i < |rows| && rows[i].oneTimeUse && rows[i].status == "open"
    requires DistinctBy(rows, TokenOf)
    ensures GateOf(WithUseCounted(rows, rows[i].token), rows[i].token) == Expired
  {
    var t := rows[i].token;
    var r := WithUseCounted(rows, t);
    MarkedTokenIsUsed(rows, i, t);
    assert DistinctBy(r, TokenOf) by {
      assert forall k :: 0 <= k < |r| ==> r[k].token == rows[k].token;
    }
    FindByTokenUnique(r, i);
  }

  datatype SubmitOutcome =
    | InvalidToken
    | FormClosed
    | AlreadyUsed
    | Rejected(errors: seq<FieldError>)
    | DuplicateSubmission
    | Submitted(submission: Submission)

  /**
   * The store step of `_public_form` (app.py:594-595): `add_submission` with
   * the stripped fields, then `mark_token_used` only if the insert succeeded.
   */
  method StoreSubmission(store: Store, req: Request, n: string, p: string, e: string, now: nat)
    returns (outcome: SubmitOutcome)
    requires store.Valid()
    requires req in store.requests
    modifies store
    ensures store.Valid()
    ensures outcome == DuplicateSubmission || outcome.Submitted?
    ensures outcome == DuplicateSubmission <==> PhoneTaken(old(store.submissions), req.id, p)
    ensures outcome == DuplicateSubmission ==>
      && store.requests == old(store.requests) && store.submissions == old(store.submissions)
      && store.settings == old(store.settings) && store.lastSubmissionId == old(store.lastSubmissionId)
    ensures outcome.Submitted? ==>
      && store.lastSubmissionId == old(store.lastSubmissionId) + 1
      && outcome.submission == Submission(store.lastSubmissionId, req.id, n, p, e, now)
      && store.submissions == old(store.submissions) + [outcome.submission]
      && store.requests == WithUseCounted(old(store.requests), req.token)
      && store.settings == old(store.settings)
  {
    var added := store.AddSubmission(req.id, n, p, e, now);
    if added.Err? {
      return DuplicateSubmission;
    }
    store.MarkTokenUsed(req.token);
    outcome := Submitted(added.value);
  }

  /**
   * The part of `_public_form` after the gate has let `req` through: validate,
   * and only a valid submission reaches the store.
   */
  method AcceptSubmission(store: Store, req: Request, name: string, phone: string, email: string, now: nat)
    returns (outcome: SubmitOutcome)
    requires store.Valid()
    requires req in store.requests && req.status == "open"
    modifies store
    ensures store.Valid()
    ensures outcome.Rejected? || outcome == DuplicateSubmission || outcome.Submitted?
    ensures outcome.Rejected? <==> !SubmissionAcceptable(name, phone, email)
    ensures outcome.Rejected? ==> outcome.errors != []
    ensures outcome == DuplicateSubmission <==>
      SubmissionAcceptable(name, phone, email) && PhoneTaken(old(store.submissions), req.id, Strip(phone))
    ensures !outcome.Submitted? ==>
      && store.requests == old(store.requests) && store.submissions == old(store.submissions)
      && store.settings == old(store.settings) && store.lastSubmissionId == old(store.lastSubmissionId)
    ensures outcome.Submitted? ==>
      && store.lastSubmissionId == old(store.lastSubmissionId) + 1
      && outcome.submission == Submission(store.lastSubmissionId, req.id,
                                          Strip(name), Strip(phone), Strip(email), now)
      && store.submissions == old(store.submissions) + [outcome.submission]
      && store.requests == WithUseCounted(old(store.requests), req.token)
      && store.settings == old(store.settings)
  {
    var errors, notices := ValidateSubmission(name, phone, email);
    if errors != [] {
      return Rejected(errors);
    }
    outcome := StoreSubmission(store, req, Strip(name), Strip(phone), Strip(email), now);
  }

  /**
   * Opening the form for `token` and submitting it: the gate decides first,
   * and only an open gate reaches the store. Every path but a successful
   * insert leaves the store as it was.
   */
  method SubmitForm(store: Store, token: string, name: string, phone: string, email: string, now: nat)
    returns (outcome: SubmitOutcome)
    requires store.Valid()
    modifies store
    ensures store.Valid()
    ensures outcome == InvalidToken <==> GateOf(old(store.requests), token) == UnknownToken
    ensures outcome == FormClosed <==> GateOf(old(store.requests), token) == Closed
    ensures outcome == AlreadyUsed <==> GateOf(old(store.requests), token) == Expired
    ensures outcome.Rejected? <==>
      GateOf(old(store.requests), token).Open? && !SubmissionAcceptable(name, phone, email)
    ensures outcome == DuplicateSubmission <==>
      && GateOf(old(store.requests), token).Open? && SubmissionAcceptable(name, phone, email)
      && PhoneTaken(old(store.submissions), GateOf(old(store.requests), token).request.id, Strip(phone))
    ensures !outcome.Submitted? ==>
      && store.requests == old(store.requests) && store.submissions == old(store.submissions)
      && store.settings == old(store.settings) && store.lastSubmissionId == old(store.lastSubmissionId)
    ensures outcome.Submitted? ==>
      && store.lastSubmissionId == old(store.lastSubmissionId) + 1
      && outcome.submission == Submission(store.lastSubmissionId,
                                          GateOf(old(store.requests), token).request.id,
                                          Strip(name), Strip(phone), Strip(email), now)
      && store.submissions == old(store.submissions) + [outcome.submission]
      && store.requests == WithUseCounted(old(store.requests), token)
      && store.settings == old(store.settings)
    ensures outcome.Submitted? && GateOf(old(store.requests), token).request.oneTimeUse ==>
      GateOf(store.requests, token) == Expired
  {
    var found := store.GetRequestByToken(token);
    if found.None? {
      return InvalidToken;
    }
    var req := found.value;
    if req.status != "open" {
      return FormClosed;
    }
    if store.IsTokenUsed(token) {
      return AlreadyUsed;
    }
    assert GateOf(store.requests, token) == Open(req);
    ghost var i :| 0 <= i < |store.requests| && store.requests[i] == req;
    ghost var before := store.requests;
    outcome := AcceptSubmission(store, req, name, phone, email, now);
    if outcome.Submitted? && req.oneTimeUse {
      UsedOneTimeTokenExpires(before, i);
    }
  }
}
