/**
 * `_review_page`: which submissions the filters keep, the rows they feed into
 * the rewards summary, the summary grouped by exact (name, phone), and the
 * three reward actions on the ledger.
 */
module Review {
  import opened Wrappers
  import opened Text
  import opened Tables
  import opened Db
  import opened Ledger
  import opened SettingKeys

  /**
   * The name and phone part of `_matches_filters`: a non-empty name filter,
   * stripped, must occur in the name ignoring case; a non-empty phone filter,
   * stripped, must occur in the phone exactly. The date-range part is the
   * verdict `inDateRange`.
   */
  predicate MatchesFilters(s: Submission, nameFilter: string, phoneFilter: string, inDateRange: bool) {
    && (nameFilter == [] || Contains(Lower(s.name), Lower(Strip(nameFilter))))
    && (phoneFilter == [] || Contains(s.phone, Strip(phoneFilter)))
    && inDateRange
  }

  /**
   * Filters made only of whitespace keep every submission (they strip to the
   * empty string, which occurs everywhere); a stored phone used as the phone
   * filter finds its own submission.
   */
  lemma FilterBoundaries(s: Submission, nameFilter: string, phoneFilter: string)
    ensures AllSpace(nameFilter) && AllSpace(phoneFilter) ==> MatchesFilters(s, nameFilter, phoneFilter, true)
    ensures Unpadded(s.phone) ==> MatchesFilters(s, [], s.phone, true)
  {
    if AllSpace(nameFilter) && AllSpace(phoneFilter) {
      assert Lower(Strip(nameFilter)) == [] && Strip(phoneFilter) == [];
      assert OccursAt(Lower(s.name), [], 0);
      assert OccursAt(s.phone, [], 0);
    }
    if Unpadded(s.phone) {
      StripUnpadded(s.phone);
      assert OccursAt(s.phone, s.phone, 0);
    }
  }

  /** One entry of `all_filtered_rows`: a kept submission's name and phone with its request's points. */
  datatype RewardRow = RewardRow(name: string, phone: string, points: int)

  /** The points one submission to request `id` earns, as the review page reads them (default "0"). */
  function RequestPoints(settings: map<string, string>, id: nat): int {
    PointsOf(if PointsKey(id) in settings then settings[PointsKey(id)] else "0")
  }

  /** `_matches_filters` as the list comprehension of app.py:698 applies it. */
  function Keep(nameFilter: string, phoneFilter: string, inDateRange: Submission -> bool): Submission -> bool {
    s => MatchesFilters(s, nameFilter, phoneFilter, inDateRange(s))
  }

  /** The rows one request contributes: its kept submissions, in listing order, with its points. */
  function KeptRows(kept: seq<Submission>, points: int): (rows: seq<RewardRow>)
    ensures |rows| == |kept|
  {
    seq(|kept|, i requires 0 <= i < |kept| => RewardRow(kept[i].name, kept[i].phone, points))
  }

  /** The rows request `r` contributes: its submissions, newest first, that `keep` keeps, with its points. */
  function RequestRows(store: Store, r: Request, keep: Submission -> bool): seq<RewardRow>
    reads store
  {
    KeptRows(Filter(store.ListSubmissions(r.id), keep), RequestPoints(store.settings, r.id))
  }

  /** `all_filtered_rows` after the first `n` requests of `reqs`. */
  function CollectedUpTo(store: Store, reqs: seq<Request>, n: nat, keep: Submission -> bool): seq<RewardRow>
    requires n <= |reqs|
    reads store
  {
    if n == 0 then [] else CollectedUpTo(store, reqs, n - 1, keep) + RequestRows(store, reqs[n - 1], keep)
  }

  /** A row request `r` may contribute: one of its kept submissions, with its points. */
  ghost predicate YieldsFrom(store: Store, r: Request, keep: Submission -> bool, x: RewardRow)
    reads store
  {
    exists s :: s in store.submissions && s.requestId == r.id && keep(s)
      && x == RewardRow(s.name, s.phone, RequestPoints(store.settings, r.id))
  }

  /** A request's listed submissions are exactly the stored submissions that name it. */
  lemma ListedMembership(store: Store, id: int, s: Submission)
    ensures s in store.ListSubmissions(id) <==> s in store.submissions && s.requestId == id
  {
    var listed := store.ListSubmissions(id);
    assert s in listed <==> multiset(listed)[s] > 0;
    assert s in store.submissions <==> multiset(store.submissions)[s] > 0;
  }

  /** The rows of `kept` are exactly the rows built from one of its submissions. */
  lemma KeptRowsMembership(kept: seq<Submission>, points: int, x: RewardRow)
    ensures x in KeptRows(kept, points) <==> exists s :: s in kept && x == RewardRow(s.name, s.phone, points)
  {
    var rows := KeptRows(kept, points);
    if x in rows {
      var i :| 0 <= i < |kept| && rows[i] == x;
      assert kept[i] in kept;
    }
    if exists s :: s in kept && x == RewardRow(s.name, s.phone, points) {
      var s :| s in kept && x == RewardRow(s.name, s.phone, points);
      var i :| 0 <= i < |kept| && kept[i] == s;
      assert rows[i] == x;
    }
  }

  /** One request's rows are exactly the rows it may contribute. */
  lemma RequestRowsMeaning(store: Store, r: Request, keep: Submission -> bool, x: RewardRow)
    ensures x in RequestRows(store, r, keep) <==> YieldsFrom(store, r, keep, x)
  {
    var kept := Filter(store.ListSubmissions(r.id), keep);
    var pts := RequestPoints(store.settings, r.id);
    KeptRowsMembership(kept, pts, x);
    if x in RequestRows(store, r, keep) {
      var s :| s in kept && x == RewardRow(s.name, s.phone, pts);
      ListedMembership(store, r.id, s);
      assert YieldsFrom(store, r, keep, x);
    }
    if YieldsFrom(store, r, keep, x) {
      var s :| s in store.submissions && s.requestId == r.id && keep(s)
        && x == RewardRow(s.name, s.phone, pts);
      ListedMembership(store, r.id, s);
      assert s in kept;
    }
  }

  /** The rows after `n` requests are exactly those one of those requests may contribute. */
  lemma {:induction false} CollectedUpToMeaning(store: Store, reqs: seq<Request>, n: nat, keep: Submission -> bool, x: RewardRow)
    requires n <= |reqs|
    ensures x in CollectedUpTo(store, reqs, n, keep) <==> exists i :: 0 <= i < n && YieldsFrom(store, reqs[i], keep, x)
  {
    if n > 0 {
      var prefix := CollectedUpTo(store, reqs, n - 1, keep);
      var last := RequestRows(store, reqs[n - 1], keep);
      assert CollectedUpTo(store, reqs, n, keep) == prefix + last;
      assert x in prefix + last <==> x in prefix || x in last;
      CollectedUpToMeaning(store, reqs, n - 1, keep, x);
      RequestRowsMeaning(store, reqs[n - 1], keep, x);
      if exists i :: 0 <= i < n && YieldsFrom(store, reqs[i], keep, x) {
        var i :| 0 <= i < n && YieldsFrom(store, reqs[i], keep, x);
        if i < n - 1 {
          assert x in prefix;
        } else {
          assert x in last;
        }
      }
      if x in prefix + last {
        if x in prefix {
          var i :| 0 <= i < n - 1 && YieldsFrom(store, reqs[i], keep, x);
          assert 0 <= i < n && YieldsFrom(store, reqs[i], keep, x);
        } else {
          assert 0 <= n - 1 < n && YieldsFrom(store, reqs[n - 1], keep, x);
        }
      }
    }
  }

  /** `all_filtered_rows`: the rows of every request, newest request first. */
  function Collected(store: Store, keep: Submission -> bool): seq<RewardRow>
    reads store
  {
    var reqs := store.ListRequests(None);
    CollectedUpTo(store, reqs, |reqs|, keep)
  }

  /** Listing without a status filter lists every stored request. */
  lemma AllListed(store: Store, r: Request)
    ensures r in store.ListRequests(None) <==> r in store.requests
  {
    var reqs := store.ListRequests(None);
    assert multiset(reqs)[r] == multiset(store.requests)[r];
    assert r in reqs <==> multiset(reqs)[r] > 0;
  }

  /**
   * Every collected row comes from a submission the filters keep, carrying
   * the points of the request it belongs to; and every kept submission of a
   * stored request is collected.
   */
  lemma CollectedMeaning(store: Store, keep: Submission -> bool, x: RewardRow)
    ensures x in Collected(store, keep) <==> exists r :: r in store.requests && YieldsFrom(store, r, keep, x)
  {
    if x in Collected(store, keep) {
      CollectedFrom(store, keep, x);
    }
    if exists r :: r in store.requests && YieldsFrom(store, r, keep, x) {
      var r :| r in store.requests && YieldsFrom(store, r, keep, x);
      CollectedAll(store, keep, r, x);
    }
  }

  lemma CollectedFrom(store: Store, keep: Submission -> bool, x: RewardRow)
    requires x in Collected(store, keep)
    ensures exists r :: r in store.requests && YieldsFrom(store, r, keep, x)
  {
    var reqs := store.ListRequests(None);
    CollectedUpToMeaning(store, reqs, |reqs|, keep, x);
    var i :| 0 <= i < |reqs| && YieldsFrom(store, reqs[i], keep, x);
    AllListed(store, reqs[i]);
  }

  lemma CollectedAll(store: Store, keep: Submission -> bool, r: Request, x: RewardRow)
    requires r in store.requests && YieldsFrom(store, r, keep, x)
    ensures x in Collected(store, keep)
  {
    var reqs := store.ListRequests(None);
    AllListed(store, r);
    var i :| 0 <= i < |reqs| && reqs[i] == r;
    CollectedUpToMeaning(store, reqs, |reqs|, keep, x);
  }

  /** The inner loop of app.py:712-720: one row per kept submission, appended in order. */
  method AppendRows(rows: seq<RewardRow>, kept: seq<Submission>, points: int) returns (rows': seq<RewardRow>)
    ensures rows' == rows + KeptRows(kept, points)
  {
    rows' := rows;
    for j := 0 to |kept|
      invariant rows' == rows + KeptRows(kept[..j], points)
    {
      assert KeptRows(kept[..j + 1], points) == KeptRows(kept[..j], points) + [RewardRow(kept[j].name, kept[j].phone, points)];
      rows' := rows' + [RewardRow(kept[j].name, kept[j].phone, points)];
    }
    assert kept[..|kept|] == kept;
  }

  /**
   * One pass of the collection loop (app.py:687-720): a request without
   * submissions is skipped; otherwise `count` is how many of its submissions
   * the filters keep, and those, if any, become rows.
   */
  method CollectRequest(store: Store, r: Request, keep: Submission -> bool, rows: seq<RewardRow>)
    returns (count: nat, rows': seq<RewardRow>)
    ensures rows' == rows + RequestRows(store, r, keep)
    ensures count == |RequestRows(store, r, keep)|
  {
    var subs := store.ListSubmissions(r.id);
    var points := RequestPoints(store.settings, r.id);
    var kept := Filter(subs, keep);
    count, rows' := 0, rows;
    if subs == [] {
      return;
    }
    count := |kept|;
    if kept == [] {
      return;
    }
    rows' := AppendRows(rows, kept, points);
  }

  /** The loop of app.py:686 over the requests `reqs`, in order. */
  method CollectFrom(store: Store, reqs: seq<Request>, keep: Submission -> bool) returns (total: nat, rows: seq<RewardRow>)
    ensures total == |rows|
    ensures rows == CollectedUpTo(store, reqs, |reqs|, keep)
  {
    total, rows := 0, [];
    for k := 0 to |reqs|
      invariant total == |rows|
      invariant rows == CollectedUpTo(store, reqs, k, keep)
    {
      ghost var before := rows;
      var count, rows' := CollectRequest(store, reqs[k], keep, rows);
      assert |rows'| == |before| + count;
      assert rows' == CollectedUpTo(store, reqs, k + 1, keep);
      rows := rows';
      total := total + count;
    }
  }

  /**
   * The collection loop of `_review_page` (app.py:684-720): for each request
   * newest first, its submissions newest first, those the filters keep
   * counted in the total and turned into rows carrying the request's points.
   */
  method CollectRows(store: Store, nameFilter: string, phoneFilter: string, inDateRange: Submission -> bool)
    returns (total: nat, rows: seq<RewardRow>)
    ensures total == |rows|
    ensures rows == Collected(store, Keep(nameFilter, phoneFilter, inDateRange))
  {
    total, rows := CollectFrom(store, store.ListRequests(None), Keep(nameFilter, phoneFilter, inDateRange));
  }

  /** One summary line: the dictionary `_review_page` builds per (name, phone). */
  datatype Summary = Summary(name: string, phone: string, earned: int, adjustments: int, balance: int, submissions: nat)

  predicate RowOf(r: RewardRow, name: string, phone: string) {
    r.name == name && r.phone == phone
  }

  /** `max(0, pts)`: a negative points setting earns nothing. */
  function Earns(points: int): nat {
    if points > 0 then points else 0
  }

  /** Earned points of one identity: the sum of `max(0, pts)` over its rows. */
  function EarnedFor(rows: seq<RewardRow>, name: string, phone: string): nat {
    if rows == [] then 0
    else EarnedFor(rows[..|rows| - 1], name, phone)
         + (if RowOf(rows[|rows| - 1], name, phone) then Earns(rows[|rows| - 1].points) else 0)
  }

  /** How many rows one identity has. */
  function CountFor(rows: seq<RewardRow>, name: string, phone: string): nat {
    if rows == [] then 0
    else CountFor(rows[..|rows| - 1], name, phone) + (if RowOf(rows[|rows| - 1], name, phone) then 1 else 0)
  }

  /** An identity with no rows has count 0 and earns 0. */
  lemma {:induction false} NoRowsNothingEarned(rows: seq<RewardRow>, name: string, phone: string)
    requires forall k :: 0 <= k < |rows| ==> !RowOf(rows[k], name, phone)
    ensures EarnedFor(rows, name, phone) == 0 && CountFor(rows, name, phone) == 0
  {
    if rows != [] {
      NoRowsNothingEarned(rows[..|rows| - 1], name, phone);
    }
  }

  function TotalSubmissions(summary: seq<Summary>): nat {
    if summary == [] then 0 else TotalSubmissions(summary[..|summary| - 1]) + summary[|summary| - 1].submissions
  }

  /**
   * `summary` is the rewards summary of `rows`: one line per identity that has
   * rows, no identity twice, and each line's earned points and submission
   * count are those of its identity.
   */
  ghost predicate Summarises(summary: seq<Summary>, rows: seq<RewardRow>) {
    && (forall i, j :: 0 <= i < j < |summary| ==>
          summary[i].name != summary[j].name || summary[i].phone != summary[j].phone)
    && (forall i :: 0 <= i < |summary| ==>
          && summary[i].earned == EarnedFor(rows, summary[i].name, summary[i].phone)
          && summary[i].submissions == CountFor(rows, summary[i].name, summary[i].phone)
          && summary[i].submissions > 0)
    && (forall k :: 0 <= k < |rows| ==>
          exists i :: 0 <= i < |summary| && RowOf(rows[k], summary[i].name, summary[i].phone))
  }

  /** The submission counts of the lines for the identities in `order`. */
  function CountsIn(order: seq<(string, string)>, agg: map<(string, string), Summary>): nat
    requires forall key :: key in order ==> key in agg
  {
    if order == [] then 0
    else CountsIn(order[..|order| - 1], agg) + agg[order[|order| - 1]].submissions
  }

  /** Changing the line of an identity outside `order` does not change the counts of `order`. */
  lemma {:induction false} CountsInOther(order: seq<(string, string)>, agg: map<(string, string), Summary>,
                                         key: (string, string), line: Summary)
    requires forall k :: k in order ==> k in agg
    requires key !in order
    ensures CountsIn(order, agg[key := line]) == CountsIn(order, agg)
  {
    if order != [] {
      CountsInOther(order[..|order| - 1], agg, key, line);
    }
  }

  /** Changing the line of an identity listed once in `order` moves the counts by the difference. */
  lemma {:induction false} CountsInUpdate(order: seq<(string, string)>, agg: map<(string, string), Summary>,
                                          key: (string, string), line: Summary)
    requires forall k :: k in order ==> k in agg
    requires forall a, b :: 0 <= a < b < |order| ==> order[a] != order[b]
    requires key in order
    ensures CountsIn(order, agg[key := line]) == CountsIn(order, agg) - agg[key].submissions + line.submissions
  {
    var init := order[..|order| - 1];
    if order[|order| - 1] == key {
      assert key !in init;
      CountsInOther(init, agg, key, line);
    } else {
      assert key in init;
      CountsInUpdate(init, agg, key, line);
    }
  }

  /** The line a row is added to: its identity's existing line, or a new one with everything 0. */
  function LineFor(agg: map<(string, string), Summary>, key: (string, string)): Summary {
    if key in agg then agg[key] else Summary(key.0, key.1, 0, 0, 0, 0)
  }

  /** One pass of the first loop: the row's line gains `max(0, pts)` and one submission. */
  function Tally(agg: map<(string, string), Summary>, r: RewardRow): map<(string, string), Summary> {
    var key := (r.name, r.phone);
    var line := LineFor(agg, key);
    agg[key := line.(earned := line.earned + Earns(r.points), submissions := line.submissions + 1)]
  }

  /** The dictionary the first loop leaves after `rows`. */
  function GroupMap(rows: seq<RewardRow>): map<(string, string), Summary> {
    if rows == [] then map[] else Tally(GroupMap(rows[..|rows| - 1]), rows[|rows| - 1])
  }

  /** Its keys in insertion order, which is the order `agg.values()` lists them in. */
  function KeyOrder(rows: seq<RewardRow>): seq<(string, string)> {
    if rows == [] then []
    else
      var init := rows[..|rows| - 1];
      var key := (rows[|rows| - 1].name, rows[|rows| - 1].phone);
      if key in GroupMap(init) then KeyOrder(init) else KeyOrder(init) + [key]
  }

  /**
   * The dictionary has a key exactly for the identities that have rows, and
   * lists each of them once.
   */
  lemma {:induction false} GroupKeys(rows: seq<RewardRow>)
    ensures forall key :: key in GroupMap(rows) <==> key in KeyOrder(rows)
    ensures forall key: (string, string) :: key in GroupMap(rows) <==> CountFor(rows, key.0, key.1) > 0
    ensures forall a, b :: 0 <= a < b < |KeyOrder(rows)| ==> KeyOrder(rows)[a] != KeyOrder(rows)[b]
  {
    if rows != [] {
      GroupKeys(rows[..|rows| - 1]);
    }
  }

  /** Each line holds its identity's earned points and row count; adjustment and balance are still 0. */
  ghost predicate LinesMatch(agg: map<(string, string), Summary>, rows: seq<RewardRow>) {
    forall key :: key in agg ==>
      agg[key] == Summary(key.0, key.1, EarnedFor(rows, key.0, key.1), 0, 0, CountFor(rows, key.0, key.1))
  }

  lemma {:induction false} GroupLines(rows: seq<RewardRow>)
    ensures LinesMatch(GroupMap(rows), rows)
  {
    if rows != [] {
      var init := rows[..|rows| - 1];
      GroupLines(init);
      GroupKeys(init);
      var r := rows[|rows| - 1];
      var key := (r.name, r.phone);
      if key !in GroupMap(init) {
        NoRowsNothingEarned(init, key.0, key.1) by {
          forall k | 0 <= k < |init| ensures !RowOf(init[k], key.0, key.1) {
            if RowOf(init[k], key.0, key.1) {
              RowCounted(init, k);
            }
          }
        }
      }
    }
  }

  /** Every row counts towards its own identity. */
  lemma {:induction false} RowCounted(rows: seq<RewardRow>, j: nat)
    requires j < |rows|
    ensures CountFor(rows, rows[j].name, rows[j].phone) > 0
  {
    if j < |rows| - 1 {
      RowCounted(rows[..|rows| - 1], j);
    }
  }

  /** A new identity at the end of `order` adds its own line's count. */
  lemma AppendedCount(order: seq<(string, string)>, agg: map<(string, string), Summary>,
                      key: (string, string), line: Summary)
    requires forall k :: k in order ==> k in agg
    requires key !in order
    ensures CountsIn(order + [key], agg[key := line]) == CountsIn(order, agg) + line.submissions
  {
    CountsInOther(order, agg, key, line);
    assert (order + [key])[..|order|] == order;
  }

  /** The submission counts over all lines add up to the number of rows. */
  lemma {:induction false} GroupCounts(rows: seq<RewardRow>)
    requires forall key :: key in KeyOrder(rows) ==> key in GroupMap(rows)
    ensures CountsIn(KeyOrder(rows), GroupMap(rows)) == |rows|
  {
    if rows != [] {
      var init := rows[..|rows| - 1];
      var o, m := KeyOrder(init), GroupMap(init);
      var r := rows[|rows| - 1];
      var key := (r.name, r.phone);
      var line := LineFor(m, key);
      var line' := line.(earned := line.earned + Earns(r.points), submissions := line.submissions + 1);
      assert GroupMap(rows) == m[key := line'];
      GroupKeys(init);
      assert forall k :: k in o ==> k in m;
      GroupCounts(init);
      if key in m {
        assert KeyOrder(rows) == o;
        assert key in o;
        CountsInUpdate(o, m, key, line');
      } else {
        assert KeyOrder(rows) == o + [key];
        assert key !in o;
        AppendedCount(o, m, key, line');
      }
    }
  }

  /**
   * The first loop of the rewards summary (app.py:746-752): one dictionary
   * entry per exact (name, phone), created with everything 0 on the
   * identity's first row.
   */
  method GroupRows(rows: seq<RewardRow>) returns (agg: map<(string, string), Summary>, order: seq<(string, string)>)
    ensures agg == GroupMap(rows) && order == KeyOrder(rows)
  {
    agg, order := map[], [];
    for k := 0 to |rows|
      invariant agg == GroupMap(rows[..k]) && order == KeyOrder(rows[..k])
    {
      assert rows[..k + 1][..k] == rows[..k];
      var key := (rows[k].name, rows[k].phone);
      if key !in agg {
        agg := agg[key := Summary(key.0, key.1, 0, 0, 0, 0)];
        order := order + [key];
      }
      var line := agg[key];
      agg := agg[key := line.(earned := line.earned + Earns(rows[k].points), submissions := line.submissions + 1)];
    }
    assert rows[..|rows|] == rows;
  }

  /**
   * The second loop (app.py:755-758): each identity's ledger adjustment and
   * its balance `max(0, earned + adjustments)`, listed in key order.
   */
  method AttachAdjustments(agg: map<(string, string), Summary>, order: seq<(string, string)>, ledger: RewardLedger)
    returns (summary: seq<Summary>)
    requires forall key :: key in order ==> key in agg
    ensures |summary| == |order|
    ensures forall a :: 0 <= a < |order| ==>
      summary[a] == agg[order[a]].(adjustments := ledger.GetAdjustmentSum(agg[order[a]].name, agg[order[a]].phone),
                                   balance := Balance(agg[order[a]].earned,
                                                      ledger.GetAdjustmentSum(agg[order[a]].name, agg[order[a]].phone)))
    ensures TotalSubmissions(summary) == CountsIn(order, agg)
  {
    summary := [];
    for j := 0 to |order|
      invariant |summary| == j
      invariant forall a :: 0 <= a < j ==>
        summary[a] == agg[order[a]].(adjustments := ledger.GetAdjustmentSum(agg[order[a]].name, agg[order[a]].phone),
                                     balance := Balance(agg[order[a]].earned,
                                                        ledger.GetAdjustmentSum(agg[order[a]].name, agg[order[a]].phone)))
      invariant TotalSubmissions(summary) == CountsIn(order[..j], agg)
    {
      assert order[..j + 1][..j] == order[..j];
      var line := agg[order[j]];
      var adjustment := ledger.GetAdjustmentSum(line.name, line.phone);
      ghost var before := summary;
      summary := summary + [line.(adjustments := adjustment, balance := Balance(line.earned, adjustment))];
      assert summary[..j] == before;
    }
    assert order[..|order|] == order;
  }

  /**
   * The rewards summary (app.py:746-758): rows grouped by their exact
   * (name, phone), `max(0, pts)` summed and rows counted per identity, then
   * each identity's ledger adjustment and its balance
   * `max(0, earned + adjustments)`, never negative. The submission counts add
   * up to the number of rows.
   */
  method Summarise(rows: seq<RewardRow>, ledger: RewardLedger) returns (summary: seq<Summary>)
    ensures Summarises(summary, rows)
    ensures forall i :: 0 <= i < |summary| ==>
      && summary[i].adjustments == ledger.GetAdjustmentSum(summary[i].name, summary[i].phone)
      && summary[i].balance == Balance(summary[i].earned, summary[i].adjustments)
    ensures TotalSubmissions(summary) == |rows|
  {
    var agg, order := GroupRows(rows);
    KeysListed(rows);
    summary := AttachAdjustments(agg, order, ledger);
    forall a | 0 <= a < |summary| ensures SameLine(summary[a], LineFor(agg, order[a])) {
      assert order[a] in agg;
    }
    GroupedSummary(rows, summary);
    GroupCounts(rows);
  }

  /** Every key the first loop lists has a line in the dictionary. */
  lemma KeysListed(rows: seq<RewardRow>)
    ensures forall key :: key in KeyOrder(rows) ==> key in GroupMap(rows)
  {
    GroupKeys(rows);
  }

  /** Line `s` carries the identity, earned points and count of dictionary line `l`. */
  predicate SameLine(s: Summary, l: Summary) {
    s.name == l.name && s.phone == l.phone && s.earned == l.earned && s.submissions == l.submissions
  }

  /** Lines taken from the dictionary in its key order form the summary of the rows. */
  lemma GroupedSummary(rows: seq<RewardRow>, summary: seq<Summary>)
    requires |summary| == |KeyOrder(rows)|
    requires forall a :: 0 <= a < |summary| ==> SameLine(summary[a], LineFor(GroupMap(rows), KeyOrder(rows)[a]))
    ensures Summarises(summary, rows)
  {
    var agg, order := GroupMap(rows), KeyOrder(rows);
    GroupKeys(rows);
    forall a | 0 <= a < |summary|
      ensures (summary[a].name, summary[a].phone) == order[a]
      ensures summary[a].earned == EarnedFor(rows, summary[a].name, summary[a].phone)
      ensures summary[a].submissions == CountFor(rows, summary[a].name, summary[a].phone) > 0
    {
      assert order[a] in agg;
      GroupedLine(rows, order[a]);
    }
    forall k | 0 <= k < |rows|
      ensures exists i :: 0 <= i < |summary| && RowOf(rows[k], summary[i].name, summary[i].phone)
    {
      RowCounted(rows, k);
      var i :| 0 <= i < |order| && order[i] == (rows[k].name, rows[k].phone);
      assert RowOf(rows[k], summary[i].name, summary[i].phone);
    }
  }

  /** The dictionary line of an identity with rows holds its earned points and its row count. */
  lemma GroupedLine(rows: seq<RewardRow>, key: (string, string))
    requires key in GroupMap(rows)
    ensures GroupMap(rows)[key] == Summary(key.0, key.1, EarnedFor(rows, key.0, key.1), 0, 0, CountFor(rows, key.0, key.1))
    ensures CountFor(rows, key.0, key.1) > 0
  {
    GroupLines(rows);
    GroupKeys(rows);
  }

  /** A cell of one summary row as pandas and the sort see it. */
  datatype Cell = Str(s: string) | Num(n: int)

  /** The dictionary app.py:750 creates per identity, with the fields app.py:751-758 fill in. */
  function SummaryDict(l: Summary): map<string, Cell> {
    map["Name" := Str(l.name), "Phone" := Str(l.phone), "Earned Points" := Num(l.earned),
        "Adjustments" := Num(l.adjustments), "Balance" := Num(l.balance), "Submissions" := Num(l.submissions)]
  }

  datatype SortError = KeyError(key: string) | TypeError

  /** The sort key of app.py:764 as written: `(-r["Total Points"], r["Name"])`. */
  function SortKeyAsWritten(row: map<string, Cell>): Result<(int, string), SortError> {
    if "Total Points" !in row then Err(KeyError("Total Points"))
    else if "Name" !in row then Err(KeyError("Name"))
    else match (row["Total Points"], row["Name"])
      case (Num(n), Str(name)) => Ok((-n, name))
      case _ => Err(TypeError)
  }

  /** `list.sort(key=...)` computes every key first; the first failing key raises. */
  function SortKeysAsWritten(rows: seq<map<string, Cell>>): Result<seq<(int, string)>, SortError> {
    if rows == [] then Ok([])
    else match SortKeyAsWritten(rows[0])
      case Err(e) => Err(e)
      case Ok(key) =>
        match SortKeysAsWritten(rows[1..])
        case Err(e) => Err(e)
        case Ok(keys) => Ok([key] + keys)
  }

  /**
   * No summary row has a "Total Points" field, so as written the sort raises
   * KeyError for every non-empty summary, which is the only kind the page
   * reaches line 764 with.
   */
  lemma TotalPointsMissing(lines: seq<Summary>)
    requires lines != []
    ensures SortKeysAsWritten(seq(|lines|, i requires 0 <= i < |lines| => SummaryDict(lines[i])))
            == Err(KeyError("Total Points"))
  {
    var dicts := seq(|lines|, i requires 0 <= i < |lines| => SummaryDict(lines[i]));
    assert "Total Points" !in dicts[0];
  }

  /**
   * What the Pay action relies on: every listed line carries its identity's
   * earned points, and every row's identity is listed.
   */
  ghost predicate LinesFaithful(lines: seq<Summary>, rows: seq<RewardRow>) {
    && (forall l :: l in lines ==> l.earned == EarnedFor(rows, l.name, l.phone))
    && (forall k :: 0 <= k < |rows| ==> exists l :: l in lines && RowOf(rows[k], l.name, l.phone))
  }

  /**
   * The rewards table of `_review_page` (app.py:746-762), in the order the
   * dictionary lists its keys: one line per identity that has rows, each with
   * its earned points, row count, ledger adjustment and balance. The table is
   * empty exactly when there are no rows.
   */
  method ReviewSummary(rows: seq<RewardRow>, ledger: RewardLedger) returns (lines: seq<Summary>)
    ensures LinesFaithful(lines, rows)
    ensures forall l :: l in lines ==>
      && l.submissions == CountFor(rows, l.name, l.phone) && l.submissions > 0
      && l.adjustments == ledger.GetAdjustmentSum(l.name, l.phone)
      && l.balance == Balance(l.earned, l.adjustments)
    ensures lines == [] <==> rows == []
  {
    lines := Summarise(rows, ledger);
    forall k | 0 <= k < |rows| ensures exists l :: l in lines && RowOf(rows[k], l.name, l.phone) {
      var i :| 0 <= i < |lines| && RowOf(rows[k], lines[i].name, lines[i].phone);
      assert lines[i] in lines;
    }
    if rows != [] {
      var row := rows[0];
      assert lines != [] by {
        var l :| l in lines && RowOf(row, l.name, l.phone);
      }
    }
  }
}
