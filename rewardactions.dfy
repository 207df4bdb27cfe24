/**
 * The three Reward Actions of `_review_page` (app.py:799-837): add an
 * adjustment, pay an identity's balance (zero it out), and delete all of an
 * identity's adjustments. Each needs a name and a mobile that are not blank;
 * both are stripped before they reach the ledger.
 */
module RewardActions {
  import opened Text
  import opened Ledger
  import opened Review

  /** The guard of all three actions. */
  predicate IdentityGiven(name: string, phone: string) {
    Strip(name) != [] && Strip(phone) != []
  }

  predicate Listed(l: Summary, name: string, phone: string) {
    l.name == name && l.phone == phone
  }

  /** `earned` as the Pay action looks it up: the first listed line of the identity, else 0. */
  function ListedEarned(lines: seq<Summary>, name: string, phone: string): (e: int)
    ensures (forall l :: l in lines ==> !Listed(l, name, phone)) ==> e == 0
    ensures (exists l :: l in lines && Listed(l, name, phone)) ==>
      exists l :: l in lines && Listed(l, name, phone) && e == l.earned
  {
    if lines == [] then 0
    else if Listed(lines[0], name, phone) then lines[0].earned
    else
      assert forall l :: l in lines[1..] ==> l in lines;
      assert forall l :: l in lines && l != lines[0] ==> l in lines[1..] by {
        assert lines == [lines[0]] + lines[1..];
      }
      ListedEarned(lines[1..], name, phone)
  }

  /**
   * On a faithful table the looked-up figure is the identity's earned points,
   * whether or not it is listed.
   */
  lemma ListedEarnedMeaning(lines: seq<Summary>, rows: seq<RewardRow>, name: string, phone: string)
    requires LinesFaithful(lines, rows)
    ensures ListedEarned(lines, name, phone) == EarnedFor(rows, name, phone)
  {
    if forall l :: l in lines ==> !Listed(l, name, phone) {
      forall k | 0 <= k < |rows| ensures !RowOf(rows[k], name, phone) {
        var row := rows[k];
        var l :| l in lines && RowOf(row, l.name, l.phone);
      }
      NoRowsNothingEarned(rows, name, phone);
    }
  }

  /** The loop of app.py:816-820: the first matching line's earned points, stopping there. */
  method FindEarned(lines: seq<Summary>, name: string, phone: string) returns (earned: int)
    ensures earned == ListedEarned(lines, name, phone)
  {
    earned := 0;
    var i := 0;
    while i < |lines|
      invariant 0 <= i <= |lines|
      invariant ListedEarned(lines, name, phone) == ListedEarned(lines[i..], name, phone)
    {
      if lines[i].name == name && lines[i].phone == phone {
        earned := lines[i].earned;
        return;
      }
      assert lines[i..][1..] == lines[i + 1..];
      i := i + 1;
    }
  }

  /** The ledger after Pay: a "paid" entry of minus the balance, unless the balance is already 0. */
  function PayEntries(entries: seq<RewardEntry>, lines: seq<Summary>, name: string, phone: string): seq<RewardEntry> {
    if !IdentityGiven(name, phone) then entries
    else
      var n, p := Strip(name), Strip(phone);
      var balance: int := Balance(ListedEarned(lines, n, p), AdjustmentSum(entries, n, p));
      if balance == 0 then entries else entries + [RewardEntry(n, p, -balance, "paid")]
  }

  /** After Pay the identity's balance, computed from the same earned figure, is 0. */
  lemma PayZeroesBalance(entries: seq<RewardEntry>, lines: seq<Summary>, name: string, phone: string)
    requires IdentityGiven(name, phone)
    ensures Balance(ListedEarned(lines, Strip(name), Strip(phone)),
                    AdjustmentSum(PayEntries(entries, lines, name, phone), Strip(name), Strip(phone))) == 0
  {
    var n, p := Strip(name), Strip(phone);
    var earned := ListedEarned(lines, n, p);
    var before := AdjustmentSum(entries, n, p);
    var balance: int := Balance(earned, before);
    var after := PayEntries(entries, lines, name, phone);
    if balance != 0 {
      var e := RewardEntry(n, p, -balance, "paid");
      assert after == entries + [e];
      AdjustmentSumAppend(entries, e, n, p);
      assert AdjustmentSum(after, n, p) == before - balance;
      assert earned + before - balance == 0;
    } else {
      assert after == entries;
    }
  }

  /** Paying twice in a row adds nothing the second time. */
  lemma PayIdempotent(entries: seq<RewardEntry>, lines: seq<Summary>, name: string, phone: string)
    ensures PayEntries(PayEntries(entries, lines, name, phone), lines, name, phone)
         == PayEntries(entries, lines, name, phone)
  {
    if IdentityGiven(name, phone) {
      PayZeroesBalance(entries, lines, name, phone);
    }
  }

  /** Pay leaves every other identity's adjustments as they were. */
  lemma PayLeavesOthers(entries: seq<RewardEntry>, lines: seq<Summary>, name: string, phone: string,
                        name': string, phone': string)
    requires name' != Strip(name) || phone' != Strip(phone)
    ensures AdjustmentSum(PayEntries(entries, lines, name, phone), name', phone') == AdjustmentSum(entries, name', phone')
  {
    if IdentityGiven(name, phone) {
      var n, p := Strip(name), Strip(phone);
      var balance: int := Balance(ListedEarned(lines, n, p), AdjustmentSum(entries, n, p));
      AdjustmentSumAppend(entries, RewardEntry(n, p, -balance, "paid"), name', phone');
    }
  }

  /**
   * On a faithful table, paying zeroes the balance the next rendering of the
   * same rows shows for the identity.
   */
  lemma PaidIdentityShowsZero(entries: seq<RewardEntry>, lines: seq<Summary>, rows: seq<RewardRow>,
                              name: string, phone: string)
    requires LinesFaithful(lines, rows) && IdentityGiven(name, phone)
    ensures Balance(EarnedFor(rows, Strip(name), Strip(phone)),
                    AdjustmentSum(PayEntries(entries, lines, name, phone), Strip(name), Strip(phone))) == 0
  {
    ListedEarnedMeaning(lines, rows, Strip(name), Strip(phone));
    PayZeroesBalance(entries, lines, name, phone);
  }

  datatype PayOutcome = NeedIdentity | AlreadyZero | Paid(amount: nat)

  /**
   * "Pay (Zero Out)" (app.py:808-828): with a name and mobile, look up the
   * identity's earned points in the table and its adjustments in the ledger,
   * and record a "paid" entry of minus the balance unless it is already 0.
   */
  method PayZeroOut(ledger: RewardLedger, lines: seq<Summary>, name: string, phone: string)
    returns (outcome: PayOutcome)
    modifies ledger
    ensures ledger.entries == PayEntries(old(ledger.entries), lines, name, phone)
    ensures outcome == NeedIdentity <==> !IdentityGiven(name, phone)
    ensures outcome == AlreadyZero <==>
      IdentityGiven(name, phone) && ledger.entries == old(ledger.entries)
    ensures outcome.Paid? ==>
      && outcome.amount > 0
      && outcome.amount == Balance(ListedEarned(lines, Strip(name), Strip(phone)),
                                   AdjustmentSum(old(ledger.entries), Strip(name), Strip(phone)))
      && ledger.entries == old(ledger.entries) + [RewardEntry(Strip(name), Strip(phone), -(outcome.amount as int), "paid")]
  {
    if !IdentityGiven(name, phone) {
      return NeedIdentity;
    }
    var n, p := Strip(name), Strip(phone);
    ghost var before := ledger.entries;
    var currentAdjustment := ledger.GetAdjustmentSum(n, p);
    assert currentAdjustment == AdjustmentSum(before, n, p);
    var earned := FindEarned(lines, n, p);
    var balance: int := Balance(earned, currentAdjustment);
    if balance == 0 {
      assert PayEntries(before, lines, name, phone) == before;
      return AlreadyZero;
    }
    assert PayEntries(before, lines, name, phone) == before + [RewardEntry(n, p, -balance, "paid")];
    ledger.AddRewardEntry(n, p, -balance, "paid");
    outcome := Paid(balance);
  }

  /**
   * "Add Adjustment" (app.py:799-807): with a name and mobile, one ledger
   * entry of the given points and stripped reason; the identity's sum moves
   * by exactly those points.
   */
  method AddAdjustment(ledger: RewardLedger, name: string, phone: string, points: int, reason: string)
    returns (applied: bool)
    modifies ledger
    ensures applied <==> IdentityGiven(name, phone)
    ensures ledger.entries == if applied
      then old(ledger.entries) + [RewardEntry(Strip(name), Strip(phone), points, Strip(reason))]
      else old(ledger.entries)
    ensures applied ==>
      ledger.GetAdjustmentSum(Strip(name), Strip(phone)) == old(ledger.GetAdjustmentSum(Strip(name), Strip(phone))) + points
  {
    if !IdentityGiven(name, phone) {
      return false;
    }
    ledger.AddRewardEntry(Strip(name), Strip(phone), points, Strip(reason));
    applied := true;
  }

  /**
   * "Delete All Adjustments" (app.py:829-837): with a name and mobile, every
   * ledger entry of the identity goes, and with them its adjustments.
   */
  method DeleteAdjustments(ledger: RewardLedger, name: string, phone: string) returns (applied: bool)
    modifies ledger
    ensures applied <==> IdentityGiven(name, phone)
    ensures ledger.entries == if applied
      then WithoutEntriesOf(old(ledger.entries), Strip(name), Strip(phone))
      else old(ledger.entries)
    ensures applied ==> ledger.GetAdjustmentSum(Strip(name), Strip(phone)) == 0
  {
    if !IdentityGiven(name, phone) {
      return false;
    }
    ledger.ClearRewardEntries(Strip(name), Strip(phone));
    applied := true;
  }

  /** Once its adjustments are deleted, an identity's balance is its earned points again. */
  lemma DeletedIdentityShowsEarned(entries: seq<RewardEntry>, rows: seq<RewardRow>, name: string, phone: string)
    ensures Balance(EarnedFor(rows, name, phone), AdjustmentSum(WithoutEntriesOf(entries, name, phone), name, phone))
         == EarnedFor(rows, name, phone)
  {
    ClearedSums(entries, name, phone, name, phone);
  }
}
