/**
 * The rewards ledger that app.py imports as `add_reward_entry`,
 * `get_rewards_adjustment_sum` and `clear_reward_entries` (app.py:14-16).
 * db.py does not define them, so the ledger is modelled from how app.py uses
 * it: an append-only table of signed adjustments keyed by the exact
 * (name, phone) strings, summed and cleared per identity.
 */
module Ledger {
  import opened Tables

  datatype RewardEntry = RewardEntry(name: string, phone: string, points: int, reason: string)

  /** Identities are matched by exact string equality: no case folding, no digit normalisation. */
  predicate Matches(e: RewardEntry, name: string, phone: string) {
    e.name == name && e.phone == phone
  }

  /** `get_rewards_adjustment_sum(name, phone)`: the signed total of that identity's entries. */
  function AdjustmentSum(entries: seq<RewardEntry>, name: string, phone: string): int {
    if entries == [] then 0
    else (if Matches(entries[0], name, phone) then entries[0].points else 0)
         + AdjustmentSum(entries[1..], name, phone)
  }

  lemma {:induction false} AdjustmentSumConcat(a: seq<RewardEntry>, b: seq<RewardEntry>, name: string, phone: string)
    ensures AdjustmentSum(a + b, name, phone) == AdjustmentSum(a, name, phone) + AdjustmentSum(b, name, phone)
  {
    if a == [] {
      assert a + b == b;
    } else {
      assert (a + b)[1..] == a[1..] + b;
      AdjustmentSumConcat(a[1..], b, name, phone);
    }
  }

  /** Appending one entry moves the sum of its own identity by its points and no other sum. */
  lemma AdjustmentSumAppend(entries: seq<RewardEntry>, e: RewardEntry, name: string, phone: string)
    ensures AdjustmentSum(entries + [e], name, phone)
         == AdjustmentSum(entries, name, phone) + (if Matches(e, name, phone) then e.points else 0)
  {
    AdjustmentSumConcat(entries, [e], name, phone);
    assert [e][1..] == [];
  }

  /** An identity with no entries has adjustment 0. */
  lemma {:induction false} NoEntriesNoSum(entries: seq<RewardEntry>, name: string, phone: string)
    ensures (forall e :: e in entries ==> !Matches(e, name, phone)) ==> AdjustmentSum(entries, name, phone) == 0
  {
    if entries != [] {
      NoEntriesNoSum(entries[1..], name, phone);
      assert forall e :: e in entries[1..] ==> e in entries;
    }
  }

  /** `DELETE ... WHERE name = ? AND phone = ?` on the ledger. */
  function WithoutEntriesOf(entries: seq<RewardEntry>, name: string, phone: string): (r: seq<RewardEntry>)
    ensures forall e :: e in r <==> e in entries && !Matches(e, name, phone)
  {
    Filter(entries, (e: RewardEntry) => !Matches(e, name, phone))
  }

  /**
   * After clearing an identity its adjustment sum is 0, and every other
   * identity's sum is what it was.
   */
  lemma {:induction false} ClearedSums(entries: seq<RewardEntry>, name: string, phone: string, name': string, phone': string)
    ensures AdjustmentSum(WithoutEntriesOf(entries, name, phone), name, phone) == 0
    ensures name' != name || phone' != phone ==>
      AdjustmentSum(WithoutEntriesOf(entries, name, phone), name', phone') == AdjustmentSum(entries, name', phone')
  {
    if entries != [] {
      var head := if Matches(entries[0], name, phone) then [] else [entries[0]];
      assert WithoutEntriesOf(entries, name, phone) == head + WithoutEntriesOf(entries[1..], name, phone);
      AdjustmentSumConcat(head, WithoutEntriesOf(entries[1..], name, phone), name, phone);
      AdjustmentSumConcat(head, WithoutEntriesOf(entries[1..], name, phone), name', phone');
      ClearedSums(entries[1..], name, phone, name', phone');
    }
  }

  /** The review page's Balance: `max(0, earned + adjustments)`, never negative. */
  function Balance(earned: int, adjustments: int): (b: nat)
    ensures b >= earned + adjustments
    ensures b == 0 || b == earned + adjustments
  {
    if earned + adjustments > 0 then earned + adjustments else 0
  }

  /**
   * The ledger table. Entries are only appended, or removed a whole identity
   * at a time.
   */
  class RewardLedger {
    var entries: seq<RewardEntry>

    constructor ()
      ensures entries == []
    {
      entries := [];
    }

    /** `get_rewards_adjustment_sum`: summed over this identity's entries only. */
    function GetAdjustmentSum(name: string, phone: string): (r: int)
      reads this
      ensures (forall e :: e in entries ==> !Matches(e, name, phone)) ==> r == 0
    {
      NoEntriesNoSum(entries, name, phone);
      AdjustmentSum(entries, name, phone)
    }

    /** `add_reward_entry`: appends one entry; only this identity's sum moves, by `points`. */
    method AddRewardEntry(name: string, phone: string, points: int, reason: string)
      modifies this
      ensures entries == old(entries) + [RewardEntry(name, phone, points, reason)]
      ensures GetAdjustmentSum(name, phone) == old(GetAdjustmentSum(name, phone)) + points
      ensures forall n, p :: n != name || p != phone ==>
        AdjustmentSum(entries, n, p) == AdjustmentSum(old(entries), n, p)
    {
      var e := RewardEntry(name, phone, points, reason);
      forall n, p ensures AdjustmentSum(entries + [e], n, p)
                       == AdjustmentSum(entries, n, p) + (if Matches(e, n, p) then e.points else 0)
      {
        AdjustmentSumAppend(entries, e, n, p);
      }
      entries := entries + [e];
    }

    /** `clear_reward_entries`: removes exactly this identity's entries. */
    method ClearRewardEntries(name: string, phone: string)
      modifies this
      ensures entries == WithoutEntriesOf(old(entries), name, phone)
      ensures GetAdjustmentSum(name, phone) == 0
      ensures forall n, p :: n != name || p != phone ==>
        AdjustmentSum(entries, n, p) == AdjustmentSum(old(entries), n, p)
    {
      forall n, p ensures AdjustmentSum(WithoutEntriesOf(entries, name, phone), name, phone) == 0
                       && (n != name || p != phone ==>
                           AdjustmentSum(WithoutEntriesOf(entries, name, phone), n, p) == AdjustmentSum(entries, n, p))
      {
        ClearedSums(entries, name, phone, n, p);
      }
      entries := WithoutEntriesOf(entries, name, phone);
    }
  }
}
