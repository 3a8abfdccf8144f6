/**
 * The contribution ledger: contribution records, the total of their amounts
 * (`reduce((sum, c) => sum + c.amount, 0)`) and the per-user filter of the
 * admin dashboard (`contributions.filter((c) => c.userId._id === user._id)`).
 */
module Ledger {
  import opened Wrappers

  /** A user document as the user listing returns it. */
  datatype User = User(
    id: string,
    name: string,
    email: string,
    role: string,
    totalSavings: int,             // kept by the server, displayed as is
    lastContribution: Option<string>)

  /**
   * The owner field of a contribution: the bare user id (the self-service
   * listing) or the populated user document (the admin listing).
   */
  datatype Owner = OwnerId(id: string) | OwnerDoc(user: User)

  datatype Contribution = Contribution(id: string, owner: Owner, amount: int, date: string)

  /**
   * `c.userId._id`: the id of a populated owner; a bare id string has no `_id`
   * property, so the lookup is `undefined`.
   */
  function OwnerKey(o: Owner): (r: Option<string>)
    ensures r.Some? <==> o.OwnerDoc?
    ensures o.OwnerDoc? ==> r == Some(o.user.id)
  {
    match o
    case OwnerId(_) => None
    case OwnerDoc(u) => Some(u.id)
  }

  /** The admin filter's test for one record. */
  predicate BelongsTo(c: Contribution, userId: string) {
    OwnerKey(c.owner) == Some(userId)
  }

  /** The sum of the amounts; 0 for no records, the seed of `reduce`. */
  function Total(cs: seq<Contribution>): int {
    if |cs| == 0 then 0 else cs[0].amount + Total(cs[1..])
  }

  /** The records of one user, in their original order. */
  function ForUser(cs: seq<Contribution>, userId: string): (r: seq<Contribution>)
    ensures |r| <= |cs|
    ensures forall c :: c in r <==> c in cs && BelongsTo(c, userId)
  {
    if |cs| == 0 then []
    else (if BelongsTo(cs[0], userId) then [cs[0]] else []) + ForUser(cs[1..], userId)
  }

  /** The total is additive over concatenation. */
  lemma {:induction false} TotalAppend(a: seq<Contribution>, b: seq<Contribution>)
    ensures Total(a + b) == Total(a) + Total(b)
  {
    if |a| == 0 {
      assert a + b == b;
    } else {
      assert (a + b)[1..] == a[1..] + b;
      TotalAppend(a[1..], b);
    }
  }

  /** Total over a list with one more record at the end. */
  lemma TotalSnoc(cs: seq<Contribution>, c: Contribution)
    ensures Total(cs + [c]) == Total(cs) + c.amount
  {
    TotalAppend(cs, [c]);
  }

  /** Taking one record out of a list leaves the other records. */
  lemma RemoveAtMultiset(b: seq<Contribution>, i: nat)
    requires i < |b|
    ensures multiset(b[..i] + b[i + 1..]) == multiset(b) - multiset{b[i]}
  {
    assert b == b[..i] + [b[i]] + b[i + 1..];
  }

  /** Taking one record out of a list takes its amount off the total. */
  lemma RemoveAtTotal(b: seq<Contribution>, i: nat)
    requires i < |b|
    ensures Total(b) == Total(b[..i] + b[i + 1..]) + b[i].amount
  {
    assert b[..i] + b[i..] == b;
    TotalAppend(b[..i], b[i..]);
    assert b[i..][1..] == b[i + 1..];
    TotalAppend(b[..i], b[i + 1..]);
  }

  /** Reordering the records does not change the total. */
  lemma {:induction false} TotalPermutation(a: seq<Contribution>, b: seq<Contribution>)
    requires multiset(a) == multiset(b)
    ensures Total(a) == Total(b)
  {
    if |a| == 0 {
      assert |b| == |multiset(b)| == 0;
    } else {
      var first := a[0];
      assert a == [first] + a[1..];
      assert multiset(a[1..]) == multiset(a) - multiset{first};
      assert first in multiset(b);
      var i :| 0 <= i < |b| && b[i] == first;
      RemoveAtMultiset(b, i);
      RemoveAtTotal(b, i);
      TotalPermutation(a[1..], b[..i] + b[i + 1..]);
    }
  }

  /** When every amount is at least `minimum`, the total is at least `minimum` per record. */
  lemma {:induction false} TotalLowerBound(cs: seq<Contribution>, minimum: int)
    requires forall i :: 0 <= i < |cs| ==> cs[i].amount >= minimum
    ensures Total(cs) >= minimum * |cs|
  {
    if |cs| > 0 {
      TotalLowerBound(cs[1..], minimum);
    }
  }

  /** Filtering distributes over concatenation: the filter keeps the original order. */
  lemma {:induction false} ForUserAppend(a: seq<Contribution>, b: seq<Contribution>, userId: string)
    ensures ForUser(a + b, userId) == ForUser(a, userId) + ForUser(b, userId)
  {
    if |a| == 0 {
      assert a + b == b;
    } else {
      assert (a + b)[1..] == a[1..] + b;
      ForUserAppend(a[1..], b, userId);
    }
  }

  /** A record kept by the filter appears as often as in the full list; every other record not at all. */
  lemma {:induction false} ForUserCount(cs: seq<Contribution>, userId: string, c: Contribution)
    ensures multiset(ForUser(cs, userId))[c] == if BelongsTo(c, userId) then multiset(cs)[c] else 0
  {
    if |cs| > 0 {
      assert cs == [cs[0]] + cs[1..];
      ForUserCount(cs[1..], userId, c);
    }
  }

  /** Ids with no repetition, as the user listing's `_id`s are. */
  predicate Distinct(ids: seq<string>) {
    forall i, j :: 0 <= i < j < |ids| ==> ids[i] != ids[j]
  }

  /** The per-user totals of the dashboard's user cards, added over the listed ids. */
  function UsersTotal(cs: seq<Contribution>, ids: seq<string>): int {
    if |ids| == 0 then 0 else Total(ForUser(cs, ids[0])) + UsersTotal(cs, ids[1..])
  }

  /** The key of a record's owner is one of the listed ids. */
  predicate Listed(c: Contribution, ids: seq<string>) {
    OwnerKey(c.owner).Some? && OwnerKey(c.owner).value in ids
  }

  /** Adding one record at the end adds its amount to its own user's filtered total only. */
  lemma ForUserTotalSnoc(cs: seq<Contribution>, c: Contribution, userId: string)
    ensures Total(ForUser(cs + [c], userId)) == Total(ForUser(cs, userId)) + (if BelongsTo(c, userId) then c.amount else 0)
  {
    ForUserAppend(cs, [c], userId);
    assert ForUser([c], userId) == if BelongsTo(c, userId) then [c] else [];
    TotalAppend(ForUser(cs, userId), ForUser([c], userId));
    if BelongsTo(c, userId) {
      assert Total([c]) == c.amount;
    }
  }

  /** Adding one record to the ledger adds its amount to the card totals once if its owner is listed, and not at all otherwise. */
  lemma {:induction false} UsersTotalSnoc(cs: seq<Contribution>, c: Contribution, ids: seq<string>)
    requires Distinct(ids)
    ensures UsersTotal(cs + [c], ids) == UsersTotal(cs, ids) + (if Listed(c, ids) then c.amount else 0)
  {
    if |ids| > 0 {
      var rest := ids[1..];
      assert Distinct(rest) by {
        forall i, j | 0 <= i < j < |rest| ensures rest[i] != rest[j] {
          assert rest[i] == ids[i + 1] && rest[j] == ids[j + 1];
        }
      }
      UsersTotalSnoc(cs, c, rest);
      ForUserTotalSnoc(cs, c, ids[0]);
      assert ids == [ids[0]] + rest;
      if BelongsTo(c, ids[0]) {
        assert ids[0] !in rest by {
          forall k | 0 <= k < |rest| ensures rest[k] != ids[0] {
            assert rest[k] == ids[k + 1];
          }
        }
        assert Listed(c, ids) && !Listed(c, rest);
      } else {
        assert Listed(c, ids) == Listed(c, rest);
      }
    }
  }

  /**
   * When every record's owner is among the listed users (and the ids are
   * distinct), the per-user card totals add up to the grand total.
   */
  lemma {:induction false} UsersTotalIsTotal(cs: seq<Contribution>, ids: seq<string>)
    requires Distinct(ids)
    requires forall i :: 0 <= i < |cs| ==> Listed(cs[i], ids)
    ensures UsersTotal(cs, ids) == Total(cs)
  {
    if |cs| == 0 {
      UsersTotalEmpty(ids);
    } else {
      var init := cs[..|cs| - 1];
      var last := cs[|cs| - 1];
      assert cs == init + [last];
      UsersTotalIsTotal(init, ids);
      UsersTotalSnoc(init, last, ids);
      TotalSnoc(init, last);
    }
  }

  /** With no records every card totals 0. */
  lemma {:induction false} UsersTotalEmpty(ids: seq<string>)
    ensures UsersTotal([], ids) == 0
  {
    if |ids| > 0 {
      UsersTotalEmpty(ids[1..]);
    }
  }
}
