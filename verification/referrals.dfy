/** The referrals page: the four figures it derives from the referral rows
    of the signed-in user, and the badge of each row's generation. The page
    only reads: no code here pays a referral bonus. */
module Referrals {
  import opened Schema
  import opened Ledger

  /** Rows whose `generation` is exactly `g`. */
  function CountGeneration(rows: seq<Referral>, g: int): (n: nat)
    ensures n <= |rows|
    ensures n == 0 <==> forall i :: 0 <= i < |rows| ==> rows[i].generation != g
    ensures |rows| == 1 ==> (n == 1 <==> rows[0].generation == g)
  {
    if rows == [] then 0
    else (if rows[0].generation == g then 1 else 0) + CountGeneration(rows[1..], g)
  }

  /** The generation count splits over concatenation: with the one-row case
      above, this pins it to the number of rows of generation `g`. */
  lemma {:induction false} CountGenerationAppend(a: seq<Referral>, b: seq<Referral>, g: int)
    ensures CountGeneration(a + b, g) == CountGeneration(a, g) + CountGeneration(b, g)
  {
    if a == [] {
      assert a + b == b;
    } else {
      assert (a + b)[1..] == a[1..] + b;
      CountGenerationAppend(a[1..], b, g);
    }
  }

  /** The `reduce` over `bonus_amount`. */
  function SumBonus(rows: seq<Referral>): (total: int)
    ensures rows == [] ==> total == 0
    ensures (forall i :: 0 <= i < |rows| ==> rows[i].bonusAmount >= 0) ==> total >= 0
  {
    if rows == [] then 0 else rows[0].bonusAmount + SumBonus(rows[1..])
  }

  datatype Stats = Stats(totalReferrals: int, totalEarnings: int, generation1: int, generation2: int)

  /** The stats before any data arrives. */
  const NoStats: Stats := Stats(0, 0, 0, 0)

  /** The figures `fetchReferrals` derives from the fetched rows. */
  function ComputeStats(rows: seq<Referral>): (s: Stats)
    ensures s.totalReferrals == |rows|
    ensures s.totalEarnings == SumBonus(rows)
    ensures s.generation1 == CountGeneration(rows, 1) && s.generation2 == CountGeneration(rows, 2)
    ensures 0 <= s.generation1 && 0 <= s.generation2
    ensures s.generation1 + s.generation2 <= s.totalReferrals
    ensures rows == [] ==> s == NoStats
  {
    GenerationsWithinTotal(rows);
    Stats(|rows|, SumBonus(rows), CountGeneration(rows, 1), CountGeneration(rows, 2))
  }

  /** A row of the first or of the second generation is counted once, so the
      two counts never exceed the number of rows, and they reach it exactly
      when every row is of generation 1 or 2. */
  lemma {:induction false} GenerationsWithinTotal(rows: seq<Referral>)
    ensures CountGeneration(rows, 1) + CountGeneration(rows, 2) <= |rows|
    ensures CountGeneration(rows, 1) + CountGeneration(rows, 2) == |rows|
        <==> forall i :: 0 <= i < |rows| ==> rows[i].generation == 1 || rows[i].generation == 2
  {
    if rows != [] {
      GenerationsWithinTotal(rows[1..]);
      assert forall i :: 0 < i < |rows| ==> rows[i] == rows[1..][i - 1];
    }
  }

  /** The bonus total adds up over a split of the rows. */
  lemma {:induction false} SumBonusAppend(a: seq<Referral>, b: seq<Referral>)
    ensures SumBonus(a + b) == SumBonus(a) + SumBonus(b)
  {
    if a != [] {
      SumBonusAppend(a[1..], b);
      assert (a + b)[1..] == a[1..] + b;
    } else {
      assert a + b == b;
    }
  }

  /** With no negative bonus, the total is at least every single bonus. */
  lemma {:induction false} SumBonusBounds(rows: seq<Referral>)
    requires forall i :: 0 <= i < |rows| ==> rows[i].bonusAmount >= 0
    ensures SumBonus(rows) >= 0
    ensures forall i :: 0 <= i < |rows| ==> SumBonus(rows) >= rows[i].bonusAmount
  {
    if rows != [] {
      SumBonusBounds(rows[1..]);
      assert forall i :: 0 < i < |rows| ==> rows[i] == rows[1..][i - 1];
    }
  }

  /** Under the referral keys, every counted row names an existing referred
      user, so the joined `referred_user` the list shows is never missing. */
  lemma ListedReferralsJoin(t: Tables, me: Id)
    requires ReferralsLinked(t)
    ensures forall x :: x in ReferralsOf(t.referrals, me) ==> x.referredId in t.users && x.referrerId == me
  {
    forall x | x in ReferralsOf(t.referrals, me)
      ensures x.referredId in t.users
    {
      var i :| 0 <= i < |t.referrals| && t.referrals[i] == x;
    }
  }

  /** The badge of a referral row: the first style exactly for generation 1. */
  function GenerationBadge(generation: int): (style: string)
    ensures style == "bg-emerald-100 text-emerald-800" <==> generation == 1
    ensures style == "bg-purple-100 text-purple-800" <==> generation != 1
  {
    if generation == 1 then "bg-emerald-100 text-emerald-800" else "bg-purple-100 text-purple-800"
  }

  /** The referrals page: the rows it lists and the figures it shows. */
  class ReferralsPage {
    const db: Database
    var referrals: seq<Referral>
    var stats: Stats

    constructor (db: Database)
      ensures this.db == db && referrals == [] && stats == NoStats
    {
      this.db := db;
      referrals := [];
      stats := NoStats;
    }

    /** `fetchReferrals` for the signed-in user whose profile id is `id`:
        when the rows arrive the list and the four figures are replaced
        together; on an error both are kept. */
    method FetchReferrals(id: Id, fails: bool)
      modifies this`referrals, this`stats
      ensures !fails && id in db.users
          ==> referrals == ReferralsOf(db.referrals, id) && stats == ComputeStats(referrals)
      ensures fails || id !in db.users ==> referrals == old(referrals) && stats == old(stats)
      ensures forall x :: x in referrals && !fails && id in db.users ==> x in db.referrals && x.referrerId == id
    {
      var rows := db.SelectReferrals(id, fails);
      if rows.Some? {
        referrals := rows.value;
        stats := ComputeStats(rows.value);
      }
    }
  }
}
