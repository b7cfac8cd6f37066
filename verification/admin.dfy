/** The admin dashboard's read-side figures: per-key tallies for the two
    charts, the pie-chart labels and colours, the money totals, the
    recent-transactions cap and the payment badge. The page only reads. */
module Admin {
  import opened Schema
  import opened Ledger
  import Withdrawal

  // ---------------------------------------------------------------------
  // Per-key tallies (`reduce` into an object, then `Object.entries`)

  /** One entry of a tally: a key and how many rows carried it. */
  datatype Entry = Entry(key: string, count: nat)

  /** The count a tally holds for `key`, 0 when it has no entry. */
  function CountOf(entries: seq<Entry>, key: string): nat {
    if entries == [] then 0
    else if entries[0].key == key then entries[0].count
    else CountOf(entries[1..], key)
  }

  /** No key has two entries. */
  predicate DistinctKeys(entries: seq<Entry>) {
    forall i, j :: 0 <= i < j < |entries| ==> entries[i].key != entries[j].key
  }

  /** How often `key` occurs in `keys`. */
  function Occurrences(keys: seq<string>, key: string): nat {
    if keys == [] then 0 else (if keys[0] == key then 1 else 0) + Occurrences(keys[1..], key)
  }

  /** The sum of all counts of a tally. */
  function TotalCount(entries: seq<Entry>): nat {
    if entries == [] then 0 else entries[0].count + TotalCount(entries[1..])
  }

  /** `acc[key] = (acc[key] || 0) + 1`: bump an existing entry in place, or
      add a new entry with count 1 at the end. */
  function Bump(entries: seq<Entry>, key: string): (r: seq<Entry>)
    ensures |r| == |entries| || |r| == |entries| + 1
    ensures forall i :: 0 <= i < |entries| ==> r[i].key == entries[i].key
    ensures |r| == |entries| + 1 ==> r[|entries|] == Entry(key, 1)
    ensures |r| == |entries| + 1 ==> forall i :: 0 <= i < |entries| ==> entries[i].key != key
    ensures TotalCount(r) == TotalCount(entries) + 1
  {
    if entries == [] then [Entry(key, 1)]
    else if entries[0].key == key then [Entry(key, entries[0].count + 1)] + entries[1..]
    else [entries[0]] + Bump(entries[1..], key)
  }

  /** Bumping keeps the keys distinct. */
  lemma BumpKeepsDistinct(entries: seq<Entry>, key: string)
    requires DistinctKeys(entries)
    ensures DistinctKeys(Bump(entries, key))
  {
    var r := Bump(entries, key);
    forall i, j | 0 <= i < j < |r|
      ensures r[i].key != r[j].key
    {
      if j == |entries| {
        assert r[j].key == key && entries[i].key != key;
      }
    }
  }

  /** Bumping adds one to the count of `key` and leaves every other count. */
  lemma {:induction false} BumpCounts(entries: seq<Entry>, key: string, k: string)
    ensures CountOf(Bump(entries, key), k) == CountOf(entries, k) + (if k == key then 1 else 0)
  {
    if entries != [] && entries[0].key != key {
      BumpCounts(entries[1..], key, k);
      assert Bump(entries, key)[1..] == Bump(entries[1..], key);
    }
  }

  /** The tally of `keys`, in the order each key first appears. */
  function Tally(keys: seq<string>): (r: seq<Entry>)
    ensures DistinctKeys(r)
    ensures TotalCount(r) == |keys|
    decreases |keys|
  {
    if keys == [] then []
    else
      var init := Tally(keys[..|keys| - 1]);
      BumpKeepsDistinct(init, keys[|keys| - 1]);
      Bump(init, keys[|keys| - 1])
  }

  lemma {:induction false} OccurrencesAppend(keys: seq<string>, k: string, key: string)
    ensures Occurrences(keys + [k], key) == Occurrences(keys, key) + (if k == key then 1 else 0)
  {
    if keys != [] {
      OccurrencesAppend(keys[1..], k, key);
      assert (keys + [k])[1..] == keys[1..] + [k];
    } else {
      assert [k][1..] == [];
    }
  }

  /** Each key's count is the number of rows that carry it, and the counts
      add up to the number of rows. */
  lemma {:induction false} TallyCounts(keys: seq<string>, key: string)
    ensures CountOf(Tally(keys), key) == Occurrences(keys, key)
    ensures TotalCount(Tally(keys)) == |keys|
    decreases |keys|
  {
    if keys != [] {
      var init := keys[..|keys| - 1];
      TallyCounts(init, key);
      assert keys == init + [keys[|keys| - 1]];
      OccurrencesAppend(init, keys[|keys| - 1], key);
      BumpCounts(Tally(init), keys[|keys| - 1], key);
    }
  }

  /** In a tally with distinct keys, an entry's count is the count of its key. */
  lemma {:induction false} EntryCountIsCountOf(entries: seq<Entry>, i: nat)
    requires DistinctKeys(entries) && i < |entries|
    ensures CountOf(entries, entries[i].key) == entries[i].count
  {
    if i > 0 {
      assert entries[0].key != entries[i].key;
      assert entries[1..][i - 1] == entries[i];
      EntryCountIsCountOf(entries[1..], i - 1);
    }
  }

  /** Every entry of a tally counts the rows carrying its key. */
  lemma TallyEntriesCount(keys: seq<string>)
    ensures forall e :: e in Tally(keys) ==> e.count == Occurrences(keys, e.key)
  {
    var entries := Tally(keys);
    forall e | e in entries
      ensures e.count == Occurrences(keys, e.key)
    {
      var i :| 0 <= i < |entries| && entries[i] == e;
      EntryCountIsCountOf(entries, i);
      TallyCounts(keys, e.key);
    }
  }

  // ---------------------------------------------------------------------
  // Transaction-type pie chart

  function TransactionTypes(txs: seq<Transaction>): (r: seq<string>)
    ensures |r| == |txs| && forall i :: 0 <= i < |txs| ==> r[i] == txs[i].transactionType
  {
    if txs == [] then [] else [txs[0].transactionType] + TransactionTypes(txs[1..])
  }

  /** `transactionTypeData`: one entry per type, counting its transactions. */
  function TransactionTypeData(txs: seq<Transaction>): (r: seq<Entry>)
    ensures DistinctKeys(r)
    ensures TotalCount(r) == |txs|
  {
    Tally(TransactionTypes(txs))
  }

  /** The per-type counts add up to the number of transactions, and each is
      the number of transactions of that type. */
  lemma TypeCountsAddUp(txs: seq<Transaction>, transactionType: string)
    ensures TotalCount(TransactionTypeData(txs)) == |txs|
    ensures CountOf(TransactionTypeData(txs), transactionType) == Occurrences(TransactionTypes(txs), transactionType)
  {
    TallyCounts(TransactionTypes(txs), transactionType);
  }

  /** `String.prototype.replace('_', ' ')` with a string pattern: only the
      first underscore becomes a space. */
  function ReplaceFirstUnderscore(s: string): (r: string)
    ensures |r| == |s|
    ensures '_' !in s ==> r == s
  {
    if s == [] then []
    else if s[0] == '_' then " " + s[1..]
    else [s[0]] + ReplaceFirstUnderscore(s[1..])
  }

  /** The position of the first underscore of `s`. */
  function FirstUnderscore(s: string): (i: nat)
    requires '_' in s
    ensures i < |s| && s[i] == '_'
    ensures forall j :: 0 <= j < i ==> s[j] != '_'
  {
    if s[0] == '_' then 0
    else
      assert s[1..][FirstUnderscore(s[1..])] == s[1 + FirstUnderscore(s[1..])];
      1 + FirstUnderscore(s[1..])
  }

  /** The label differs from the type only at its first underscore, which
      becomes a space; every later underscore stays. */
  lemma {:induction false} ReplacesOnlyFirstUnderscore(s: string)
    requires '_' in s
    ensures var i := FirstUnderscore(s);
      ReplaceFirstUnderscore(s) == s[..i] + " " + s[i + 1..]
  {
    if s[0] != '_' {
      var rest := s[1..];
      var n := FirstUnderscore(s);
      assert rest[n - 1] == '_';
      ReplacesOnlyFirstUnderscore(rest);
      var i := FirstUnderscore(rest);
      assert n == i + 1;
      assert ReplaceFirstUnderscore(s) == [s[0]] + ReplaceFirstUnderscore(rest);
      assert s[..i + 1] == [s[0]] + rest[..i];
      assert s[i + 2..] == rest[i + 1..];
    }
  }

  /** Only the first of two underscores becomes a space. */
  lemma ReplaceFirstUnderscoreExample()
    ensures ReplaceFirstUnderscore("a_b_c") == "a b_c"
  {
    var s := "a_b_c";
    assert s[1..] == "_b_c";
    assert ReplaceFirstUnderscore("_b_c") == " b_c" by {
      assert "_b_c"[1..] == "b_c";
    }
  }

  datatype Slice = Slice(name: string, value: nat)

  /** `pieChartData`: the tally with each type relabelled. */
  function PieChartData(entries: seq<Entry>): (r: seq<Slice>)
    ensures |r| == |entries|
    ensures forall i :: 0 <= i < |r| ==> r[i] == Slice(ReplaceFirstUnderscore(entries[i].key), entries[i].count)
  {
    if entries == [] then []
    else [Slice(ReplaceFirstUnderscore(entries[0].key), entries[0].count)] + PieChartData(entries[1..])
  }

  /** Each slice of the pie is labelled from one transaction type and sized
      by the number of transactions of that type. */
  lemma PieSlicesCount(txs: seq<Transaction>)
    ensures var data := TransactionTypeData(txs);
      forall i :: 0 <= i < |data| ==>
        PieChartData(data)[i].value == Occurrences(TransactionTypes(txs), data[i].key)
        && PieChartData(data)[i].name == ReplaceFirstUnderscore(data[i].key)
  {
    TallyEntriesCount(TransactionTypes(txs));
    var data := TransactionTypeData(txs);
    assert forall i :: 0 <= i < |data| ==> data[i] in data;
  }

  /** `COLORS`. */
  const Colors: seq<string> := ["#3B82F6", "#8B5CF6", "#10B981", "#F59E0B", "#EF4444"]

  /** `COLORS[index % COLORS.length]`: the slice colours cycle through the palette. */
  function SliceColor(index: nat): (c: string)
    ensures c in Colors
    ensures c == Colors[index % 5]
    ensures index >= 5 ==> c == SliceColor(index - 5)
  {
    Colors[index % |Colors|]
  }

  // ---------------------------------------------------------------------
  // Registration chart

  /** `Object.entries(...).slice(-7)`: the last seven entries, or all of
      them when there are fewer. */
  function LastSeven(entries: seq<Entry>): (r: seq<Entry>)
    ensures |r| == if |entries| < 7 then |entries| else 7
    ensures r == entries[|entries| - |r|..]
  {
    if |entries| <= 7 then entries else entries[|entries| - 7..]
  }

  /** `registrationChartData`, with each user's registration date already
      rendered to its display key. */
  function RegistrationChartData(dateKeys: seq<string>): (r: seq<Entry>)
    ensures |r| <= 7
    ensures DistinctKeys(r)
  {
    var all := Tally(dateKeys);
    LastSeven(all)
  }

  /** Every element of a suffix is an element of the whole. */
  lemma SuffixMembers(entries: seq<Entry>, k: nat)
    requires k <= |entries|
    ensures forall e :: e in entries[k..] ==> e in entries
  {
    forall e | e in entries[k..]
      ensures e in entries
    {
      var i :| 0 <= i < |entries[k..]| && entries[k..][i] == e;
      assert entries[k + i] == e;
    }
  }

  /** Each bar of the registration chart counts the users whose registration
      date renders to its key. */
  lemma RegistrationBarsCount(dateKeys: seq<string>)
    ensures forall e :: e in RegistrationChartData(dateKeys) ==> e.count == Occurrences(dateKeys, e.key)
  {
    var all := Tally(dateKeys);
    TallyEntriesCount(dateKeys);
    var r := LastSeven(all);
    SuffixMembers(all, |all| - |r|);
    assert RegistrationChartData(dateKeys) == r;
  }

  // ---------------------------------------------------------------------
  // Money totals

  /** `totalWalletBalance`. */
  function TotalWalletBalance(users: seq<User>): (total: int)
    ensures users == [] ==> total == 0
    ensures (forall i :: 0 <= i < |users| ==> users[i].walletBalance >= 0) ==> total >= 0
  {
    if users == [] then 0 else users[0].walletBalance + TotalWalletBalance(users[1..])
  }

  /** `totalEarnings`. */
  function TotalEarnings(users: seq<User>): (total: int)
    ensures users == [] ==> total == 0
    ensures (forall i :: 0 <= i < |users| ==> users[i].totalEarned >= 0) ==> total >= 0
  {
    if users == [] then 0 else users[0].totalEarned + TotalEarnings(users[1..])
  }

  /** Adding a user to the list adds its balance and lifetime earnings to the totals. */
  lemma {:induction false} UserTotalsAppend(users: seq<User>, u: User)
    ensures TotalWalletBalance(users + [u]) == TotalWalletBalance(users) + u.walletBalance
    ensures TotalEarnings(users + [u]) == TotalEarnings(users) + u.totalEarned
  {
    if users == [] {
      assert [u][1..] == [];
    } else {
      UserTotalsAppend(users[1..], u);
      assert (users + [u])[1..] == users[1..] + [u];
    }
  }

  /** Requests whose status is exactly `pending`; a null status is not. */
  function PendingRequests(reqs: seq<WithdrawalRequest>): (r: seq<WithdrawalRequest>)
    ensures forall x :: x in r <==> x in reqs && x.status == Some("pending")
  {
    if reqs == [] then []
    else (if reqs[0].status == Some("pending") then [reqs[0]] else []) + PendingRequests(reqs[1..])
  }

  function SumAmounts(reqs: seq<WithdrawalRequest>): int {
    if reqs == [] then 0 else reqs[0].amount + SumAmounts(reqs[1..])
  }

  /** `pendingWithdrawals`: filter on the status, then add the amounts. */
  function PendingWithdrawals(reqs: seq<WithdrawalRequest>): (total: int)
    ensures (forall i :: 0 <= i < |reqs| ==> reqs[i].status != Some("pending")) ==> total == 0
  {
    var pending := PendingRequests(reqs);
    assert (forall i :: 0 <= i < |reqs| ==> reqs[i].status != Some("pending")) ==> pending == [] by {
      if pending != [] {
        assert pending[0] in pending;
      }
    }
    SumAmounts(pending)
  }

  /** A request adds its amount to the pending total when its status is
      `pending`, and nothing otherwise. */
  lemma {:induction false} PendingWithdrawalsAppend(reqs: seq<WithdrawalRequest>, x: WithdrawalRequest)
    ensures PendingWithdrawals(reqs + [x])
         == PendingWithdrawals(reqs) + (if x.status == Some("pending") then x.amount else 0)
  {
    if reqs == [] {
      assert [x][1..] == [];
      assert PendingRequests([x]) == (if x.status == Some("pending") then [x] else []) + PendingRequests([]);
    } else {
      PendingWithdrawalsAppend(reqs[1..], x);
      assert (reqs + [x])[1..] == reqs[1..] + [x];
      var head := if reqs[0].status == Some("pending") then [reqs[0]] else [];
      assert PendingRequests(reqs + [x]) == head + PendingRequests(reqs[1..] + [x]);
      assert PendingRequests(reqs) == head + PendingRequests(reqs[1..]);
      SumAmountsAppend(head, PendingRequests(reqs[1..] + [x]));
      SumAmountsAppend(head, PendingRequests(reqs[1..]));
    }
  }

  lemma {:induction false} SumAmountsAppend(a: seq<WithdrawalRequest>, b: seq<WithdrawalRequest>)
    ensures SumAmounts(a + b) == SumAmounts(a) + SumAmounts(b)
  {
    if a == [] {
      assert a + b == b;
    } else {
      SumAmountsAppend(a[1..], b);
      assert (a + b)[1..] == a[1..] + b;
    }
  }

  /** With no negative amounts, the pending total lies between zero and the
      total of all requests. */
  lemma {:induction false} PendingWithinRequested(reqs: seq<WithdrawalRequest>)
    requires forall i :: 0 <= i < |reqs| ==> reqs[i].amount >= 0
    ensures 0 <= PendingWithdrawals(reqs) <= SumAmounts(reqs)
  {
    if reqs != [] {
      assert forall i :: 0 <= i < |reqs[1..]| ==> reqs[1..][i] == reqs[i + 1];
      PendingWithinRequested(reqs[1..]);
      var head := if reqs[0].status == Some("pending") then [reqs[0]] else [];
      SumAmountsAppend(head, PendingRequests(reqs[1..]));
      assert head != [] ==> head[1..] == [];
    }
  }

  /** A submitted withdrawal request is stored with the column default for
      its status; when that default is `pending`, the admin's pending total
      rises by the requested amount while the stored wallets stay as they
      were: nothing is reserved. */
  lemma SubmittedRequestIsPending(t: Tables, user: Option<User>, form: Withdrawal.Form,
                                  requests: seq<WithdrawalRequest>, amount: int, f: Faults)
    requires t.defaults.withdrawalStatus == Some("pending")
    requires Withdrawal.Request(t, user, form, requests, amount, f).outcome == Withdrawal.Submitted
    ensures var r := Withdrawal.Request(t, user, form, requests, amount, f);
      PendingWithdrawals(r.tables.withdrawalRequests) == PendingWithdrawals(t.withdrawalRequests) + amount
      && r.tables.users == t.users
  {
    var r := Withdrawal.Request(t, user, form, requests, amount, f);
    var row := FillWithdrawal(Withdrawal.RequestRow(user.value.id, amount, form), t.defaults);
    PendingWithdrawalsAppend(t.withdrawalRequests, row);
  }

  // ---------------------------------------------------------------------
  // Tables of the page

  /** `transactions.slice(0, 20)`: the first twenty rows, or all of them. */
  function RecentTransactions(txs: seq<Transaction>): (r: seq<Transaction>)
    ensures |r| <= 20
    ensures |r| == if |txs| < 20 then |txs| else 20
    ensures r == txs[..|r|]
  {
    if |txs| <= 20 then txs else txs[..20]
  }

  /** The payment-status badge of the users table. */
  function PaymentBadge(status: Option<string>): (style: string)
    ensures style == "bg-green-100 text-green-800" <==> status == Some("completed")
    ensures style == "bg-yellow-100 text-yellow-800" <==> status != Some("completed")
  {
    if status == Some("completed") then "bg-green-100 text-green-800" else "bg-yellow-100 text-yellow-800"
  }

  /** The admin page's three lists. */
  class AdminPage {
    var users: seq<User>
    var transactions: seq<Transaction>
    var withdrawalRequests: seq<WithdrawalRequest>

    constructor ()
      ensures users == [] && transactions == [] && withdrawalRequests == []
    {
      users := [];
      transactions := [];
      withdrawalRequests := [];
    }

    /** `fetchAllData`: three queries in a row, each answer `None` for an
        error. The first error ends the refresh, so the lists before it are
        already replaced and the ones after it keep their old rows. */
    method FetchAllData(usersAnswer: Option<seq<User>>, txAnswer: Option<seq<Transaction>>,
                        requestsAnswer: Option<seq<WithdrawalRequest>>)
      modifies this
      ensures users == if usersAnswer.Some? then usersAnswer.value else old(users)
      ensures transactions == if usersAnswer.Some? && txAnswer.Some? then txAnswer.value else old(transactions)
      ensures withdrawalRequests
          == if usersAnswer.Some? && txAnswer.Some? && requestsAnswer.Some? then requestsAnswer.value
             else old(withdrawalRequests)
    {
      if usersAnswer.None? {
        return;
      }
      users := usersAnswer.value;
      if txAnswer.None? {
        return;
      }
      transactions := txAnswer.value;
      if requestsAnswer.None? {
        return;
      }
      withdrawalRequests := requestsAnswer.value;
    }
  }
}
