/** The database calls the pages make, on an in-memory copy of the tables,
    and the records a task claim writes. Every call may be answered with an
    error (network, row-level security); which ones are is a `Faults`
    parameter. Foreign-key violations are decided by the model itself: an
    insert that would break a key is refused, as the database refuses it. */
module Ledger {
  import opened Schema

  /** Which of a handler's database calls come back with an error. */
  datatype Faults = Faults(
    lookupFails: bool,
    insertFails: bool,
    updateFails: bool,
    recordFails: bool,
    refreshFails: bool)

  const NoFaults: Faults := Faults(false, false, false, false, false)

  /** What a task-claim handler ends with. */
  datatype ClaimOutcome =
    | NoUser              // no user snapshot loaded: the handler returns at once
    | AlreadyCompleted    // the completion check fired
    | InsertFailed        // the `user_tasks` insert failed
    | WalletUpdateFailed  // the `users` update failed after the completion was stored
    | Completed           // the success path ran to its end

  // ---------------------------------------------------------------------
  // Reads

  /** The `user_tasks` rows of one (user, task) pair, in table order. */
  function Matching(rows: seq<UserTask>, userId: Id, taskId: Id): (r: seq<UserTask>)
    ensures |r| <= |rows|
    ensures forall x :: x in r ==> x in rows && x.userId == userId && x.taskId == taskId
  {
    if rows == [] then []
    else
      var last := rows[|rows| - 1];
      Matching(rows[..|rows| - 1], userId, taskId)
        + (if last.userId == userId && last.taskId == taskId then [last] else [])
  }

  function CompletionCount(rows: seq<UserTask>, userId: Id, taskId: Id): nat {
    |Matching(rows, userId, taskId)|
  }

  /** Appending a row raises the count of its own pair by one and of no other. */
  lemma CompletionCountAppend(rows: seq<UserTask>, row: UserTask, userId: Id, taskId: Id)
    ensures CompletionCount(rows + [row], userId, taskId)
         == CompletionCount(rows, userId, taskId) + (if row.userId == userId && row.taskId == taskId then 1 else 0)
  {
    assert (rows + [row])[..|rows|] == rows;
  }

  /** A pair has a row exactly when its count is positive. */
  lemma {:induction false} CompletionCountPositive(rows: seq<UserTask>, userId: Id, taskId: Id)
    ensures CompletionCount(rows, userId, taskId) > 0
        <==> exists i :: 0 <= i < |rows| && rows[i].userId == userId && rows[i].taskId == taskId
  {
    if rows != [] {
      var init := rows[..|rows| - 1];
      CompletionCountPositive(init, userId, taskId);
      assert rows == init + [rows[|rows| - 1]];
      CompletionCountAppend(init, rows[|rows| - 1], userId, taskId);
      if exists i :: 0 <= i < |rows| && rows[i].userId == userId && rows[i].taskId == taskId {
        var i :| 0 <= i < |rows| && rows[i].userId == userId && rows[i].taskId == taskId;
        if i < |init| {
          assert init[i] == rows[i];
        }
      }
    }
  }

  /** No (user, task) pair has more than one completion. */
  ghost predicate AtMostOneCompletion(rows: seq<UserTask>) {
    forall userId, taskId :: CompletionCount(rows, userId, taskId) <= 1
  }

  /** `.select('*').eq('user_id', u).eq('task_id', t).single()`: `.single()`
      hands back a row only when exactly one row matches; with none or with
      several the data is null. */
  function SelectSingleCompletion(rows: seq<UserTask>, userId: Id, taskId: Id): (r: Option<UserTask>)
    ensures r.Some? <==> CompletionCount(rows, userId, taskId) == 1
    ensures r.Some? ==> r.value in rows && r.value.userId == userId && r.value.taskId == taskId
  {
    var found := Matching(rows, userId, taskId);
    if |found| == 1 then Some(found[0]) else None
  }

  /** `.select('task_id, completed_at').eq('user_id', u)` on `user_tasks`:
      the task ids of the user's completions, in table order. */
  function CompletedTaskIds(rows: seq<UserTask>, userId: Id): (ids: seq<Id>)
    ensures forall id :: id in ids <==> exists i :: 0 <= i < |rows| && rows[i].userId == userId && rows[i].taskId == id
  {
    if rows == [] then []
    else
      var rest := CompletedTaskIds(rows[1..], userId);
      assert forall i :: 0 <= i < |rows[1..]| ==> rows[1..][i] == rows[i + 1];
      (if rows[0].userId == userId then [rows[0].taskId] else []) + rest
  }

  /** `.select('*').eq('is_active', true)` on `tasks`, in the order given. */
  function ActiveTasks(rows: seq<Task>): (r: seq<Task>)
    ensures forall x :: x in r <==> x in rows && x.isActive
    ensures |r| <= |rows|
  {
    if rows == [] then []
    else (if rows[0].isActive then [rows[0]] else []) + ActiveTasks(rows[1..])
  }

  /** The rows of `rows` are exactly the tasks stored in `tasks`. */
  ghost predicate ListsTable(rows: seq<Task>, tasks: map<Id, Task>) {
    forall x :: x in rows <==> x in tasks.Values
  }

  /** Sum of the amounts of the transactions that belong to `userId`. */
  function TransactionTotal(txs: seq<Transaction>, userId: Id): int {
    if txs == [] then 0
    else TransactionTotal(txs[..|txs| - 1], userId)
         + (if txs[|txs| - 1].userId == userId then txs[|txs| - 1].amount else 0)
  }

  lemma TransactionTotalAppend(txs: seq<Transaction>, tx: Transaction, userId: Id)
    ensures TransactionTotal(txs + [tx], userId)
         == TransactionTotal(txs, userId) + (if tx.userId == userId then tx.amount else 0)
  {
    assert (txs + [tx])[..|txs|] == txs;
  }

  /** The page's user snapshot is the stored row of that user. */
  predicate SnapshotFresh(t: Tables, user: Option<User>) {
    user.Some? ==> user.value.id in t.users && t.users[user.value.id] == user.value
  }

  // ---------------------------------------------------------------------
  // Writes, as functions on the tables

  /** The `user_tasks` row a claim of `task` by `userId` inserts. */
  function CompletionRow(userId: Id, task: Task): (row: UserTask)
    ensures row.userId == userId && row.taskId == task.id && row.rewardEarned == task.rewardAmount
  {
    UserTask(userId, task.id, task.rewardAmount)
  }

  /** The `transactions` insert a claim of `task` by `userId` sends. */
  function RewardEntry(userId: Id, task: Task): (ins: TransactionInsert)
    ensures ins.userId == userId && ins.transactionType == "task_reward" && ins.amount == task.rewardAmount
    ensures ins.description == "Completed task: " + task.title && ins.status.None?
  {
    TransactionInsert(userId, "task_reward", task.rewardAmount, "Completed task: " + task.title, None)
  }

  /** Insert into `user_tasks`; refused when either foreign key would break. */
  function WithUserTask(t: Tables, row: UserTask): (r: Option<Tables>)
    ensures r.Some? <==> row.userId in t.users && row.taskId in t.tasks
    ensures r.Some? ==> r.value == t.(userTasks := t.userTasks + [row])
  {
    if row.userId in t.users && row.taskId in t.tasks then Some(t.(userTasks := t.userTasks + [row])) else None
  }

  /** `.update({wallet_balance, total_earned}).eq('id', id)`: sets both
      columns of that user; when no row has that id nothing changes and no
      error is reported. */
  function WithWallet(t: Tables, id: Id, wallet: int, earned: int): (r: Tables)
    ensures id !in t.users ==> r == t
    ensures id in t.users ==> r.users == t.users[id := t.users[id].(walletBalance := wallet, totalEarned := earned)]
    ensures r.(users := t.users) == t
  {
    if id in t.users then t.(users := t.users[id := t.users[id].(walletBalance := wallet, totalEarned := earned)])
    else t
  }

  /** Insert into `transactions`; refused when the user does not exist. */
  function WithTransaction(t: Tables, ins: TransactionInsert): (r: Option<Tables>)
    ensures r.Some? <==> ins.userId in t.users
    ensures r.Some? ==> r.value == t.(transactions := t.transactions + [FillTransaction(ins, t.defaults)])
  {
    if ins.userId in t.users then Some(t.(transactions := t.transactions + [FillTransaction(ins, t.defaults)]))
    else None
  }

  /** Insert into `withdrawal_requests`, which declares no foreign key. */
  function WithWithdrawal(t: Tables, ins: WithdrawalInsert): (r: Tables)
    ensures r == t.(withdrawalRequests := t.withdrawalRequests + [FillWithdrawal(ins, t.defaults)])
  {
    t.(withdrawalRequests := t.withdrawalRequests + [FillWithdrawal(ins, t.defaults)])
  }

  /** A completion insert keeps every foreign key: it is refused when one
      would break. */
  lemma UserTaskInsertKeepsConsistent(t: Tables, row: UserTask)
    requires Consistent(t) && WithUserTask(t, row).Some?
    ensures Consistent(WithUserTask(t, row).value)
  {
  }

  /** The wallet update changes no key column. */
  lemma WalletUpdateKeepsConsistent(t: Tables, id: Id, wallet: int, earned: int)
    requires Consistent(t)
    ensures Consistent(WithWallet(t, id, wallet, earned))
  {
  }

  /** A transaction insert keeps every foreign key: it is refused when the
      user is missing. */
  lemma TransactionInsertKeepsConsistent(t: Tables, ins: TransactionInsert)
    requires Consistent(t) && WithTransaction(t, ins).Some?
    ensures Consistent(WithTransaction(t, ins).value)
  {
  }

  /** A withdrawal request touches no table with a key. */
  lemma WithdrawalInsertKeepsConsistent(t: Tables, ins: WithdrawalInsert)
    requires Consistent(t)
    ensures Consistent(WithWithdrawal(t, ins))
  {
  }

  /** The withdrawal requests of one user, in table order. */
  function RequestsOf(rows: seq<WithdrawalRequest>, userId: Id): (r: seq<WithdrawalRequest>)
    ensures forall x :: x in r <==> x in rows && x.userId == userId
    ensures forall x :: multiset(r)[x] == if x.userId == userId then multiset(rows)[x] else 0
  {
    if rows == [] then []
    else
      assert rows == [rows[0]] + rows[1..];
      (if rows[0].userId == userId then [rows[0]] else []) + RequestsOf(rows[1..], userId)
  }

  /** `.eq('referrer_id', id)` on `referrals`: the rows naming `referrerId`
      as referrer, in table order. */
  function ReferralsOf(rows: seq<Referral>, referrerId: Id): (r: seq<Referral>)
    ensures forall x :: x in r <==> x in rows && x.referrerId == referrerId
    ensures forall x :: multiset(r)[x] == if x.referrerId == referrerId then multiset(rows)[x] else 0
    ensures |r| <= |rows|
  {
    if rows == [] then []
    else
      assert rows == [rows[0]] + rows[1..];
      (if rows[0].referrerId == referrerId then [rows[0]] else []) + ReferralsOf(rows[1..], referrerId)
  }

  // ---------------------------------------------------------------------
  // The hosted database, as an object the pages share

  class Database {
    var users: map<Id, User>
    var tasks: map<Id, Task>
    var userTasks: seq<UserTask>
    var transactions: seq<Transaction>
    var referrals: seq<Referral>
    var withdrawalRequests: seq<WithdrawalRequest>
    const defaults: ColumnDefaults

    function State(): Tables
      reads this
    {
      Tables(users, tasks, userTasks, transactions, referrals, withdrawalRequests, defaults)
    }

    constructor (initial: Tables)
      ensures State() == initial
    {
      users := initial.users;
      tasks := initial.tasks;
      userTasks := initial.userTasks;
      transactions := initial.transactions;
      referrals := initial.referrals;
      withdrawalRequests := initial.withdrawalRequests;
      defaults := initial.defaults;
    }

    /** The completion lookup; a failed query leaves the data null. */
    method SelectCompletion(userId: Id, taskId: Id, fails: bool) returns (r: Option<UserTask>)
      ensures r == if fails then None else SelectSingleCompletion(userTasks, userId, taskId)
    {
      r := if fails then None else SelectSingleCompletion(userTasks, userId, taskId);
    }

    /** A user's stored row, looked up by id; null on error or when missing. */
    method SelectUser(id: Id, fails: bool) returns (r: Option<User>)
      ensures r == if !fails && id in users then Some(users[id]) else None
    {
      r := if !fails && id in users then Some(users[id]) else None;
    }

    /** The task ids of a user's completions; null on error or for an unknown user. */
    method SelectCompletedTaskIds(userId: Id, fails: bool) returns (r: Option<seq<Id>>)
      ensures r == if !fails && userId in users then Some(CompletedTaskIds(userTasks, userId)) else None
    {
      r := if !fails && userId in users then Some(CompletedTaskIds(userTasks, userId)) else None;
    }

    /** A user's withdrawal requests; null on error or for an unknown user. */
    method SelectRequests(userId: Id, fails: bool) returns (r: Option<seq<WithdrawalRequest>>)
      ensures r == if !fails && userId in users then Some(RequestsOf(withdrawalRequests, userId)) else None
    {
      r := if !fails && userId in users then Some(RequestsOf(withdrawalRequests, userId)) else None;
    }

    /** The referrals a user made; null on error or for an unknown user. */
    method SelectReferrals(referrerId: Id, fails: bool) returns (r: Option<seq<Referral>>)
      ensures r == if !fails && referrerId in users then Some(ReferralsOf(referrals, referrerId)) else None
    {
      r := if !fails && referrerId in users then Some(ReferralsOf(referrals, referrerId)) else None;
    }

    method InsertUserTask(row: UserTask, fails: bool) returns (ok: bool)
      modifies this
      ensures ok == (!fails && WithUserTask(old(State()), row).Some?)
      ensures State() == if ok then WithUserTask(old(State()), row).value else old(State())
    {
      ok := !fails && row.userId in users && row.taskId in tasks;
      if ok {
        userTasks := userTasks + [row];
      }
    }

    method UpdateWallet(id: Id, wallet: int, earned: int, fails: bool) returns (ok: bool)
      modifies this
      ensures ok == !fails
      ensures State() == if ok then WithWallet(old(State()), id, wallet, earned) else old(State())
    {
      ok := !fails;
      if ok && id in users {
        users := users[id := users[id].(walletBalance := wallet, totalEarned := earned)];
      }
    }

    method InsertTransaction(ins: TransactionInsert, fails: bool) returns (ok: bool)
      modifies this
      ensures ok == (!fails && WithTransaction(old(State()), ins).Some?)
      ensures State() == if ok then WithTransaction(old(State()), ins).value else old(State())
    {
      ok := !fails && ins.userId in users;
      if ok {
        transactions := transactions + [FillTransaction(ins, defaults)];
      }
    }

    method InsertWithdrawal(ins: WithdrawalInsert, fails: bool) returns (ok: bool)
      modifies this
      ensures ok == !fails
      ensures State() == if ok then WithWithdrawal(old(State()), ins) else old(State())
    {
      ok := !fails;
      if ok {
        withdrawalRequests := withdrawalRequests + [FillWithdrawal(ins, defaults)];
      }
    }
  }
}
