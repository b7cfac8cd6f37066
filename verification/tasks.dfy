/** The tasks page: its task listing and reward total, the task-type
    classifiers, and its task claim. Unlike the dashboard it checks a cached
    list of completed task ids, and it writes the wallet from a user snapshot
    that it loads once and never reloads. */
module Tasks {
  import opened Schema
  import opened Ledger

  // ---------------------------------------------------------------------
  // Completion cache

  /** `isTaskCompleted`: some cached completion carries this task id. */
  function IsTaskCompleted(completed: seq<Id>, taskId: Id): (r: bool)
    ensures r <==> exists i :: 0 <= i < |completed| && completed[i] == taskId
  {
    if completed == [] then false
    else completed[0] == taskId || IsTaskCompleted(completed[1..], taskId)
  }

  // ---------------------------------------------------------------------
  // Task-type classifiers

  datatype TaskIcon = PlayIcon | UsersIcon | FileTextIcon | ExternalLinkIcon

  /** `getTaskIcon`: three named task types, and a default for every other string. */
  function GetTaskIcon(taskType: string): (icon: TaskIcon)
    ensures icon == PlayIcon <==> taskType == "watch_ad"
    ensures icon == UsersIcon <==> taskType == "social_media"
    ensures icon == FileTextIcon <==> taskType == "survey"
    ensures icon == ExternalLinkIcon <==> taskType != "watch_ad" && taskType != "social_media" && taskType != "survey"
  {
    match taskType
    case "watch_ad" => PlayIcon
    case "social_media" => UsersIcon
    case "survey" => FileTextIcon
    case _ => ExternalLinkIcon
  }

  /** `getTaskTypeColor`: the badge style of a task type. */
  function GetTaskTypeColor(taskType: string): (style: string)
    ensures style == "bg-red-100 text-red-800" <==> taskType == "watch_ad"
    ensures style == "bg-blue-100 text-blue-800" <==> taskType == "social_media"
    ensures style == "bg-purple-100 text-purple-800" <==> taskType == "survey"
    ensures style == "bg-gray-100 text-gray-800"
        <==> taskType != "watch_ad" && taskType != "social_media" && taskType != "survey"
  {
    match taskType
    case "watch_ad" => "bg-red-100 text-red-800"
    case "social_media" => "bg-blue-100 text-blue-800"
    case "survey" => "bg-purple-100 text-purple-800"
    case _ => "bg-gray-100 text-gray-800"
  }

  /** The two classifiers group task types the same way. */
  lemma ClassifiersAgree(a: string, b: string)
    ensures GetTaskIcon(a) == GetTaskIcon(b) <==> GetTaskTypeColor(a) == GetTaskTypeColor(b)
  {
  }

  // ---------------------------------------------------------------------
  // Listing and potential earnings

  /** Rewards never increase along the list. */
  predicate SortedByRewardDesc(s: seq<Task>) {
    forall i, j :: 0 <= i < j < |s| ==> s[i].rewardAmount >= s[j].rewardAmount
  }

  /** A task whose reward is at least every reward of a sorted list can lead it. */
  lemma {:induction false} LeadKeepsSorted(x: Task, s: seq<Task>)
    requires SortedByRewardDesc(s)
    requires forall y :: y in s ==> x.rewardAmount >= y.rewardAmount
    ensures SortedByRewardDesc([x] + s)
  {
    forall i, j | 0 <= i < j < |[x] + s|
      ensures ([x] + s)[i].rewardAmount >= ([x] + s)[j].rewardAmount
    {
      assert ([x] + s)[j] == s[j - 1];
      if i > 0 {
        assert ([x] + s)[i] == s[i - 1];
      } else {
        assert s[j - 1] in s;
      }
    }
  }

  /** Every element of a sorted list, and any smaller task, is bounded by its head. */
  lemma BoundedByHead(x: Task, s: seq<Task>, r: seq<Task>)
    requires SortedByRewardDesc(s) && s != [] && x.rewardAmount < s[0].rewardAmount
    requires multiset(r) == multiset(s[1..]) + multiset{x}
    ensures forall y :: y in r ==> s[0].rewardAmount >= y.rewardAmount
  {
    forall y | y in r
      ensures s[0].rewardAmount >= y.rewardAmount
    {
      assert y in multiset(r);
      if y != x {
        assert y in multiset(s[1..]);
        var k :| 0 <= k < |s[1..]| && s[1..][k] == y;
        assert s[k + 1] == y;
      }
    }
  }

  function InsertByReward(x: Task, s: seq<Task>): (r: seq<Task>)
    requires SortedByRewardDesc(s)
    ensures SortedByRewardDesc(r)
    ensures multiset(r) == multiset(s) + multiset{x}
  {
    if s == [] || x.rewardAmount >= s[0].rewardAmount then
      LeadKeepsSorted(x, s);
      [x] + s
    else
      var rest := InsertByReward(x, s[1..]);
      BoundedByHead(x, s, rest);
      LeadKeepsSorted(s[0], rest);
      assert s == [s[0]] + s[1..];
      [s[0]] + rest
  }

  /** `.order('reward_amount', { ascending: false })`. */
  function SortByReward(s: seq<Task>): (r: seq<Task>)
    ensures SortedByRewardDesc(r)
    ensures multiset(r) == multiset(s)
  {
    if s == [] then []
    else
      assert s == [s[0]] + s[1..];
      InsertByReward(s[0], SortByReward(s[1..]))
  }

  /** `fetchTasks`: the active rows, highest reward first. */
  function ListTasks(rows: seq<Task>): (r: seq<Task>)
    ensures SortedByRewardDesc(r)
    ensures forall x :: x in r <==> x in rows && x.isActive
    ensures multiset(r) == multiset(ActiveTasks(rows))
  {
    var r := SortByReward(ActiveTasks(rows));
    assert forall x :: x in r <==> x in multiset(r);
    r
  }

  /** The "total potential earnings" figure: the sum of the listed rewards. */
  function PotentialEarnings(tasks: seq<Task>): (total: int)
    ensures tasks == [] ==> total == 0
    ensures (forall i :: 0 <= i < |tasks| ==> tasks[i].rewardAmount >= 0) ==> total >= 0
  {
    if tasks == [] then 0 else tasks[0].rewardAmount + PotentialEarnings(tasks[1..])
  }

  /** The sum of the rewards of the active rows, in table order. */
  function ActiveRewardTotal(rows: seq<Task>): int {
    if rows == [] then 0
    else (if rows[0].isActive then rows[0].rewardAmount else 0) + ActiveRewardTotal(rows[1..])
  }

  lemma {:induction false} PotentialEarningsRemove(s: seq<Task>, j: nat)
    requires j < |s|
    ensures PotentialEarnings(s) == s[j].rewardAmount + PotentialEarnings(s[..j] + s[j + 1..])
  {
    if j > 0 {
      PotentialEarningsRemove(s[1..], j - 1);
      var rest := s[1..][..j - 1] + s[1..][j..];
      assert s[1..][j - 1] == s[j];
      assert PotentialEarnings(s) == s[0].rewardAmount + PotentialEarnings(s[1..]);
      assert s[..j] + s[j + 1..] == [s[0]] + rest;
      assert ([s[0]] + rest)[1..] == rest;
      assert PotentialEarnings([s[0]] + rest) == s[0].rewardAmount + PotentialEarnings(rest);
    } else {
      assert s[..j] + s[j + 1..] == s[1..];
    }
  }

  /** The reward total does not depend on the order of the list. */
  lemma {:induction false} PotentialEarningsPermutation(a: seq<Task>, b: seq<Task>)
    requires multiset(a) == multiset(b)
    ensures PotentialEarnings(a) == PotentialEarnings(b)
  {
    if a == [] {
      assert |b| == |multiset(b)| == 0;
    } else {
      var x := a[0];
      assert x in multiset(b);
      var j :| 0 <= j < |b| && b[j] == x;
      var rest := b[..j] + b[j + 1..];
      assert b == b[..j] + [x] + b[j + 1..];
      assert a == [x] + a[1..];
      assert multiset(b) == multiset(b[..j]) + multiset{x} + multiset(b[j + 1..]);
      assert multiset(a) == multiset{x} + multiset(a[1..]);
      assert multiset(rest) == multiset(b[..j]) + multiset(b[j + 1..]);
      assert multiset(a[1..]) == multiset(a) - multiset{x};
      assert multiset(rest) == multiset(b) - multiset{x};
      PotentialEarningsRemove(b, j);
      PotentialEarningsPermutation(a[1..], rest);
    }
  }

  lemma {:induction false} ActiveRewardTotalIsFilteredSum(rows: seq<Task>)
    ensures ActiveRewardTotal(rows) == PotentialEarnings(ActiveTasks(rows))
  {
    if rows != [] {
      ActiveRewardTotalIsFilteredSum(rows[1..]);
      var head := if rows[0].isActive then [rows[0]] else [];
      assert ActiveTasks(rows) == head + ActiveTasks(rows[1..]);
      if rows[0].isActive {
        assert (head + ActiveTasks(rows[1..]))[0] == rows[0];
        assert (head + ActiveTasks(rows[1..]))[1..] == ActiveTasks(rows[1..]);
      } else {
        assert head + ActiveTasks(rows[1..]) == ActiveTasks(rows[1..]);
      }
    }
  }

  /** The potential earnings shown are the rewards of exactly the active
      tasks, each counted once, whatever order the listing puts them in. */
  lemma ListedPotentialEarnings(rows: seq<Task>)
    ensures PotentialEarnings(ListTasks(rows)) == ActiveRewardTotal(rows)
  {
    PotentialEarningsPermutation(ListTasks(rows), ActiveTasks(rows));
    ActiveRewardTotalIsFilteredSum(rows);
  }

  // ---------------------------------------------------------------------
  // The claim

  datatype ClaimResult = ClaimResult(tables: Tables, completed: seq<Id>, outcome: ClaimOutcome)

  /** The claim path shared by the page as written (`fromStoredRow` false:
      the wallet is written from the snapshot) and by the corrected claim
      (`fromStoredRow` true: from the stored row). */
  function ClaimOn(t: Tables, user: Option<User>, completed: seq<Id>, task: Task, f: Faults, fromStoredRow: bool): (r: ClaimResult)
    ensures user.None? ==> r == ClaimResult(t, completed, NoUser)
    ensures r.outcome == AlreadyCompleted <==> user.Some? && IsTaskCompleted(completed, task.id)
    ensures r.outcome in {NoUser, AlreadyCompleted, InsertFailed} ==> r.tables == t && r.completed == completed
    ensures r.outcome == InsertFailed
        <==> user.Some? && !IsTaskCompleted(completed, task.id)
             && (f.insertFails || user.value.id !in t.users || task.id !in t.tasks)
    ensures r.outcome == WalletUpdateFailed
        <==> user.Some? && !IsTaskCompleted(completed, task.id)
             && !f.insertFails && user.value.id in t.users && task.id in t.tasks && f.updateFails
    ensures r.outcome == WalletUpdateFailed
        ==> r.completed == completed && r.tables == t.(userTasks := t.userTasks + [CompletionRow(user.value.id, task)])
    ensures r.outcome == Completed
        ==> user.Some? && user.value.id in t.users && task.id in t.tasks
            && r.tables.userTasks == t.userTasks + [CompletionRow(user.value.id, task)]
            && r.tables.users == t.users[user.value.id := t.users[user.value.id].(
                 walletBalance := (if fromStoredRow then t.users[user.value.id] else user.value).walletBalance + task.rewardAmount,
                 totalEarned := (if fromStoredRow then t.users[user.value.id] else user.value).totalEarned + task.rewardAmount)]
            && r.tables.transactions
               == t.transactions + (if f.recordFails then [] else [FillTransaction(RewardEntry(user.value.id, task), t.defaults)])
            && r.tables.(users := t.users, userTasks := t.userTasks, transactions := t.transactions) == t
            && (f.refreshFails ==> r.completed == completed)
            && (!f.refreshFails ==> IsTaskCompleted(r.completed, task.id)
                                    && r.completed == CompletedTaskIds(r.tables.userTasks, user.value.id))
  {
    if user.None? then ClaimResult(t, completed, NoUser)
    else
      var u := user.value;
      if IsTaskCompleted(completed, task.id) then ClaimResult(t, completed, AlreadyCompleted)
      else
        var inserted := WithUserTask(t, CompletionRow(u.id, task));
        if f.insertFails || inserted.None? then ClaimResult(t, completed, InsertFailed)
        else if f.updateFails then ClaimResult(inserted.value, completed, WalletUpdateFailed)
        else
          var base := if fromStoredRow then t.users[u.id] else u;
          var credited := WithWallet(inserted.value, u.id, base.walletBalance + task.rewardAmount,
                                     base.totalEarned + task.rewardAmount);
          var recorded := WithTransaction(credited, RewardEntry(u.id, task));
          var after := if f.recordFails || recorded.None? then credited else recorded.value;
          var ids := CompletedTaskIds(after.userTasks, u.id);
          assert after.userTasks[|after.userTasks| - 1] == CompletionRow(u.id, task);
          assert task.id in ids;
          var reloaded := if !f.refreshFails && u.id in after.users then ids else completed;
          ClaimResult(after, reloaded, Completed)
  }

  /** The tables a claim leaves once both the insert and the wallet update
      went through, in terms of the single writes. */
  lemma ClaimOnCompletes(t: Tables, u: User, completed: seq<Id>, task: Task, f: Faults, fromStoredRow: bool)
    requires !IsTaskCompleted(completed, task.id) && !f.insertFails && !f.updateFails
    requires u.id in t.users && task.id in t.tasks
    ensures var base := if fromStoredRow then t.users[u.id] else u;
            var credited := WithWallet(WithUserTask(t, CompletionRow(u.id, task)).value, u.id,
                                       base.walletBalance + task.rewardAmount, base.totalEarned + task.rewardAmount);
            var recorded := WithTransaction(credited, RewardEntry(u.id, task));
            var r := ClaimOn(t, Some(u), completed, task, f, fromStoredRow);
      r.outcome == Completed && r.tables == if f.recordFails || recorded.None? then credited else recorded.value
  {
  }

  /** A claim, as written or corrected and whatever its outcome, keeps every
      foreign key: each of its writes does. */
  lemma ClaimOnKeepsConsistent(t: Tables, user: Option<User>, completed: seq<Id>, task: Task, f: Faults, fromStoredRow: bool)
    requires Consistent(t)
    ensures Consistent(ClaimOn(t, user, completed, task, f, fromStoredRow).tables)
  {
    var r := ClaimOn(t, user, completed, task, f, fromStoredRow);
    if r.outcome == WalletUpdateFailed || r.outcome == Completed {
      var u := user.value;
      var row := CompletionRow(u.id, task);
      UserTaskInsertKeepsConsistent(t, row);
      var inserted := WithUserTask(t, row).value;
      if r.outcome == Completed {
        var base := if fromStoredRow then t.users[u.id] else u;
        var wallet, earned := base.walletBalance + task.rewardAmount, base.totalEarned + task.rewardAmount;
        WalletUpdateKeepsConsistent(inserted, u.id, wallet, earned);
        var credited := WithWallet(inserted, u.id, wallet, earned);
        if WithTransaction(credited, RewardEntry(u.id, task)).Some? {
          TransactionInsertKeepsConsistent(credited, RewardEntry(u.id, task));
        }
        ClaimOnCompletes(t, u, completed, task, f, fromStoredRow);
      }
    }
  }

  /** `handleTaskClick` as written: the stored wallet and lifetime total
      become the page's snapshot values plus the reward, whatever the stored
      row held before. */
  function Claim(t: Tables, user: Option<User>, completed: seq<Id>, task: Task, f: Faults): (r: ClaimResult)
    ensures r.outcome == Completed
        ==> user.Some? && user.value.id in r.tables.users
            && r.tables.users[user.value.id].walletBalance == user.value.walletBalance + task.rewardAmount
            && r.tables.users[user.value.id].totalEarned == user.value.totalEarned + task.rewardAmount
  {
    ClaimOn(t, user, completed, task, f, false)
  }

  /** The claim as evidently intended: the credit is added to the stored row. */
  function ClaimFromStoredRow(t: Tables, user: Option<User>, completed: seq<Id>, task: Task, f: Faults): (r: ClaimResult)
    ensures r.outcome == Completed
        ==> user.Some? && user.value.id in r.tables.users && user.value.id in t.users
            && r.tables.users[user.value.id].walletBalance == t.users[user.value.id].walletBalance + task.rewardAmount
            && r.tables.users[user.value.id].totalEarned == t.users[user.value.id].totalEarned + task.rewardAmount
  {
    ClaimOn(t, user, completed, task, f, true)
  }

  /** Two claims in a row from the page as written: the snapshot is not
      reloaded in between, so the second write overwrites the first credit
      and the stored wallet holds the snapshot plus the second reward only,
      while both rewards are recorded as transactions. */
  lemma SecondClaimOverwritesFirst(t: Tables, user: Option<User>, completed: seq<Id>, task1: Task, task2: Task)
    requires Claim(t, user, completed, task1, NoFaults).outcome == Completed
    requires var s := Claim(t, user, completed, task1, NoFaults);
             Claim(s.tables, user, s.completed, task2, NoFaults).outcome == Completed
    ensures var s := Claim(t, user, completed, task1, NoFaults);
            var r := Claim(s.tables, user, s.completed, task2, NoFaults);
            var id := user.value.id;
      r.tables.users[id].walletBalance == user.value.walletBalance + task2.rewardAmount
      && TransactionTotal(r.tables.transactions, id)
         == TransactionTotal(t.transactions, id) + task1.rewardAmount + task2.rewardAmount
  {
    var id := user.value.id;
    var s := Claim(t, user, completed, task1, NoFaults);
    TransactionTotalAppend(t.transactions, FillTransaction(RewardEntry(id, task1), t.defaults), id);
    TransactionTotalAppend(s.tables.transactions, FillTransaction(RewardEntry(id, task2), s.tables.defaults), id);
  }

  /** A concrete pair of claims: a user with an empty wallet claims a task
      worth 100 and then one worth 200. The stored wallet ends at 200, not
      300, and no longer equals the user's transaction total. */
  lemma LostRewardExample()
    ensures var u := User("u", None, "e", "f", "l", None, None, "code", None, false, None, None, 0, 0);
            var a := Task("a", "A", "", "survey", 100, true, None);
            var b := Task("b", "B", "", "survey", 200, true, None);
            var t := Tables(map["u" := u], map["a" := a, "b" := b], [], [], [], [], ColumnDefaults("completed", Some("pending")));
            var s := Claim(t, Some(u), [], a, NoFaults);
            var r := Claim(s.tables, Some(u), s.completed, b, NoFaults);
      r.outcome == Completed
      && r.tables.users["u"].walletBalance == 200
      && TransactionTotal(r.tables.transactions, "u") == 300
  {
    var u := User("u", None, "e", "f", "l", None, None, "code", None, false, None, None, 0, 0);
    var a := Task("a", "A", "", "survey", 100, true, None);
    var b := Task("b", "B", "", "survey", 200, true, None);
    var t := Tables(map["u" := u], map["a" := a, "b" := b], [], [], [], [], ColumnDefaults("completed", Some("pending")));
    var s := Claim(t, Some(u), [], a, NoFaults);
    assert s.outcome == Completed;
    assert s.completed == CompletedTaskIds(s.tables.userTasks, "u");
    assert s.tables.userTasks == [UserTask("u", "a", 100)];
    assert !IsTaskCompleted(s.completed, "b");
    SecondClaimOverwritesFirst(t, Some(u), [], a, b);
    assert TransactionTotal([], "u") == 0;
  }

  /** The corrected claim keeps the stored wallet in step with the user's
      transaction total whenever the transaction is recorded, whatever the
      snapshot holds. */
  lemma StoredRowClaimKeepsWalletInStep(t: Tables, user: Option<User>, completed: seq<Id>, task: Task, f: Faults)
    requires !f.recordFails
    requires ClaimFromStoredRow(t, user, completed, task, f).outcome == Completed
    ensures var r := ClaimFromStoredRow(t, user, completed, task, f); var id := user.value.id;
      r.tables.users[id].walletBalance - TransactionTotal(r.tables.transactions, id)
      == t.users[id].walletBalance - TransactionTotal(t.transactions, id)
  {
    var id := user.value.id;
    TransactionTotalAppend(t.transactions, FillTransaction(RewardEntry(id, task), t.defaults), id);
  }

  /** With the corrected claim, two claims in a row credit both rewards. */
  lemma StoredRowClaimsCreditBoth(t: Tables, user: Option<User>, completed: seq<Id>, task1: Task, task2: Task)
    requires ClaimFromStoredRow(t, user, completed, task1, NoFaults).outcome == Completed
    requires var s := ClaimFromStoredRow(t, user, completed, task1, NoFaults);
             ClaimFromStoredRow(s.tables, user, s.completed, task2, NoFaults).outcome == Completed
    ensures var s := ClaimFromStoredRow(t, user, completed, task1, NoFaults);
            var r := ClaimFromStoredRow(s.tables, user, s.completed, task2, NoFaults);
            var id := user.value.id;
      r.tables.users[id].walletBalance == t.users[id].walletBalance + task1.rewardAmount + task2.rewardAmount
  {
  }

  /** When the wallet update fails the completion is already stored but the
      cache is not reloaded, so clicking the same task again stores a second
      completion of the same pair and completes. */
  lemma RetryAfterWalletFailureDuplicates(t: Tables, user: Option<User>, completed: seq<Id>, task: Task, f: Faults)
    requires Claim(t, user, completed, task, f).outcome == WalletUpdateFailed
    ensures var s := Claim(t, user, completed, task, f);
            var r := Claim(s.tables, user, s.completed, task, NoFaults);
      r.outcome == Completed
      && CompletionCount(r.tables.userTasks, user.value.id, task.id)
         == CompletionCount(t.userTasks, user.value.id, task.id) + 2
  {
    var s := Claim(t, user, completed, task, f);
    var row := CompletionRow(user.value.id, task);
    CompletionCountAppend(t.userTasks, row, user.value.id, task.id);
    CompletionCountAppend(s.tables.userTasks, row, user.value.id, task.id);
  }

  /** The tasks page: its one-time user snapshot, its listing and its cache
      of completed task ids. */
  class TasksPage {
    const db: Database
    var user: Option<User>
    var tasks: seq<Task>
    var completedTasks: seq<Id>

    /** The listing holds active tasks only, highest reward first. */
    ghost predicate Valid()
      reads this
    {
      (forall x :: x in tasks ==> x.isActive) && SortedByRewardDesc(tasks)
    }

    constructor (db: Database)
      ensures this.db == db && user.None? && tasks == [] && completedTasks == [] && Valid()
    {
      this.db := db;
      user := None;
      tasks := [];
      completedTasks := [];
    }

    /** `checkAuth`: the profile lookup's data is stored as it comes, so a
        failed or empty lookup leaves no snapshot. */
    method CheckAuth(id: Id, fails: bool)
      modifies this`user
      ensures user == if !fails && id in db.users then Some(db.users[id]) else None
    {
      user := db.SelectUser(id, fails);
    }

    /** `fetchTasks`: `rows` is the tasks table as the database returns it. */
    method FetchTasks(rows: seq<Task>, fails: bool)
      requires Valid() && ListsTable(rows, db.tasks)
      modifies this`tasks
      ensures Valid()
      ensures tasks == if fails then old(tasks) else ListTasks(rows)
    {
      if !fails {
        tasks := ListTasks(rows);
      }
    }

    /** `fetchCompletedTasks` for the signed-in user whose profile id is `id`. */
    method FetchCompletedTasks(id: Id, fails: bool)
      modifies this`completedTasks
      ensures completedTasks == if !fails && id in db.users then CompletedTaskIds(db.userTasks, id) else old(completedTasks)
    {
      var ids := db.SelectCompletedTaskIds(id, fails);
      if ids.Some? {
        completedTasks := ids.value;
      }
    }

    /** `handleTaskClick` on one of the listed tasks. The snapshot is never
        written. */
    method HandleTaskClick(task: Task, f: Faults) returns (outcome: ClaimOutcome)
      requires Valid() && task in tasks
      modifies this`completedTasks, db
      ensures Valid() && task.isActive && user == old(user)
      ensures outcome == Claim(old(db.State()), user, old(completedTasks), task, f).outcome
      ensures db.State() == Claim(old(db.State()), user, old(completedTasks), task, f).tables
      ensures completedTasks == Claim(old(db.State()), user, old(completedTasks), task, f).completed
    {
      if user.None? {
        return NoUser;
      }
      var u := user.value;
      if IsTaskCompleted(completedTasks, task.id) {
        return AlreadyCompleted;
      }
      ghost var t0 := db.State();
      ghost var c0 := completedTasks;
      var ok := db.InsertUserTask(CompletionRow(u.id, task), f.insertFails);
      if !ok {
        return InsertFailed;
      }
      ok := db.UpdateWallet(u.id, u.walletBalance + task.rewardAmount, u.totalEarned + task.rewardAmount, f.updateFails);
      if !ok {
        return WalletUpdateFailed;
      }
      // The page awaits this insert but never looks at its error.
      var recorded := db.InsertTransaction(RewardEntry(u.id, task), f.recordFails);
      FetchCompletedTasks(u.id, f.refreshFails);
      ClaimOnCompletes(t0, u, c0, task, f, false);
      return Completed;
    }
  }
}
