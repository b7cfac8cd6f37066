/** The dashboard page's task claim. It checks the `user_tasks` table for an
    existing completion, inserts one, writes the wallet from the page's user
    snapshot plus the reward, records a `task_reward` transaction, and then
    reloads the snapshot from the stored row. */
module Dashboard {
  import opened Schema
  import opened Ledger

  datatype ClaimResult = ClaimResult(tables: Tables, user: Option<User>, outcome: ClaimOutcome)

  /** The completion check of `handleTaskClick` finds exactly one row. */
  predicate LookupHits(t: Tables, user: Option<User>, task: Task, f: Faults) {
    user.Some? && !f.lookupFails && SelectSingleCompletion(t.userTasks, user.value.id, task.id).Some?
  }

  /** `handleTaskClick(task)` run on the tables `t` with the page's snapshot
      `user`; `f` says which database calls fail. */
  function Claim(t: Tables, user: Option<User>, task: Task, f: Faults): (r: ClaimResult)
    ensures user.None? ==> r == ClaimResult(t, user, NoUser)
    ensures r.outcome == AlreadyCompleted
        <==> user.Some? && !f.lookupFails && CompletionCount(t.userTasks, user.value.id, task.id) == 1
    ensures r.outcome in {NoUser, AlreadyCompleted, InsertFailed} ==> r.tables == t && r.user == user
    ensures r.outcome == InsertFailed
        <==> user.Some? && !LookupHits(t, user, task, f)
             && (f.insertFails || user.value.id !in t.users || task.id !in t.tasks)
    ensures r.outcome == WalletUpdateFailed
        ==> user.Some? && r.user == user
            && r.tables == t.(userTasks := t.userTasks + [CompletionRow(user.value.id, task)])
    ensures r.outcome == Completed
        ==> user.Some? && user.value.id in t.users && task.id in t.tasks
            && r.tables.userTasks == t.userTasks + [CompletionRow(user.value.id, task)]
            && r.tables.users == t.users[user.value.id := t.users[user.value.id].(
                 walletBalance := user.value.walletBalance + task.rewardAmount,
                 totalEarned := user.value.totalEarned + task.rewardAmount)]
            && r.tables.transactions
               == t.transactions + (if f.recordFails then [] else [FillTransaction(RewardEntry(user.value.id, task), t.defaults)])
            && r.tables.(users := t.users, userTasks := t.userTasks, transactions := t.transactions) == t
            && r.user == (if f.refreshFails then user else Some(r.tables.users[user.value.id]))
    ensures r.outcome == WalletUpdateFailed || r.outcome == Completed
        <==> user.Some? && !LookupHits(t, user, task, f)
             && !f.insertFails && user.value.id in t.users && task.id in t.tasks
    ensures r.outcome == WalletUpdateFailed ==> f.updateFails
    ensures r.outcome == Completed ==> !f.updateFails
  {
    if user.None? then ClaimResult(t, user, NoUser)
    else
      var u := user.value;
      if LookupHits(t, user, task, f) then ClaimResult(t, user, AlreadyCompleted)
      else
        var inserted := WithUserTask(t, CompletionRow(u.id, task));
        if f.insertFails || inserted.None? then ClaimResult(t, user, InsertFailed)
        else if f.updateFails then ClaimResult(inserted.value, user, WalletUpdateFailed)
        else
          var credited := WithWallet(inserted.value, u.id, u.walletBalance + task.rewardAmount,
                                     u.totalEarned + task.rewardAmount);
          var recorded := WithTransaction(credited, RewardEntry(u.id, task));
          var after := if f.recordFails || recorded.None? then credited else recorded.value;
          var reloaded := if !f.refreshFails && u.id in after.users then Some(after.users[u.id]) else user;
          ClaimResult(after, reloaded, Completed)
  }

  /** The result of a claim once the lookup found nothing and both the
      insert and the wallet update went through, in terms of the single writes. */
  lemma ClaimCompletes(t: Tables, u: User, task: Task, f: Faults)
    requires !LookupHits(t, Some(u), task, f) && !f.insertFails && !f.updateFails
    requires u.id in t.users && task.id in t.tasks
    ensures var credited := WithWallet(WithUserTask(t, CompletionRow(u.id, task)).value, u.id,
                                       u.walletBalance + task.rewardAmount, u.totalEarned + task.rewardAmount);
            var recorded := WithTransaction(credited, RewardEntry(u.id, task));
            var r := Claim(t, Some(u), task, f);
      && r.outcome == Completed
      && r.tables == (if f.recordFails || recorded.None? then credited else recorded.value)
      && r.user == if !f.refreshFails && u.id in r.tables.users then Some(r.tables.users[u.id]) else Some(u)
  {
  }

  /** A completed claim adds the same reward to the wallet and to the lifetime
      total, so their difference is that of the snapshot; with a fresh
      snapshot the stored wallet rises by exactly the reward. */
  lemma CompletedClaimCredits(t: Tables, user: Option<User>, task: Task, f: Faults)
    requires Claim(t, user, task, f).outcome == Completed
    ensures var r := Claim(t, user, task, f); var id := user.value.id;
      id in r.tables.users
      && r.tables.users[id].totalEarned - r.tables.users[id].walletBalance
         == user.value.totalEarned - user.value.walletBalance
      && (SnapshotFresh(t, user) ==>
            r.tables.users[id].walletBalance == t.users[id].walletBalance + task.rewardAmount
            && r.tables.users[id].totalEarned == t.users[id].totalEarned + task.rewardAmount)
  {
  }

  /** The claim keeps the snapshot equal to the stored row whenever the final
      reload answers: failed paths do not touch the `users` table. */
  lemma ClaimKeepsSnapshotFresh(t: Tables, user: Option<User>, task: Task, f: Faults)
    requires SnapshotFresh(t, user) && !f.refreshFails
    ensures SnapshotFresh(Claim(t, user, task, f).tables, Claim(t, user, task, f).user)
  {
  }

  /** When the completion lookup answers, a claim never creates a second
      completion of the same (user, task) pair. */
  lemma {:induction false} ClaimKeepsAtMostOne(t: Tables, user: Option<User>, task: Task, f: Faults)
    requires AtMostOneCompletion(t.userTasks) && !f.lookupFails
    ensures AtMostOneCompletion(Claim(t, user, task, f).tables.userTasks)
  {
    var r := Claim(t, user, task, f);
    if r.tables.userTasks != t.userTasks {
      var row := CompletionRow(user.value.id, task);
      assert r.tables.userTasks == t.userTasks + [row];
      assert CompletionCount(t.userTasks, row.userId, row.taskId) == 0;
      forall userId, taskId
        ensures CompletionCount(r.tables.userTasks, userId, taskId) <= 1
      {
        CompletionCountAppend(t.userTasks, row, userId, taskId);
      }
    }
  }

  /** One click on a listed task, with the faults its database calls meet. */
  datatype Click = Click(task: Task, faults: Faults)

  /** The state after a run of claims, with one outcome per click. */
  datatype Session = Session(tables: Tables, user: Option<User>, outcomes: seq<ClaimOutcome>)

  /** A sequence of claims made one after another on the dashboard. */
  function RunClaims(t: Tables, user: Option<User>, clicks: seq<Click>): (r: Session)
    ensures |r.outcomes| == |clicks|
    ensures clicks == [] ==> r.tables == t && r.user == user
    ensures clicks != [] ==> r.outcomes[0] == Claim(t, user, clicks[0].task, clicks[0].faults).outcome
    decreases |clicks|
  {
    if clicks == [] then Session(t, user, [])
    else
      var step := Claim(t, user, clicks[0].task, clicks[0].faults);
      var rest := RunClaims(step.tables, step.user, clicks[1..]);
      Session(rest.tables, rest.user, [step.outcome] + rest.outcomes)
  }

  /** Over any sequence of dashboard claims whose completion lookups answer,
      at most one completion exists per (user, task) pair. */
  lemma {:induction false} RunClaimsKeepAtMostOne(t: Tables, user: Option<User>, clicks: seq<Click>)
    requires AtMostOneCompletion(t.userTasks)
    requires forall i :: 0 <= i < |clicks| ==> !clicks[i].faults.lookupFails
    ensures AtMostOneCompletion(RunClaims(t, user, clicks).tables.userTasks)
    decreases |clicks|
  {
    if clicks != [] {
      var step := Claim(t, user, clicks[0].task, clicks[0].faults);
      ClaimKeepsAtMostOne(t, user, clicks[0].task, clicks[0].faults);
      assert forall i :: 0 <= i < |clicks[1..]| ==> clicks[1..][i] == clicks[i + 1];
      RunClaimsKeepAtMostOne(step.tables, step.user, clicks[1..]);
    }
  }

  /** Over any sequence of dashboard claims whose reloads answer, the
      snapshot stays the stored row. */
  lemma {:induction false} RunClaimsKeepSnapshotFresh(t: Tables, user: Option<User>, clicks: seq<Click>)
    requires SnapshotFresh(t, user)
    requires forall i :: 0 <= i < |clicks| ==> !clicks[i].faults.refreshFails
    ensures SnapshotFresh(RunClaims(t, user, clicks).tables, RunClaims(t, user, clicks).user)
    decreases |clicks|
  {
    if clicks != [] {
      var step := Claim(t, user, clicks[0].task, clicks[0].faults);
      ClaimKeepsSnapshotFresh(t, user, clicks[0].task, clicks[0].faults);
      assert forall i :: 0 <= i < |clicks[1..]| ==> clicks[1..][i] == clicks[i + 1];
      RunClaimsKeepSnapshotFresh(step.tables, step.user, clicks[1..]);
    }
  }

  /** A claim, whatever its outcome, keeps every foreign key: each of its
      writes does. */
  lemma ClaimKeepsConsistent(t: Tables, user: Option<User>, task: Task, f: Faults)
    requires Consistent(t)
    ensures Consistent(Claim(t, user, task, f).tables)
  {
    var r := Claim(t, user, task, f);
    if r.outcome == WalletUpdateFailed || r.outcome == Completed {
      var u := user.value;
      var row := CompletionRow(u.id, task);
      UserTaskInsertKeepsConsistent(t, row);
      var inserted := WithUserTask(t, row).value;
      if r.outcome == Completed {
        var wallet, earned := u.walletBalance + task.rewardAmount, u.totalEarned + task.rewardAmount;
        WalletUpdateKeepsConsistent(inserted, u.id, wallet, earned);
        var credited := WithWallet(inserted, u.id, wallet, earned);
        if WithTransaction(credited, RewardEntry(u.id, task)).Some? {
          TransactionInsertKeepsConsistent(credited, RewardEntry(u.id, task));
        }
        ClaimCompletes(t, u, task, f);
      }
    }
  }

  /** With a fresh snapshot and a recorded transaction, a completed claim
      moves the wallet and the user's transaction total by the same amount. */
  lemma RecordedClaimKeepsWalletInStep(t: Tables, user: Option<User>, task: Task, f: Faults)
    requires SnapshotFresh(t, user) && !f.recordFails
    requires Claim(t, user, task, f).outcome == Completed
    ensures var r := Claim(t, user, task, f); var id := user.value.id;
      r.tables.users[id].walletBalance - TransactionTotal(r.tables.transactions, id)
      == t.users[id].walletBalance - TransactionTotal(t.transactions, id)
  {
    var id := user.value.id;
    TransactionTotalAppend(t.transactions, FillTransaction(RewardEntry(id, task), t.defaults), id);
  }

  /** The page ignores an error from the transaction insert: the claim still
      completes, and the wallet runs ahead of the user's transactions by the
      reward. */
  lemma UnrecordedClaimDrifts(t: Tables, user: Option<User>, task: Task, f: Faults)
    requires SnapshotFresh(t, user) && f.recordFails
    requires Claim(t, user, task, f).outcome == Completed
    ensures var r := Claim(t, user, task, f); var id := user.value.id;
      r.tables.users[id].walletBalance - TransactionTotal(r.tables.transactions, id)
      == t.users[id].walletBalance - TransactionTotal(t.transactions, id) + task.rewardAmount
  {
  }

  /** The dashboard page: its user snapshot and the tasks it lists. */
  class DashboardPage {
    const db: Database
    var user: Option<User>
    var tasks: seq<Task>

    /** Only active tasks are listed. */
    ghost predicate Valid()
      reads this
    {
      forall x :: x in tasks ==> x.isActive
    }

    constructor (db: Database)
      ensures this.db == db && user.None? && tasks == [] && Valid()
    {
      this.db := db;
      user := None;
      tasks := [];
    }

    /** `fetchUserData` for the signed-in user whose profile id is `id`; on
        an error the snapshot is kept. */
    method FetchUserData(id: Id, fails: bool)
      modifies this`user
      ensures user == if !fails && id in db.users then Some(db.users[id]) else old(user)
    {
      var row := db.SelectUser(id, fails);
      if row.Some? {
        user := row;
      }
    }

    /** `fetchTasks`: `rows` is the tasks table as the database returns it. */
    method FetchTasks(rows: seq<Task>, fails: bool)
      requires Valid() && ListsTable(rows, db.tasks)
      modifies this`tasks
      ensures Valid()
      ensures tasks == if fails then old(tasks) else ActiveTasks(rows)
      ensures forall x :: x in tasks && !fails ==> x in db.tasks.Values
    {
      if !fails {
        tasks := ActiveTasks(rows);
      }
    }

    /** `handleTaskClick` on one of the listed tasks. */
    method HandleTaskClick(task: Task, f: Faults) returns (outcome: ClaimOutcome)
      requires Valid() && task in tasks
      modifies this`user, db
      ensures Valid() && task.isActive
      ensures outcome == Claim(old(db.State()), old(user), task, f).outcome
      ensures db.State() == Claim(old(db.State()), old(user), task, f).tables
      ensures user == Claim(old(db.State()), old(user), task, f).user
    {
      if user.None? {
        return NoUser;
      }
      var u := user.value;
      var existing := db.SelectCompletion(u.id, task.id, f.lookupFails);
      if existing.Some? {
        return AlreadyCompleted;
      }
      var ok := db.InsertUserTask(CompletionRow(u.id, task), f.insertFails);
      if !ok {
        return InsertFailed;
      }
      ok := db.UpdateWallet(u.id, u.walletBalance + task.rewardAmount, u.totalEarned + task.rewardAmount, f.updateFails);
      if !ok {
        return WalletUpdateFailed;
      }
      // The page awaits this insert but never looks at its error.
      var recorded := db.InsertTransaction(RewardEntry(u.id, task), f.recordFails);
      ClaimCompletes(old(db.State()), u, task, f);
      var reloaded := db.SelectUser(u.id, f.refreshFails);
      if reloaded.Some? {
        user := reloaded;
      }
      return Completed;
    }
  }
}
