/** Row shapes of the hosted tables that hold the earnings ledger, the
    columns the database fills in when an insert leaves them out, the
    `app_role` enumeration, and the foreign keys every stored state keeps.

    Timestamps (`created_at`, `completed_at`, `paid_at`, `requested_at`,
    `processed_at`, `updated_at`) and the generated row ids of the log
    tables are not modelled: nothing in the ledger logic reads them. */
module Schema {

  type Id = string

  datatype Option<+T> = None | Some(value: T)

  /** `app_role`: exactly the two roles the schema declares. */
  datatype AppRole = RoleAdmin | RoleUser

  /** The enumeration as the schema lists it, in its order. */
  const AppRoleValues: seq<AppRole> := [RoleAdmin, RoleUser]

  function RoleName(role: AppRole): (name: string)
    ensures ParseRole(name) == Some(role)
  {
    match role
    case RoleAdmin => "admin"
    case RoleUser => "user"
  }

  /** Reads a stored role label; anything but the two labels is not a role. */
  function ParseRole(s: string): (r: Option<AppRole>)
    ensures r.Some? <==> s == "admin" || s == "user"
    ensures r.Some? ==> r.value in AppRoleValues
  {
    if s == "admin" then Some(RoleAdmin)
    else if s == "user" then Some(RoleUser)
    else None
  }

  /** A `users` row. Balance, lifetime earnings, referral code and the
      bonus flag are never null; the payment columns and the referrer are. */
  datatype User = User(
    id: Id,
    authId: Option<Id>,
    email: string,
    firstName: string,
    lastName: string,
    paymentRequired: Option<bool>,
    phone: Option<string>,
    referralCode: string,
    referredBy: Option<Id>,
    registrationBonusClaimed: bool,
    registrationPaymentAmount: Option<int>,
    registrationPaymentStatus: Option<string>,
    totalEarned: int,
    walletBalance: int)

  /** A `tasks` row. */
  datatype Task = Task(
    id: Id,
    title: string,
    description: string,
    taskType: string,
    rewardAmount: int,
    isActive: bool,
    url: Option<string>)

  /** A `user_tasks` row: one recorded task completion. */
  datatype UserTask = UserTask(userId: Id, taskId: Id, rewardEarned: int)

  /** A `transactions` row; `status` is never null once stored. */
  datatype Transaction = Transaction(
    userId: Id,
    transactionType: string,
    amount: int,
    description: string,
    status: string)

  /** The `transactions` insert shape: `status` may be left out. */
  datatype TransactionInsert = TransactionInsert(
    userId: Id,
    transactionType: string,
    amount: int,
    description: string,
    status: Option<string>)

  /** A `referrals` row. */
  datatype Referral = Referral(referrerId: Id, referredId: Id, generation: int, bonusAmount: int)

  /** A `withdrawal_requests` row; every column but the user and the amount may be null. */
  datatype WithdrawalRequest = WithdrawalRequest(
    userId: Id,
    amount: int,
    bankName: Option<string>,
    accountNumber: Option<string>,
    accountName: Option<string>,
    status: Option<string>,
    adminNotes: Option<string>)

  /** The `withdrawal_requests` insert shape as the withdrawal page sends it:
      the status and the notes are left to the database. */
  datatype WithdrawalInsert = WithdrawalInsert(
    userId: Id,
    amount: int,
    bankName: Option<string>,
    accountNumber: Option<string>,
    accountName: Option<string>)

  /** Column defaults of the hosted database; their values are not part of
      the schema text, so they are carried as data. */
  datatype ColumnDefaults = ColumnDefaults(transactionStatus: string, withdrawalStatus: Option<string>)

  /** The stored row a `transactions` insert produces. */
  function FillTransaction(ins: TransactionInsert, defaults: ColumnDefaults): (row: Transaction)
    ensures row.userId == ins.userId && row.amount == ins.amount
    ensures row.transactionType == ins.transactionType && row.description == ins.description
    ensures ins.status.None? ==> row.status == defaults.transactionStatus
    ensures ins.status.Some? ==> row.status == ins.status.value
  {
    Transaction(ins.userId, ins.transactionType, ins.amount, ins.description,
                if ins.status.Some? then ins.status.value else defaults.transactionStatus)
  }

  /** The stored row a `withdrawal_requests` insert produces. */
  function FillWithdrawal(ins: WithdrawalInsert, defaults: ColumnDefaults): (row: WithdrawalRequest)
    ensures row.userId == ins.userId && row.amount == ins.amount
    ensures row.bankName == ins.bankName && row.accountNumber == ins.accountNumber
    ensures row.accountName == ins.accountName
    ensures row.status == defaults.withdrawalStatus && row.adminNotes == None
  {
    WithdrawalRequest(ins.userId, ins.amount, ins.bankName, ins.accountNumber, ins.accountName,
                      defaults.withdrawalStatus, None)
  }

  /** An in-memory copy of the ledger's tables. `users` and `tasks` are keyed
      by their primary key; the log tables keep insertion order. */
  datatype Tables = Tables(
    users: map<Id, User>,
    tasks: map<Id, Task>,
    userTasks: seq<UserTask>,
    transactions: seq<Transaction>,
    referrals: seq<Referral>,
    withdrawalRequests: seq<WithdrawalRequest>,
    defaults: ColumnDefaults)

  predicate KeyedById(t: Tables) {
    && (forall id :: id in t.users ==> t.users[id].id == id)
    && (forall id :: id in t.tasks ==> t.tasks[id].id == id)
  }

  /** `users_referred_by_fkey`: a referrer, when set, is an existing user. */
  predicate ReferrersExist(users: map<Id, User>) {
    forall id :: id in users && users[id].referredBy.Some? ==> users[id].referredBy.value in users
  }

  /** `user_tasks_task_id_fkey` and `user_tasks_user_id_fkey`. */
  predicate CompletionsLinked(t: Tables) {
    forall i :: 0 <= i < |t.userTasks| ==> t.userTasks[i].userId in t.users && t.userTasks[i].taskId in t.tasks
  }

  /** `transactions_user_id_fkey`. */
  predicate TransactionsLinked(t: Tables) {
    forall i :: 0 <= i < |t.transactions| ==> t.transactions[i].userId in t.users
  }

  /** `referrals_referrer_id_fkey` and `referrals_referred_id_fkey`. */
  predicate ReferralsLinked(t: Tables) {
    forall i :: 0 <= i < |t.referrals| ==> t.referrals[i].referrerId in t.users && t.referrals[i].referredId in t.users
  }

  /** Every foreign key the schema declares holds; `withdrawal_requests`
      declares none, so its rows are unconstrained. */
  predicate Consistent(t: Tables) {
    && KeyedById(t)
    && ReferrersExist(t.users)
    && CompletionsLinked(t)
    && TransactionsLinked(t)
    && ReferralsLinked(t)
  }

  /** The referrer of `id`, if `id` is a user who has one. */
  function Referrer(users: map<Id, User>, id: Id): Option<Id> {
    if id in users then users[id].referredBy else None
  }

  /** The user reached from `id` by following `referred_by` n + 1 times. */
  function Upline(users: map<Id, User>, id: Id, n: nat): Option<Id> {
    if n == 0 then Referrer(users, id)
    else match Upline(users, id, n - 1)
      case None => None
      case Some(a) => Referrer(users, a)
  }

  /** Under the self-referential key, every step up the referral chain lands
      on an existing user, and once the chain ends it stays ended. */
  lemma {:induction false} UplineStaysInUsers(users: map<Id, User>, id: Id, n: nat, m: nat)
    requires ReferrersExist(users)
    requires n <= m
    ensures Upline(users, id, n).Some? ==> Upline(users, id, n).value in users
    ensures Upline(users, id, m).Some? ==> Upline(users, id, n).Some?
  {
    if n < m {
      UplineStaysInUsers(users, id, n, m - 1);
    }
  }
}
