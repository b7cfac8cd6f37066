/** The withdrawal page: the three checks an amount must pass, the request
    insert, and the status classifiers of the request list. A request is only
    recorded: the page neither debits nor reserves the wallet. */
module Withdrawal {
  import opened Schema
  import opened Ledger

  /** The smallest amount a request may ask for. */
  const MinimumWithdrawal: int := 1000

  /** Why an amount was refused, one reason per check. */
  datatype Rejection = InvalidAmount | InsufficientBalance | BelowMinimum

  /** The checks of `handleWithdrawalRequest`, in the order they fire,
      against the wallet balance of the page's user snapshot. */
  function Validate(amount: int, balance: int): (r: Option<Rejection>)
    ensures r == Some(InvalidAmount) <==> amount <= 0
    ensures r == Some(InsufficientBalance) <==> 0 < amount && balance < amount
    ensures r == Some(BelowMinimum) <==> 0 < amount <= balance && amount < MinimumWithdrawal
    ensures r.None? <==> MinimumWithdrawal <= amount <= balance
  {
    if amount <= 0 then Some(InvalidAmount)
    else if amount > balance then Some(InsufficientBalance)
    else if amount < MinimumWithdrawal then Some(BelowMinimum)
    else None
  }

  /** The balance check comes before the minimum: an amount that is both too
      large and too small is reported as too large. */
  lemma BalanceCheckFiresFirst(amount: int, balance: int)
    requires 0 < amount < MinimumWithdrawal && balance < amount
    ensures Validate(amount, balance) == Some(InsufficientBalance)
  {
  }

  /** A balance below the minimum admits no amount at all. */
  lemma SmallBalanceRefusesAll(amount: int, balance: int)
    requires balance < MinimumWithdrawal
    ensures Validate(amount, balance).Some?
  {
  }

  // ---------------------------------------------------------------------
  // Status classifiers

  datatype StatusIcon = YellowClock | GreenCheck | RedCross | GrayClock

  /** `getStatusIcon`; a null status falls to the default case. */
  function GetStatusIcon(status: Option<string>): (icon: StatusIcon)
    ensures icon == YellowClock <==> status == Some("pending")
    ensures icon == RedCross <==> status == Some("rejected")
    ensures icon == GreenCheck <==> status == Some("approved") || status == Some("completed")
    ensures icon == GrayClock
        <==> status.None? || (status.value != "pending" && status.value != "approved"
                              && status.value != "completed" && status.value != "rejected")
  {
    match status
    case Some("pending") => YellowClock
    case Some("approved") => GreenCheck
    case Some("completed") => GreenCheck
    case Some("rejected") => RedCross
    case _ => GrayClock
  }

  /** `getStatusColor`: the badge style of a request status. */
  function GetStatusColor(status: Option<string>): (style: string)
    ensures style == "bg-yellow-100 text-yellow-800" <==> status == Some("pending")
    ensures style == "bg-red-100 text-red-800" <==> status == Some("rejected")
    ensures style == "bg-green-100 text-green-800" <==> status == Some("approved") || status == Some("completed")
    ensures style == "bg-gray-100 text-gray-800"
        <==> status.None? || (status.value != "pending" && status.value != "approved"
                              && status.value != "completed" && status.value != "rejected")
  {
    match status
    case Some("pending") => "bg-yellow-100 text-yellow-800"
    case Some("approved") => "bg-green-100 text-green-800"
    case Some("completed") => "bg-green-100 text-green-800"
    case Some("rejected") => "bg-red-100 text-red-800"
    case _ => "bg-gray-100 text-gray-800"
  }

  /** The icon and the badge group statuses the same way. */
  lemma StatusClassifiersAgree(a: Option<string>, b: Option<string>)
    ensures GetStatusIcon(a) == GetStatusIcon(b) <==> GetStatusColor(a) == GetStatusColor(b)
  {
  }

  // ---------------------------------------------------------------------
  // The request

  /** The form's four text fields; `amountText` is what `parseFloat` reads. */
  datatype Form = Form(amountText: string, bankName: string, accountNumber: string, accountName: string)

  const EmptyForm: Form := Form("", "", "", "")

  /** One of the form's inputs, named as in the markup. */
  datatype Field = AmountField | BankNameField | AccountNumberField | AccountNameField

  /** `handleInputChange`: the named field takes the typed value. */
  function WithInput(form: Form, field: Field, value: string): (r: Form)
    ensures field == AmountField ==> r == form.(amountText := value)
    ensures field == BankNameField ==> r == form.(bankName := value)
    ensures field == AccountNumberField ==> r == form.(accountNumber := value)
    ensures field == AccountNameField ==> r == form.(accountName := value)
  {
    match field
    case AmountField => form.(amountText := value)
    case BankNameField => form.(bankName := value)
    case AccountNumberField => form.(accountNumber := value)
    case AccountNameField => form.(accountName := value)
  }

  datatype RequestOutcome = SignedOut | Rejected(reason: Rejection) | SubmissionFailed | Submitted

  datatype RequestResult = RequestResult(
    tables: Tables,
    form: Form,
    requests: seq<WithdrawalRequest>,
    outcome: RequestOutcome)

  /** The insert a request of `amount` sends. */
  function RequestRow(userId: Id, amount: int, form: Form): (ins: WithdrawalInsert)
    ensures ins.userId == userId && ins.amount == amount
    ensures ins.bankName == Some(form.bankName) && ins.accountNumber == Some(form.accountNumber)
    ensures ins.accountName == Some(form.accountName)
  {
    WithdrawalInsert(userId, amount, Some(form.bankName), Some(form.accountNumber), Some(form.accountName))
  }

  /** `handleWithdrawalRequest` on the tables `t`, with the page's snapshot
      `user`, its form and request list; `amount` is the parsed amount text.
      Only `insertFails` and `refreshFails` of `f` are consulted. */
  function Request(t: Tables, user: Option<User>, form: Form, requests: seq<WithdrawalRequest>,
                   amount: int, f: Faults): (r: RequestResult)
    ensures r.tables.users == t.users
    ensures r.tables.(withdrawalRequests := t.withdrawalRequests) == t
    ensures user.None? ==> r == RequestResult(t, form, requests, SignedOut)
    ensures r.outcome.Rejected?
        <==> user.Some? && Validate(amount, user.value.walletBalance).Some?
    ensures r.outcome.Rejected? ==> r.outcome.reason == Validate(amount, user.value.walletBalance).value
    ensures r.outcome in {SignedOut, SubmissionFailed} || r.outcome.Rejected?
        ==> r.tables == t && r.form == form && r.requests == requests
    ensures r.outcome == SubmissionFailed
        <==> user.Some? && Validate(amount, user.value.walletBalance).None? && f.insertFails
    ensures r.outcome == Submitted
        ==> user.Some? && MinimumWithdrawal <= amount <= user.value.walletBalance
            && r.tables.withdrawalRequests
               == t.withdrawalRequests + [FillWithdrawal(RequestRow(user.value.id, amount, form), t.defaults)]
            && r.form == EmptyForm
            && r.requests == if !f.refreshFails && user.value.id in t.users
                             then RequestsOf(r.tables.withdrawalRequests, user.value.id) else requests
  {
    if user.None? then RequestResult(t, form, requests, SignedOut)
    else
      var u := user.value;
      var rejection := Validate(amount, u.walletBalance);
      if rejection.Some? then RequestResult(t, form, requests, Rejected(rejection.value))
      else if f.insertFails then RequestResult(t, form, requests, SubmissionFailed)
      else
        var after := WithWithdrawal(t, RequestRow(u.id, amount, form));
        var listed := if !f.refreshFails && u.id in after.users then RequestsOf(after.withdrawalRequests, u.id) else requests;
        RequestResult(after, EmptyForm, listed, Submitted)
  }

  /** A request, whatever its outcome, keeps every foreign key. */
  lemma RequestKeepsConsistent(t: Tables, user: Option<User>, form: Form, requests: seq<WithdrawalRequest>,
                               amount: int, f: Faults)
    requires Consistent(t)
    ensures Consistent(Request(t, user, form, requests, amount, f).tables)
  {
    if Request(t, user, form, requests, amount, f).outcome == Submitted {
      WithdrawalInsertKeepsConsistent(t, RequestRow(user.value.id, amount, form));
    }
  }

  /** The refreshed list shows the new request. */
  lemma SubmittedRequestListed(t: Tables, user: Option<User>, form: Form, requests: seq<WithdrawalRequest>,
                               amount: int, f: Faults)
    requires !f.refreshFails && user.Some? && user.value.id in t.users
    requires Request(t, user, form, requests, amount, f).outcome == Submitted
    ensures var r := Request(t, user, form, requests, amount, f);
      FillWithdrawal(RequestRow(user.value.id, amount, form), t.defaults) in r.requests
  {
    var r := Request(t, user, form, requests, amount, f);
    var row := FillWithdrawal(RequestRow(user.value.id, amount, form), t.defaults);
    assert r.tables.withdrawalRequests[|r.tables.withdrawalRequests| - 1] == row;
  }

  /** The page keeps its snapshot after a submission, and nothing is taken
      from the wallet, so a second request is checked against the same
      balance: two requests each within the balance are both accepted even
      when together they exceed it. */
  lemma RequestsCanOvercommit(t: Tables, user: Option<User>, form1: Form, form2: Form,
                              requests: seq<WithdrawalRequest>, a1: int, a2: int)
    requires user.Some? && MinimumWithdrawal <= a1 <= user.value.walletBalance
    requires MinimumWithdrawal <= a2 <= user.value.walletBalance
    ensures var s := Request(t, user, form1, requests, a1, NoFaults);
            var r := Request(s.tables, user, form2, s.requests, a2, NoFaults);
      s.outcome == Submitted && r.outcome == Submitted
      && r.tables.users == t.users
      && r.tables.withdrawalRequests
         == t.withdrawalRequests + [FillWithdrawal(RequestRow(user.value.id, a1, form1), t.defaults),
                                    FillWithdrawal(RequestRow(user.value.id, a2, form2), t.defaults)]
  {
  }

  /** The withdrawal page: its user snapshot, request list and form. */
  class WithdrawalPage {
    const db: Database
    var user: Option<User>
    var requests: seq<WithdrawalRequest>
    var form: Form

    constructor (db: Database)
      ensures this.db == db && user.None? && requests == [] && form == EmptyForm
    {
      this.db := db;
      user := None;
      requests := [];
      form := EmptyForm;
    }

    /** `fetchUserData` for the signed-in user whose profile id is `id`; on
        an error the snapshot is kept. */
    method FetchUserData(id: Id, fails: bool)
      modifies this`user
      ensures user == if !fails && id in db.users then Some(db.users[id]) else old(user)
    {
      var row := db.SelectUser(id, fails);
      if row.Some? {
        user := row;
      }
    }

    /** `fetchWithdrawalRequests`: the user's requests, or the old list when
        the lookup or the query fails. */
    method FetchWithdrawalRequests(id: Id, fails: bool)
      modifies this`requests
      ensures requests == if !fails && id in db.users then RequestsOf(db.withdrawalRequests, id) else old(requests)
      ensures !fails && id in db.users ==> forall x :: x in requests <==> x in db.withdrawalRequests && x.userId == id
    {
      var rows := db.SelectRequests(id, fails);
      if rows.Some? {
        requests := rows.value;
      }
    }

    /** `handleInputChange`. */
    method HandleInputChange(field: Field, value: string)
      modifies this`form
      ensures form == WithInput(old(form), field, value)
    {
      form := WithInput(form, field, value);
    }

    /** `handleWithdrawalRequest`, with `amount` the parsed amount text. */
    method HandleWithdrawalRequest(amount: int, f: Faults) returns (outcome: RequestOutcome)
      modifies this`form, this`requests, db
      ensures user == old(user)
      ensures var r := Request(old(db.State()), user, old(form), old(requests), amount, f);
        db.State() == r.tables && form == r.form && requests == r.requests && outcome == r.outcome
    {
      if user.None? {
        return SignedOut;
      }
      var u := user.value;
      var rejection := Validate(amount, u.walletBalance);
      if rejection.Some? {
        return Rejected(rejection.value);
      }
      var ok := db.InsertWithdrawal(RequestRow(u.id, amount, form), f.insertFails);
      if !ok {
        return SubmissionFailed;
      }
      form := EmptyForm;
      FetchWithdrawalRequests(u.id, f.refreshFails);
      return Submitted;
    }
  }
}
