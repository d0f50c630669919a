/**
 * The wallet ledger (wallets.service.ts): one wallet per user, one site
 * wallet per admin, and an append-only transaction log.
 */
module Wallets {
  import opened Common
  import Users

  /** A wallet row (wallets.entity.ts); `escrow` defaults to 0. */
  datatype Wallet = Wallet(
    balance: real,
    availableBalance: real,
    pendingBalance: real,
    escrow: real,
    currency: string)

  /** transactions.entity.ts:12-16. */
  datatype TransactionType = Deposit | Withdrawal | Refund

  /** A transaction row; its id is its position in the log. */
  datatype Transaction = Transaction(
    userId: int,
    amount: real,
    currency: string,
    txType: TransactionType,
    status: string)

  const CommissionRate: real := 0.1

  /** The exchange rate the currency service fetches for a pair of currencies. */
  type RateTable = (string, string) -> real

  /** convertCurrency: the amount itself for equal currencies, else amount times the rate. */
  function Convert(rate: RateTable, amount: real, from: string, to: string): real
  {
    if from == to then amount else amount * rate(from, to)
  }

  function EmptyWallet(currency: string): Wallet
  {
    Wallet(0.0, 0.0, 0.0, 0.0, currency)
  }

  /** The books agree: the total equals what is withdrawable plus what is pending. */
  predicate BalanceIdentity(w: Wallet)
  {
    w.balance == w.availableBalance + w.pendingBalance
  }

  predicate NonNegative(w: Wallet)
  {
    w.balance >= 0.0 && w.availableBalance >= 0.0 && w.pendingBalance >= 0.0 && w.escrow >= 0.0
  }

  /** What a refund credits for a withdrawal of `amount` (a non-positive number): 90% of it. */
  function RefundCredit(amount: real): real
  {
    var magnitude := if amount < 0.0 then -amount else amount;
    magnitude - magnitude * CommissionRate
  }

  /** One wallet call on a wallet in the call's currency (amounts already converted). */
  datatype WalletOp =
    | AddOp(amount: real)          // addFunds
    | DeductOp(amount: real)       // deductFunds and transferToFreelancer
    | HoldOp(amount: real)         // holdFundsInEscrow
    | ReleaseOp(amount: real)      // releaseEscrowFunds
    | RefundOp(withdrawn: real)    // refundTransaction of a logged amount

  /**
   * The wallet after one call, or `None` when the call's guard refuses it and
   * nothing is written. addFunds recomputes the balance from the two
   * sub-balances (wallets.service.ts:101-103); deductFunds lowers the balance
   * only (143-146); hold and release move money between balance and escrow
   * (220-228, 242-247); a refund credits 90% of a withdrawal (262-268).
   */
  function Apply(w: Wallet, op: WalletOp): (r: Option<Wallet>)
    ensures op.AddOp? ==> r.Some? && BalanceIdentity(r.value)
    ensures op.AddOp? ==>
      r.value.availableBalance == w.availableBalance + op.amount * 0.8
      && r.value.pendingBalance == w.pendingBalance + op.amount * 0.2 && r.value.escrow == w.escrow
    ensures op.DeductOp? && r.Some? ==>
      r.value.balance == w.balance - op.amount && r.value.availableBalance == w.availableBalance
      && r.value.pendingBalance == w.pendingBalance && r.value.escrow == w.escrow
    ensures (op.DeductOp? || op.HoldOp?) ==> (r.None? <==> w.balance < op.amount)
    ensures EscrowMove(op) && r.Some? ==> r.value.balance + r.value.escrow == w.balance + w.escrow
    ensures r.Some? ==> r.value.currency == w.currency
  {
    match op
    case AddOp(a) =>
      var available := w.availableBalance + a * 0.8;
      var pending := w.pendingBalance + a * 0.2;
      Some(w.(availableBalance := available, pendingBalance := pending, balance := available + pending))
    case DeductOp(a) =>
      if w.balance < a then None else Some(w.(balance := w.balance - a))
    case HoldOp(a) =>
      if w.balance < a then None else Some(w.(balance := w.balance - a, escrow := w.escrow + a))
    case ReleaseOp(a) =>
      if w.escrow == 0.0 || w.escrow < a then None else Some(w.(escrow := w.escrow - a, balance := w.balance + a))
    case RefundOp(x) =>
      if x > 0.0 then None else Some(w.(balance := w.balance + RefundCredit(x)))
  }

  /** A failed call changes nothing. */
  function Step(w: Wallet, op: WalletOp): Wallet
  {
    match Apply(w, op)
    case Some(v) => v
    case None => w
  }

  /** The wallet after a sequence of calls, each made after the previous one finished. */
  function Run(w: Wallet, ops: seq<WalletOp>): Wallet
    decreases |ops|
  {
    if |ops| == 0 then w else Run(Step(w, ops[0]), ops[1..])
  }

  predicate NonNegativeAmounts(ops: seq<WalletOp>)
  {
    forall i :: 0 <= i < |ops| ==>
      match ops[i]
      case AddOp(a) => a >= 0.0
      case DeductOp(a) => a >= 0.0
      case HoldOp(a) => a >= 0.0
      case ReleaseOp(a) => a >= 0.0
      case RefundOp(_) => true
  }

  predicate EscrowMove(op: WalletOp)
  {
    op.HoldOp? || op.ReleaseOp?
  }

  /** With non-negative amounts, no sequence of calls drives any part of a wallet below 0. */
  lemma {:induction false} RunKeepsNonNegative(w: Wallet, ops: seq<WalletOp>)
    requires NonNegative(w)
    requires NonNegativeAmounts(ops)
    ensures NonNegative(Run(w, ops))
    decreases |ops|
  {
    if |ops| > 0 {
      assert NonNegative(Step(w, ops[0])) by {
        assert ops[0] == ops[0];
        match ops[0]
        case AddOp(a) => assert a >= 0.0;
        case DeductOp(a) => assert a >= 0.0;
        case HoldOp(a) => assert a >= 0.0;
        case ReleaseOp(a) => assert a >= 0.0;
        case RefundOp(x) => assert RefundCredit(x) >= 0.0;
      }
      assert NonNegativeAmounts(ops[1..]) by {
        forall i | 0 <= i < |ops| - 1 ensures ops[1..][i] == ops[i + 1] { }
      }
      RunKeepsNonNegative(Step(w, ops[0]), ops[1..]);
    }
  }

  /** Holding and releasing escrow only moves money: balance + escrow never changes. */
  lemma {:induction false} EscrowMovesConserveTotal(w: Wallet, ops: seq<WalletOp>)
    requires forall i :: 0 <= i < |ops| ==> EscrowMove(ops[i])
    ensures Run(w, ops).balance + Run(w, ops).escrow == w.balance + w.escrow
    ensures Run(w, ops).availableBalance == w.availableBalance
    ensures Run(w, ops).pendingBalance == w.pendingBalance
    decreases |ops|
  {
    if |ops| > 0 {
      assert EscrowMove(ops[0]);
      EscrowMovesConserveTotal(Step(w, ops[0]), ops[1..]);
    }
  }

  /**
   * The escrow a hold saves as written (wallets.service.ts:228): the decimal
   * column is read back as its text, which is never empty and so is kept by
   * `|| 0`, and `+` then appends the digits of the amount. The column is
   * decimal(10,0), so a stored escrow is a whole number; a whole amount is
   * taken here.
   */
  function HeldEscrowAsWritten(stored: nat, amount: nat): (r: nat)
    ensures r == stored * Pow10(|DecimalString(amount)|) + amount
  {
    ConcatenatedValue(stored, amount);
    DecimalValue(DecimalString(stored) + DecimalString(amount))
  }

  /** The number the two decimal texts written one after the other read as. */
  lemma ConcatenatedValue(stored: nat, amount: nat)
    ensures DecimalValue(DecimalString(stored) + DecimalString(amount)) == stored * Pow10(|DecimalString(amount)|) + amount
    ensures stored * Pow10(|DecimalString(amount)|) + amount >= 0
  {
    var a, b := DecimalString(stored), DecimalString(amount);
    DecimalValueConcat(a, b);
    DecimalRoundTrip(stored);
    DecimalRoundTrip(amount);
    var p := Pow10(|b|);
    assert DecimalValue(a + b) == DecimalValue(a) * p + DecimalValue(b);
    assert DecimalValue(a) == stored && DecimalValue(b) == amount;
    assert DecimalValue(a) * p == stored * p;
    ShiftedIsNatural(stored, |b|);
  }

  /** As written, a hold onto a non-zero escrow stores more than the sum: 100 held plus 30 becomes 10030. */
  lemma HeldEscrowAsWrittenOvercounts(stored: nat, amount: nat)
    requires stored > 0
    ensures HeldEscrowAsWritten(stored, amount) > stored + amount
    ensures HeldEscrowAsWritten(100, 30) == 10030
  {
    var n := |DecimalString(amount)|;
    assert Pow10(n) >= 10;
    assert stored * Pow10(n) >= stored * 10;
    assert DecimalString(30) == DecimalString(3) + [Digit(0)];
    assert |DecimalString(30)| == 2;
    assert Pow10(2) == 100;
  }

  lemma {:induction false} RunSnoc(w: Wallet, ops: seq<WalletOp>, op: WalletOp)
    ensures Run(w, ops + [op]) == Step(Run(w, ops), op)
    decreases |ops|
  {
    if |ops| == 0 {
      assert [op][1..] == [];
    } else {
      assert (ops + [op])[1..] == ops[1..] + [op];
      RunSnoc(Step(w, ops[0]), ops[1..], op);
    }
  }

  /**
   * Whatever happened before, a deposit leaves balance == available + pending,
   * and the new balance ignores every earlier deduction: it is the sum of the
   * two sub-balances plus the deposit.
   */
  lemma DepositResetsBalance(w: Wallet, ops: seq<WalletOp>, a: real)
    ensures BalanceIdentity(Run(w, ops + [AddOp(a)]))
    ensures Run(w, ops + [AddOp(a)]).balance
         == Run(w, ops).availableBalance + Run(w, ops).pendingBalance + a
  {
    RunSnoc(w, ops, AddOp(a));
  }

  /** A deduction lowers the balance alone, so it breaks the identity that a deposit keeps. */
  lemma DeductionBreaksIdentity(w: Wallet, a: real)
    requires BalanceIdentity(w) && a > 0.0 && w.balance >= a
    ensures Apply(w, DeductOp(a)).Some?
    ensures var v := Apply(w, DeductOp(a)).value;
      v.balance == w.balance - a && v.availableBalance == w.availableBalance
      && v.pendingBalance == w.pendingBalance && v.escrow == w.escrow
    ensures !BalanceIdentity(Apply(w, DeductOp(a)).value)
  {
  }

  function Repeat(op: WalletOp, n: nat): (r: seq<WalletOp>)
    ensures |r| == n
    ensures forall i :: 0 <= i < n ==> r[i] == op
  {
    if n == 0 then [] else [op] + Repeat(op, n - 1)
  }

  /**
   * Nothing records that a withdrawal was refunded: refunding the same
   * withdrawal n times credits 90% of it n times.
   */
  lemma {:induction false} RefundRepeats(w: Wallet, x: real, n: nat)
    requires x <= 0.0
    ensures Run(w, Repeat(RefundOp(x), n)).balance == w.balance + (n as real) * RefundCredit(x)
    ensures Run(w, Repeat(RefundOp(x), n)).escrow == w.escrow
    decreases n
  {
    if n > 0 {
      var ops := Repeat(RefundOp(x), n);
      assert ops[1..] == Repeat(RefundOp(x), n - 1);
      RefundRepeats(Step(w, RefundOp(x)), x, n - 1);
    }
  }

  /**
   * getTransactions: the ids of the user's transactions, newest first
   * (`createdAt DESC`; the log is in creation order).
   */
  function TransactionIdsOf(log: seq<Transaction>, userId: int): (r: seq<nat>)
    ensures forall i :: 0 <= i < |r| ==> r[i] < |log| && log[r[i]].userId == userId
    ensures forall k :: 0 <= k < |log| && log[k].userId == userId ==> k in r
    ensures forall i, j :: 0 <= i < j < |r| ==> r[i] > r[j]
    decreases |log|
  {
    if |log| == 0 then []
    else
      var rest := TransactionIdsOf(log[..|log| - 1], userId);
      if log[|log| - 1].userId == userId then [|log| - 1] + rest else rest
  }

  /** The transactions at the given log positions, in the order given. */
  function TransactionsAt(log: seq<Transaction>, ids: seq<nat>): (r: seq<Transaction>)
    requires forall i :: 0 <= i < |ids| ==> ids[i] < |log|
    ensures |r| == |ids|
    ensures forall i :: 0 <= i < |ids| ==> r[i] == log[ids[i]]
  {
    if |ids| == 0 then [] else [log[ids[0]]] + TransactionsAt(log, ids[1..])
  }

  class WalletService {
    const users: Users.UsersService
    var wallets: map<int, Wallet>       // by user id: the wallet column is one-to-one
    var siteWallets: map<int, Wallet>   // by admin id
    var log: seq<Transaction>

    constructor(users: Users.UsersService)
      ensures this.users == users
      ensures wallets == map[] && siteWallets == map[] && log == []
    {
      this.users := users;
      wallets := map[];
      siteWallets := map[];
      log := [];
    }

    /**
     * getWallet (wallets.service.ts:60-77). The user lookup raises NotFound
     * itself, so the BadRequest('User not found') branch never runs.
     */
    function GetWallet(userId: int): (r: Result<Wallet>)
      reads this, users
      ensures r.Ok? <==> users.Find(userId).Some? && userId in wallets
      ensures r.Ok? ==> r.value == wallets[userId]
      ensures users.Find(userId).None? ==> r == Err(NotFound("User not found"))
      ensures users.Find(userId).Some? && userId !in wallets ==> r == Err(BadRequest("Wallet not found"))
    {
      if users.Find(userId).None? then Err(NotFound("User not found"))
      else if userId !in wallets then Err(BadRequest("Wallet not found"))
      else Ok(wallets[userId])
    }

    /** The wallet of a user held in a given currency (`findOne({ user, currency })`). */
    function WalletIn(userId: int, currency: string): (r: Option<Wallet>)
      reads this
      ensures r.Some? <==> userId in wallets && wallets[userId].currency == currency
      ensures r.Some? ==> r.value == wallets[userId]
    {
      if userId in wallets && wallets[userId].currency == currency then Some(wallets[userId]) else None
    }

    /** createWallet (wallets.service.ts:27-57): every sub-balance starts at 0. */
    method CreateWallet(userId: int, currency: string) returns (r: Result<Wallet>)
      modifies this
      ensures users.Find(userId).None? ==> r == Err(NotFound("User not found")) && unchanged(this)
      ensures users.Find(userId).Some? && userId in old(wallets) ==>
        r == Err(BadRequest("User already has a wallet")) && unchanged(this)
      ensures users.Find(userId).Some? && userId !in old(wallets) ==>
        wallets == old(wallets)[userId := EmptyWallet(currency)]
        && siteWallets == old(siteWallets) && log == old(log)
        && r == Ok(EmptyWallet(currency))
    {
      if users.Find(userId).None? {
        return Err(NotFound("User not found"));
      }
      if userId in wallets {
        return Err(BadRequest("User already has a wallet"));
      }
      wallets := wallets[userId := EmptyWallet(currency)];
      r := Ok(EmptyWallet(currency));
    }

    /** recordTransaction (wallets.service.ts:305-322): one completed entry at the end of the log. */
    method RecordTransaction(userId: int, amount: real, currency: string, txType: TransactionType)
      modifies this
      ensures log == old(log) + [Transaction(userId, amount, currency, txType, "completed")]
      ensures wallets == old(wallets) && siteWallets == old(siteWallets)
    {
      log := log + [Transaction(userId, amount, currency, txType, "completed")];
    }

    /**
     * addFunds (wallets.service.ts:80-124): the converted amount is split
     * 80/20 and logged in full as a DEPOSIT.
     */
    method AddFunds(userId: int, amount: real, currency: string, rate: RateTable) returns (r: Result<Wallet>)
      modifies this
      ensures old(GetWallet(userId)).Err? ==> r == Err(old(GetWallet(userId)).error) && unchanged(this)
      ensures old(GetWallet(userId)).Ok? ==>
        var w := old(wallets[userId]);
        var a := Convert(rate, amount, currency, w.currency);
        wallets == old(wallets)[userId := Step(w, AddOp(a))]
        && log == old(log) + [Transaction(userId, a, w.currency, Deposit, "completed")]
        && siteWallets == old(siteWallets)
        && r == Ok(wallets[userId])
    {
      var found := GetWallet(userId);
      if found.Err? {
        return Err(found.error);
      }
      var w := found.value;
      var a := Convert(rate, amount, currency, w.currency);
      wallets := wallets[userId := Step(w, AddOp(a))];
      RecordTransaction(userId, a, w.currency, Deposit);
      r := Ok(wallets[userId]);
    }

    /**
     * deductFunds (wallets.service.ts:127-166): refused with nothing written
     * when the balance is below the converted amount; otherwise only the
     * balance drops and a WITHDRAWAL of minus the amount is logged.
     */
    method DeductFunds(userId: int, amount: real, currency: string, rate: RateTable) returns (r: Result<Wallet>)
      modifies this
      ensures old(GetWallet(userId)).Err? ==> r == Err(old(GetWallet(userId)).error) && unchanged(this)
      ensures old(GetWallet(userId)).Ok? ==>
        var w := old(wallets[userId]);
        var a := Convert(rate, amount, currency, w.currency);
        if Apply(w, DeductOp(a)).None? then
          r == Err(BadRequest("Insufficient funds")) && unchanged(this)
        else
          wallets == old(wallets)[userId := Apply(w, DeductOp(a)).value]
          && log == old(log) + [Transaction(userId, -a, w.currency, Withdrawal, "completed")]
          && siteWallets == old(siteWallets)
          && r == Ok(wallets[userId])
    {
      var found := GetWallet(userId);
      if found.Err? {
        return Err(found.error);
      }
      var w := found.value;
      var a := Convert(rate, amount, currency, w.currency);
      if w.balance < a {
        return Err(BadRequest("Insufficient funds"));
      }
      wallets := wallets[userId := w.(balance := w.balance - a)];
      RecordTransaction(userId, -a, w.currency, Withdrawal);
      r := Ok(wallets[userId]);
    }

    /**
     * transferToFreelancer (wallets.service.ts:169-184): exactly deductFunds
     * on the named user; the 10% commission only changes the notified figure.
     */
    method TransferToFreelancer(userId: int, amount: real, currency: string, rate: RateTable) returns (r: Result<Wallet>)
      modifies this
      ensures old(GetWallet(userId)).Err? ==> r == Err(old(GetWallet(userId)).error) && unchanged(this)
      ensures old(GetWallet(userId)).Ok? ==>
        var w := old(wallets[userId]);
        var a := Convert(rate, amount, currency, w.currency);
        if Apply(w, DeductOp(a)).None? then
          r == Err(BadRequest("Insufficient funds")) && unchanged(this)
        else
          wallets == old(wallets)[userId := Apply(w, DeductOp(a)).value]
          && log == old(log) + [Transaction(userId, -a, w.currency, Withdrawal, "completed")]
          && siteWallets == old(siteWallets)
          && r == Ok(wallets[userId])
    {
      r := DeductFunds(userId, amount, currency, rate);
    }

    /**
     * transferToSiteAccount (wallets.service.ts:187-201): the admin's wallet
     * in that currency gains the whole amount; nothing is split or logged.
     */
    method TransferToSiteAccount(adminId: int, amount: real, currency: string) returns (r: Result<Wallet>)
      modifies this
      ensures !(adminId in old(siteWallets) && old(siteWallets[adminId]).currency == currency) ==>
        r == Err(Failure("Site wallet not found")) && unchanged(this)
      ensures adminId in old(siteWallets) && old(siteWallets[adminId]).currency == currency ==>
        siteWallets == old(siteWallets)[adminId := old(siteWallets[adminId]).(balance := old(siteWallets[adminId]).balance + amount)]
        && wallets == old(wallets) && log == old(log)
        && r == Ok(siteWallets[adminId])
    {
      if !(adminId in siteWallets && siteWallets[adminId].currency == currency) {
        return Err(Failure("Site wallet not found"));
      }
      var w := siteWallets[adminId];
      siteWallets := siteWallets[adminId := w.(balance := w.balance + amount)];
      r := Ok(siteWallets[adminId]);
    }

    /**
     * holdFundsInEscrow (wallets.service.ts:207-231): the wallet must be in
     * the given currency and hold at least the amount; nothing is logged.
     */
    method HoldFundsInEscrow(userId: int, amount: real, currency: string) returns (r: Result<()>)
      modifies this
      ensures old(WalletIn(userId, currency)).None? ==>
        r == Err(Failure("Wallet not found for freelancer")) && unchanged(this)
      ensures old(WalletIn(userId, currency)).Some? ==>
        var w := old(wallets[userId]);
        if Apply(w, HoldOp(amount)).None? then
          r == Err(Failure("Insufficient funds to hold in escrow")) && unchanged(this)
        else
          wallets == old(wallets)[userId := Apply(w, HoldOp(amount)).value]
          && siteWallets == old(siteWallets) && log == old(log) && r == Ok(())
    {
      var found := WalletIn(userId, currency);
      if found.None? {
        return Err(Failure("Wallet not found for freelancer"));
      }
      var w := found.value;
      if w.balance < amount {
        return Err(Failure("Insufficient funds to hold in escrow"));
      }
      wallets := wallets[userId := w.(balance := w.balance - amount, escrow := w.escrow + amount)];
      r := Ok(());
    }

    /**
     * releaseEscrowFunds (wallets.service.ts:234-249): refused when the
     * wallet is missing, its escrow is 0 or below the amount.
     */
    method ReleaseEscrowFunds(userId: int, amount: real, currency: string) returns (r: Result<()>)
      modifies this
      ensures (old(WalletIn(userId, currency)).None? || Apply(old(wallets[userId]), ReleaseOp(amount)).None?) ==>
        r == Err(Failure("Insufficient escrow funds to release")) && unchanged(this)
      ensures old(WalletIn(userId, currency)).Some? && Apply(old(wallets[userId]), ReleaseOp(amount)).Some? ==>
        wallets == old(wallets)[userId := Apply(old(wallets[userId]), ReleaseOp(amount)).value]
        && siteWallets == old(siteWallets) && log == old(log) && r == Ok(())
    {
      var found := WalletIn(userId, currency);
      if found.None? || found.value.escrow == 0.0 || found.value.escrow < amount {
        return Err(Failure("Insufficient escrow funds to release"));
      }
      var w := found.value;
      wallets := wallets[userId := w.(escrow := w.escrow - amount, balance := w.balance + amount)];
      r := Ok(());
    }

    /**
     * refundTransaction (wallets.service.ts:252-288): the transaction must be
     * the user's and not positive; 90% of its magnitude is credited and
     * logged as a REFUND.
     */
    method RefundTransaction(userId: int, transactionId: int) returns (r: Result<Wallet>)
      modifies this
      ensures old(GetWallet(userId)).Err? ==> r == Err(old(GetWallet(userId)).error) && unchanged(this)
      ensures old(GetWallet(userId)).Ok? && !(0 <= transactionId < old(|log|) && old(log[transactionId]).userId == userId) ==>
        r == Err(NotFound("Transaction not found")) && unchanged(this)
      ensures old(GetWallet(userId)).Ok? && 0 <= transactionId < old(|log|) && old(log[transactionId]).userId == userId ==>
        var w := old(wallets[userId]);
        var x := old(log[transactionId]).amount;
        if x > 0.0 then
          r == Err(BadRequest("Cannot refund a deposit")) && unchanged(this)
        else
          wallets == old(wallets)[userId := Apply(w, RefundOp(x)).value]
          && log == old(log) + [Transaction(userId, RefundCredit(x), w.currency, Refund, "completed")]
          && siteWallets == old(siteWallets)
          && r == Ok(wallets[userId])
    {
      var found := GetWallet(userId);
      if found.Err? {
        return Err(found.error);
      }
      if !(0 <= transactionId < |log| && log[transactionId].userId == userId) {
        return Err(NotFound("Transaction not found"));
      }
      var x := log[transactionId].amount;
      if x > 0.0 {
        return Err(BadRequest("Cannot refund a deposit"));
      }
      var w := found.value;
      var credit := RefundCredit(x);
      wallets := wallets[userId := w.(balance := w.balance + credit)];
      RecordTransaction(userId, credit, w.currency, Refund);
      r := Ok(wallets[userId]);
    }

    /** getTransactions (wallets.service.ts:291-302): the user's transactions, newest first. */
    function GetTransactions(userId: int): (r: seq<Transaction>)
      reads this
      ensures |r| == |TransactionIdsOf(log, userId)|
      ensures forall i :: 0 <= i < |r| ==> r[i] == log[TransactionIdsOf(log, userId)[i]] && r[i].userId == userId
    {
      TransactionsAt(log, TransactionIdsOf(log, userId))
    }
  }
}
