/**
 * The wallet page: a withdrawal moves an amount from the balance to the
 * withdrawn total and prepends a pending payout transaction. Amounts are
 * reals; `parseFloat` is a parameter (None stands for NaN).
 */
module Wallet {
  import opened Wrappers
  import opened Badge

  datatype BankInfo = BankInfo(holder: string, accountNumber: string, bankName: string, ifsc: string)

  datatype WalletData = WalletData(
    balance: real, totalEarned: real, totalWithdrawn: real,
    bank: Option<BankInfo>, upi: Option<string>)

  datatype TxType = Credit | Debit

  datatype Transaction = Transaction(
    id: string, kind: TxType, amount: real, description: string,
    status: string, referenceType: Option<string>, createdAt: int)

  /** A withdrawal request is accepted for a positive amount that does not exceed the balance. */
  predicate Accepts(balance: real, amount: Option<real>) {
    amount.Some? && 0.0 < amount.value <= balance
  }

  /**
   * The wallet after a withdrawal, or None when the amount is rejected. Money
   * is moved, not created: balance plus withdrawn total is unchanged, and the
   * earned total and payout details are untouched.
   */
  function TryWithdraw(w: WalletData, amount: Option<real>): (r: Option<WalletData>)
    ensures r.Some? <==> Accepts(w.balance, amount)
    ensures r.Some? ==>
      r.value.balance == w.balance - amount.value
      && r.value.balance + r.value.totalWithdrawn == w.balance + w.totalWithdrawn
      && r.value.totalEarned == w.totalEarned && r.value.bank == w.bank && r.value.upi == w.upi
      && (w.balance >= 0.0 ==> r.value.balance >= 0.0)
  {
    if Accepts(w.balance, amount) then
      Some(w.(balance := w.balance - amount.value, totalWithdrawn := w.totalWithdrawn + amount.value))
    else None
  }

  /** Two accepted withdrawals in a row move the sum of the two amounts. */
  lemma WithdrawTwice(w: WalletData, a: real, b: real)
    requires Accepts(w.balance, Some(a)) && Accepts(w.balance - a, Some(b))
    ensures var w1 := TryWithdraw(w, Some(a)).value;
      TryWithdraw(w1, Some(b)).Some?
      && TryWithdraw(w1, Some(b)).value.balance == w.balance - (a + b)
      && TryWithdraw(w1, Some(b)).value.totalWithdrawn == w.totalWithdrawn + (a + b)
  {
  }

  /** The transaction a withdrawal records: a pending debit of the amount, referenced as a payout. */
  function PayoutTransaction(txId: string, amount: real, now: int): (t: Transaction)
    ensures t.kind == Debit && t.status == "pending" && t.amount == amount
    ensures t.referenceType == Some("payout") && t.id == txId
  {
    Transaction(txId, Debit, amount, "Withdrawal to bank account", "pending", Some("payout"), now)
  }

  /** `getStatusVariant` for transactions: coloured for completed, pending and failed only. */
  function TxStatusVariant(status: string): (v: Variant)
    ensures v != Default <==> status == "completed" || status == "pending" || status == "failed"
    ensures v == Success <==> status == "completed"
    ensures v == Warning <==> status == "pending"
    ensures v == Error <==> status == "failed"
    ensures v != Info
  {
    if status == "completed" then Success
    else if status == "pending" then Warning
    else if status == "failed" then Error
    else Default
  }

  /** What `GET /finance/wallet` answers: the wallet and, when present, its transactions. */
  datatype WalletRecord = WalletRecord(wallet: WalletData, transactions: Option<seq<Transaction>>)

  /** The wallet page's state. */
  class WalletPage {
    var wallet: Option<WalletData>
    var transactions: seq<Transaction>
    var showWithdrawModal: bool
    var withdrawAmount: string
    var loading: bool

    constructor()
      ensures wallet == None && transactions == [] && !showWithdrawModal && withdrawAmount == "" && loading
    {
      wallet := None;
      transactions := [];
      showWithdrawModal := false;
      withdrawAmount := "";
      loading := true;
    }

    /**
     * `loadWalletData`: `response` is None when the request fails, otherwise
     * the response body, which may be null.
     */
    method Load(user: Option<string>, response: Option<Option<WalletRecord>>)
      modifies this
      ensures user.None? ==> wallet == old(wallet) && transactions == old(transactions) && loading == old(loading)
      ensures user.Some? ==> !loading
      ensures user.Some? && response.Some? ==> wallet == (if response.value.Some? then Some(response.value.value.wallet) else None)
      ensures user.Some? && response.Some? && response.value.Some? && response.value.value.transactions.Some? ==>
        transactions == response.value.value.transactions.value
      ensures user.Some? && (response.None? || response.value.None? || response.value.value.transactions.None?) ==>
        transactions == old(transactions)
      ensures user.Some? && response.None? ==> wallet == old(wallet)
      ensures showWithdrawModal == old(showWithdrawModal) && withdrawAmount == old(withdrawAmount)
    {
      if user.None? {
        return;
      }
      loading := true;
      if response.Some? {
        var data := response.value;
        wallet := if data.Some? then Some(data.value.wallet) else None;
        if data.Some? && data.value.transactions.Some? {
          transactions := data.value.transactions.value;
        }
      }
      loading := false;
    }

    method OpenWithdraw()
      modifies this
      ensures showWithdrawModal && wallet == old(wallet) && transactions == old(transactions)
      ensures withdrawAmount == old(withdrawAmount)
    {
      showWithdrawModal := true;
    }

    method SetAmountText(text: string)
      modifies this
      ensures withdrawAmount == text && wallet == old(wallet) && transactions == old(transactions)
      ensures showWithdrawModal == old(showWithdrawModal)
    {
      withdrawAmount := text;
    }

    /**
     * `handleWithdraw`: `parsed` is `parseFloat(withdrawAmount)`. Nothing
     * happens without a user, a wallet or an amount, or when the amount is
     * rejected; otherwise the payout is prepended, the wallet debited, the
     * modal closed and the input cleared.
     */
    method HandleWithdraw(user: Option<string>, parsed: Option<real>, txId: string, now: int)
      modifies this
      ensures var go := user.Some? && old(wallet).Some? && old(withdrawAmount) != ""
        && Accepts(old(wallet).value.balance, parsed);
        if go then
          transactions == [PayoutTransaction(txId, parsed.value, now)] + old(transactions)
          && wallet == TryWithdraw(old(wallet).value, parsed)
          && !showWithdrawModal && withdrawAmount == ""
        else
          wallet == old(wallet) && transactions == old(transactions)
          && showWithdrawModal == old(showWithdrawModal) && withdrawAmount == old(withdrawAmount)
      ensures loading == old(loading)
    {
      if user.None? || wallet.None? || withdrawAmount == "" {
        return;
      }
      var w := wallet.value;
      if !Accepts(w.balance, parsed) {
        return;
      }
      var amount := parsed.value;
      var tx := PayoutTransaction(txId, amount, now);
      transactions := [tx] + transactions;
      wallet := Some(w.(balance := w.balance - amount, totalWithdrawn := w.totalWithdrawn + amount));
      showWithdrawModal := false;
      withdrawAmount := "";
    }
  }
}
