/** The cash-out modal (components/CashOutModal.tsx): amount, bank account
    and confirmation steps; the amount is bounded by the selected token's
    balance, and confirmation calls `onCashOut` once and resets. */
module CashOut {

  import opened Common

  datatype Step = AmountStep | BankStep | ConfirmStep

  datatype AccountType = Checking | Savings

  datatype BankAccount = BankAccount(
    id: string, name: string, accountNumber: string, bankName: string,
    accountType: AccountType, isDefault: bool)

  /** The fixed list of linked bank accounts. */
  const BankAccounts: seq<BankAccount> := [
    BankAccount("1", "Emirates NBD Current Account", "****1234", "Emirates NBD", Checking, true),
    BankAccount("2", "ADCB Savings Account", "****5678", "Abu Dhabi Commercial Bank", Savings, false),
    BankAccount("3", "FAB Business Account", "****9012", "First Abu Dhabi Bank", Checking, false)
  ]

  /** `bankAccounts.find(acc => acc.isDefault) || bankAccounts[0]`. */
  function DefaultAccount(): (a: BankAccount)
    ensures a in BankAccounts && a.isDefault
  {
    FindOrFirst(BankAccounts, (b: BankAccount) => b.isDefault)
  }

  /** The account a reset selects is the one with id '1'. */
  lemma DefaultIsFirstAccount()
    ensures DefaultAccount() == BankAccounts[0] && DefaultAccount().id == "1"
  {
    var p := (b: BankAccount) => b.isDefault;
    assert p(BankAccounts[0]);
    assert FirstWhere(BankAccounts, p) == Some(0);
  }

  /** The dialogs `handleNext` can show. */
  datatype CashOutError = InvalidAmount | InsufficientBalance | NoBankAccount
  {
    function Message(): string
    {
      match this
      case InvalidAmount => "Please enter a valid amount"
      case InsufficientBalance => "Insufficient balance"
      case NoBankAccount => "Please select a bank account"
    }
  }

  /** The amount step's checks, in their order: empty or not positive, then
      more than the balance. `v` is `parseFloat` of `text`; a NaN fails no
      comparison and so passes. */
  function AmountCheck(text: string, v: Parsed, balance: real): (r: Option<CashOutError>)
    ensures text == "" ==> r == Some(InvalidAmount)
    ensures text != "" && v.Num? ==> (r == Some(InvalidAmount) <==> v.value <= 0.0)
    ensures text != "" && v.Num? ==> (r == Some(InsufficientBalance) <==> 0.0 < v.value && v.value > balance)
    ensures text != "" && v.Num? ==> (r.None? <==> 0.0 < v.value <= balance)
    ensures text != "" && v.NaN? ==> r.None?
    ensures r != Some(NoBankAccount)
  {
    if text == "" || AtMost(v, 0.0) then Some(InvalidAmount)
    else if Above(v, balance) then Some(InsufficientBalance)
    else None
  }

  /** The MAX button puts the balance's text in the amount field. When the
      balance is positive and its text reads back as the same number, that
      text passes the amount step: the balance bound is inclusive. */
  lemma MaxAmountPasses(balance: real, text: string, parse: string -> Parsed)
    requires balance > 0.0
    requires text != "" && parse(text) == Num(balance)
    ensures AmountCheck(text, parse(text), balance).None?
  {
  }

  /** Raising the balance never turns an accepted amount into a rejected
      one. */
  lemma AmountCheckMonotoneInBalance(text: string, v: Parsed, b1: real, b2: real)
    requires b1 <= b2
    requires AmountCheck(text, v, b1).None?
    ensures AmountCheck(text, v, b2).None?
  {
  }

  /** What the modal reports to its owner. */
  datatype Event = CashOutRequested(amount: Parsed, token: string, bankAccount: string) | Closed

  class CashOutModal {
    const tokens: seq<Token>
    /** `parseFloat`. */
    const parse: string -> Parsed
    /** `Number.prototype.toString`. */
    const show: real -> string
    var selectedToken: Token
    var amount: string
    var selectedBankAccount: Option<BankAccount>
    var step: Step
    /** `onCashOut` and `onClose` calls, in order. */
    ghost var events: seq<Event>

    /** The confirmation step is only reached with an account selected, so
        `selectedBankAccount!` never dereferences null. */
    ghost predicate Valid()
      reads this
    {
      && selectedToken in tokens
      && (selectedBankAccount.Some? ==> selectedBankAccount.value in BankAccounts)
      && (step == ConfirmStep ==> selectedBankAccount.Some?)
    }

    /** The initial state: no account is selected until the first reset. */
    constructor(tokens: seq<Token>, parse: string -> Parsed, show: real -> string)
      requires |tokens| > 0
      ensures Valid() && this.tokens == tokens && this.parse == parse && this.show == show
      ensures selectedToken == tokens[0] && amount == "" && selectedBankAccount.None? && step == AmountStep
      ensures events == []
    {
      this.tokens, this.parse, this.show := tokens, parse, show;
      selectedToken, amount, selectedBankAccount, step := tokens[0], "", None, AmountStep;
      events := [];
    }

    method ResetModal()
      requires Valid()
      modifies this
      ensures Valid()
      ensures step == AmountStep && amount == "" && selectedBankAccount == Some(DefaultAccount())
      ensures selectedToken == tokens[0] && events == old(events)
    {
      step := AmountStep;
      amount := "";
      selectedBankAccount := Some(DefaultAccount());
      selectedToken := tokens[0];
    }

    /** Closing always resets before telling the owner. */
    method HandleClose()
      requires Valid()
      modifies this
      ensures Valid()
      ensures step == AmountStep && amount == "" && selectedBankAccount == Some(DefaultAccount())
      ensures selectedToken == tokens[0] && events == old(events) + [Closed]
    {
      ResetModal();
      events := events + [Closed];
    }

    /** The continue button. */
    method HandleNext() returns (r: Option<CashOutError>)
      requires Valid()
      modifies this
      ensures Valid()
      ensures old(step) == AmountStep ==>
                r == AmountCheck(old(amount), parse(old(amount)), old(selectedToken).balance) &&
                events == old(events) && amount == old(amount) && selectedToken == old(selectedToken) &&
                selectedBankAccount == old(selectedBankAccount) &&
                step == if r.None? then BankStep else AmountStep
      ensures old(step) == BankStep ==>
                (r.None? <==> old(selectedBankAccount).Some?) && (r.Some? ==> r.value == NoBankAccount) &&
                events == old(events) && amount == old(amount) && selectedToken == old(selectedToken) &&
                selectedBankAccount == old(selectedBankAccount) &&
                step == if r.None? then ConfirmStep else BankStep
      ensures old(step) == ConfirmStep ==>
                r.None? &&
                events == old(events) + [CashOutRequested(parse(old(amount)), old(selectedToken).symbol,
                                                          old(selectedBankAccount).value.name), Closed] &&
                step == AmountStep && amount == "" && selectedBankAccount == Some(DefaultAccount()) &&
                selectedToken == tokens[0]
    {
      match step {
        case AmountStep =>
          r := AmountCheck(amount, parse(amount), selectedToken.balance);
          if r.None? {
            step := BankStep;
          }
        case BankStep =>
          if selectedBankAccount.None? {
            r := Some(NoBankAccount);
          } else {
            r := None;
            step := ConfirmStep;
          }
        case ConfirmStep =>
          events := events + [CashOutRequested(parse(amount), selectedToken.symbol, selectedBankAccount.value.name)];
          HandleClose();
          r := None;
      }
    }

    /** The back button: one step back, nothing on the amount step. */
    method HandlePrevious()
      requires Valid()
      modifies this
      ensures Valid()
      ensures step == match old(step)
        case AmountStep => AmountStep
        case BankStep => AmountStep
        case ConfirmStep => BankStep
      ensures amount == old(amount) && selectedToken == old(selectedToken)
      ensures selectedBankAccount == old(selectedBankAccount) && events == old(events)
    {
      if step == BankStep {
        step := AmountStep;
      } else if step == ConfirmStep {
        step := BankStep;
      }
    }

    /** The MAX button: the amount becomes the selected token's balance. */
    method SetMaxAmount()
      requires Valid()
      modifies this
      ensures Valid() && amount == show(selectedToken.balance)
      ensures step == old(step) && selectedToken == old(selectedToken)
      ensures selectedBankAccount == old(selectedBankAccount) && events == old(events)
    {
      amount := show(selectedToken.balance);
    }

    /** The amount input. */
    method SetAmount(text: string)
      requires Valid()
      modifies this
      ensures Valid() && amount == text
      ensures step == old(step) && selectedToken == old(selectedToken)
      ensures selectedBankAccount == old(selectedBankAccount) && events == old(events)
    {
      amount := text;
    }

    method SelectToken(t: Token)
      requires Valid() && t in tokens
      modifies this
      ensures Valid() && selectedToken == t
      ensures step == old(step) && amount == old(amount)
      ensures selectedBankAccount == old(selectedBankAccount) && events == old(events)
    {
      selectedToken := t;
    }

    method SelectBankAccount(a: BankAccount)
      requires Valid() && a in BankAccounts
      modifies this
      ensures Valid() && selectedBankAccount == Some(a)
      ensures step == old(step) && amount == old(amount)
      ensures selectedToken == old(selectedToken) && events == old(events)
    {
      selectedBankAccount := Some(a);
    }
  }

  /** MAX followed by continue on the amount step moves to the bank step,
      whenever the balance is positive and its text reads back as itself. */
  method MaxThenNext(m: CashOutModal) returns (r: Option<CashOutError>)
    requires m.Valid() && m.step == AmountStep && m.selectedToken.balance > 0.0
    requires m.show(m.selectedToken.balance) != ""
    requires m.parse(m.show(m.selectedToken.balance)) == Num(m.selectedToken.balance)
    modifies m
    ensures r.None? && m.step == BankStep
  {
    m.SetMaxAmount();
    MaxAmountPasses(m.selectedToken.balance, m.amount, m.parse);
    r := m.HandleNext();
  }
}
