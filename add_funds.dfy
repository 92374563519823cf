/** The add-funds modal (components/AddFundsModal.tsx): amount, payment
    method and confirmation steps, each gated, with one `onAddFunds` call
    on confirmation and a reset whenever the modal closes. */
module AddFunds {

  import opened Common

  datatype Step = AmountStep | MethodStep | ConfirmStep

  datatype MethodKind = Bank | Card | Wallet | Cash

  datatype PaymentMethod = PaymentMethod(
    id: string, kind: MethodKind, name: string, details: string,
    isDefault: bool, processingTime: string, fee: real)

  /** The fixed table of payment methods and their fees. */
  const PaymentMethods: seq<PaymentMethod> := [
    PaymentMethod("1", Bank, "Emirates NBD Bank Transfer", "Current Account ****1234", true, "1-2 business days", 0.0),
    PaymentMethod("2", Card, "Visa Debit Card", "**** **** **** 5678", false, "Instant", 2.5),
    PaymentMethod("3", Wallet, "Apple Pay", "iPhone Wallet", false, "Instant", 1.5),
    PaymentMethod("4", Cash, "Cash Deposit", "At Sanafi Partner Locations", false, "Instant", 5.0)
  ]

  const MinAmount: real := 10.0
  const MaxAmount: real := 50000.0

  /** `paymentMethods.find(method => method.isDefault) || paymentMethods[0]`. */
  function DefaultMethod(): (m: PaymentMethod)
    ensures m in PaymentMethods && m.isDefault
  {
    FindOrFirst(PaymentMethods, (p: PaymentMethod) => p.isDefault)
  }

  /** The method a reset selects is the fee-free bank transfer, id '1'. */
  lemma DefaultIsFeeFreeBankTransfer()
    ensures DefaultMethod() == PaymentMethods[0]
    ensures DefaultMethod().id == "1" && DefaultMethod().fee == 0.0
  {
    var p := (m: PaymentMethod) => m.isDefault;
    assert p(PaymentMethods[0]);
    assert FirstWhere(PaymentMethods, p) == Some(0);
  }

  /** The dialogs `handleNext` can show. */
  datatype AddFundsError = InvalidAmount | BelowMinimum | AboveMaximum | NoPaymentMethod
  {
    function Message(): string
    {
      match this
      case InvalidAmount => "Please enter a valid amount"
      case BelowMinimum => "Minimum amount is AED 10"
      case AboveMaximum => "Maximum amount is AED 50,000 per transaction"
      case NoPaymentMethod => "Please select a payment method"
    }
  }

  /** The amount step's checks, in their order: empty or not positive, then
      below the minimum, then above the maximum. `v` is `parseFloat` of
      `text`; a NaN fails no comparison and so passes. */
  function AmountCheck(text: string, v: Parsed): (r: Option<AddFundsError>)
    ensures text == "" ==> r == Some(InvalidAmount)
    ensures text != "" && v.Num? ==> (r == Some(InvalidAmount) <==> v.value <= 0.0)
    ensures text != "" && v.Num? ==> (r == Some(BelowMinimum) <==> 0.0 < v.value < MinAmount)
    ensures text != "" && v.Num? ==> (r == Some(AboveMaximum) <==> v.value > MaxAmount)
    ensures text != "" && v.NaN? ==> r.None?
    ensures r != Some(NoPaymentMethod)
  {
    if text == "" || AtMost(v, 0.0) then Some(InvalidAmount)
    else if Below(v, MinAmount) then Some(BelowMinimum)
    else if Above(v, MaxAmount) then Some(AboveMaximum)
    else None
  }

  /** A number passes the amount step exactly when it lies within the
      bounds, both bounds included. */
  lemma AmountAcceptedIffWithinBounds(text: string, a: real)
    requires text != ""
    ensures AmountCheck(text, Num(a)).None? <==> MinAmount <= a <= MaxAmount
  {
  }

  /** `parseFloat(amount) + (selectedPaymentMethod?.fee || 0)`: the total
      shown on the confirmation step (NaN stays NaN). */
  function ConfirmTotal(v: Parsed, m: Option<PaymentMethod>): (t: Parsed)
    ensures v.NaN? <==> t.NaN?
  {
    match v
    case NaN => NaN
    case Num(a) => Num(a + if m.Some? then m.value.fee else 0.0)
  }

  /** Over numbers, the total is the amount plus the selected method's fee
      from the table: 0, 2.5, 1.5 and 5.0. */
  lemma ConfirmTotalAddsFee(a: real, i: nat)
    requires i < |PaymentMethods|
    ensures ConfirmTotal(Num(a), Some(PaymentMethods[i])) == Num(a + [0.0, 2.5, 1.5, 5.0][i])
  {
  }

  /** What the modal reports to its owner. */
  datatype Event = AddFundsRequested(amount: Parsed, token: string, paymentMethod: string) | Closed

  class AddFundsModal {
    const tokens: seq<Token>
    /** `parseFloat`. */
    const parse: string -> Parsed
    var selectedToken: Token
    var amount: string
    var selectedPaymentMethod: Option<PaymentMethod>
    var step: Step
    /** `onAddFunds` and `onClose` calls, in order. */
    ghost var events: seq<Event>

    /** The confirmation step is only reached with a method selected, so
        `selectedPaymentMethod!` never dereferences null. */
    ghost predicate Valid()
      reads this
    {
      && selectedToken in tokens
      && (selectedPaymentMethod.Some? ==> selectedPaymentMethod.value in PaymentMethods)
      && (step == ConfirmStep ==> selectedPaymentMethod.Some?)
    }

    /** The initial state: no payment method is selected until the first
        reset. */
    constructor(tokens: seq<Token>, parse: string -> Parsed)
      requires |tokens| > 0
      ensures Valid() && this.tokens == tokens && this.parse == parse
      ensures selectedToken == tokens[0] && amount == "" && selectedPaymentMethod.None? && step == AmountStep
      ensures events == []
    {
      this.tokens, this.parse := tokens, parse;
      selectedToken, amount, selectedPaymentMethod, step := tokens[0], "", None, AmountStep;
      events := [];
    }

    method ResetModal()
      requires Valid()
      modifies this
      ensures Valid()
      ensures step == AmountStep && amount == "" && selectedPaymentMethod == Some(DefaultMethod())
      ensures selectedToken == tokens[0] && events == old(events)
    {
      step := AmountStep;
      amount := "";
      selectedPaymentMethod := Some(DefaultMethod());
      selectedToken := tokens[0];
    }

    /** Closing always resets before telling the owner. */
    method HandleClose()
      requires Valid()
      modifies this
      ensures Valid()
      ensures step == AmountStep && amount == "" && selectedPaymentMethod == Some(DefaultMethod())
      ensures selectedToken == tokens[0] && events == old(events) + [Closed]
    {
      ResetModal();
      events := events + [Closed];
    }

    /** The continue button. */
    method HandleNext() returns (r: Option<AddFundsError>)
      requires Valid()
      modifies this
      ensures Valid()
      ensures old(step) == AmountStep ==>
                r == AmountCheck(old(amount), parse(old(amount))) && events == old(events) &&
                amount == old(amount) && selectedToken == old(selectedToken) &&
                selectedPaymentMethod == old(selectedPaymentMethod) &&
                step == if r.None? then MethodStep else AmountStep
      ensures old(step) == MethodStep ==>
                (r.None? <==> old(selectedPaymentMethod).Some?) && (r.Some? ==> r.value == NoPaymentMethod) &&
                events == old(events) && amount == old(amount) && selectedToken == old(selectedToken) &&
                selectedPaymentMethod == old(selectedPaymentMethod) &&
                step == if r.None? then ConfirmStep else MethodStep
      ensures old(step) == ConfirmStep ==>
                r.None? &&
                events == old(events) + [AddFundsRequested(parse(old(amount)), old(selectedToken).symbol,
                                                           old(selectedPaymentMethod).value.name), Closed] &&
                step == AmountStep && amount == "" && selectedPaymentMethod == Some(DefaultMethod()) &&
                selectedToken == tokens[0]
    {
      match step {
        case AmountStep =>
          r := AmountCheck(amount, parse(amount));
          if r.None? {
            step := MethodStep;
          }
        case MethodStep =>
          if selectedPaymentMethod.None? {
            r := Some(NoPaymentMethod);
          } else {
            r := None;
            step := ConfirmStep;
          }
        case ConfirmStep =>
          events := events + [AddFundsRequested(parse(amount), selectedToken.symbol, selectedPaymentMethod.value.name)];
          HandleClose();
          r := None;
      }
    }

    /** The back button: one step back, nothing on the amount step. */
    method HandlePrevious()
      requires Valid()
      modifies this
      ensures Valid()
      ensures step == match old(step)
        case AmountStep => AmountStep
        case MethodStep => AmountStep
        case ConfirmStep => MethodStep
      ensures amount == old(amount) && selectedToken == old(selectedToken)
      ensures selectedPaymentMethod == old(selectedPaymentMethod) && events == old(events)
    {
      if step == MethodStep {
        step := AmountStep;
      } else if step == ConfirmStep {
        step := MethodStep;
      }
    }

    /** The amount input and the quick-amount buttons. */
    method SetAmount(text: string)
      requires Valid()
      modifies this
      ensures Valid() && amount == text
      ensures step == old(step) && selectedToken == old(selectedToken)
      ensures selectedPaymentMethod == old(selectedPaymentMethod) && events == old(events)
    {
      amount := text;
    }

    method SelectToken(t: Token)
      requires Valid() && t in tokens
      modifies this
      ensures Valid() && selectedToken == t
      ensures step == old(step) && amount == old(amount)
      ensures selectedPaymentMethod == old(selectedPaymentMethod) && events == old(events)
    {
      selectedToken := t;
    }

    method SelectPaymentMethod(m: PaymentMethod)
      requires Valid() && m in PaymentMethods
      modifies this
      ensures Valid() && selectedPaymentMethod == Some(m)
      ensures step == old(step) && amount == old(amount)
      ensures selectedToken == old(selectedToken) && events == old(events)
    {
      selectedPaymentMethod := Some(m);
    }
  }
}
