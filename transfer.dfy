/** The transfer modal (components/TransferModal.tsx): send and receive
    tabs, the send gate in front of the biometric prompt, recipient capture
    from a QR scan or a contact, and the reset on close. */
module Transfer {

  import opened Common

  datatype Tab = Send | Receive

  /** A quick-send contact (components/ContactsList.tsx); selecting one
      passes its address on. */
  datatype Contact = Contact(id: string, name: string, address: string)

  datatype TransferError = MissingAmountOrRecipient
  {
    function Message(): string
    {
      "Please enter amount and recipient"
    }
  }

  /** `handleSend`'s check: the biometric prompt opens only when both
      fields hold text. */
  function SendCheck(amount: string, recipient: string): (r: Option<TransferError>)
    ensures r.None? <==> amount != "" && recipient != ""
  {
    if amount != "" && recipient != "" then None else Some(MissingAmountOrRecipient)
  }

  /** `disabled={!amount || !recipient}` on the send button. */
  predicate SendDisabled(amount: string, recipient: string)
  {
    amount == "" || recipient == ""
  }

  /** The send button is disabled exactly when `handleSend` would refuse,
      so an enabled button always reaches the biometric prompt. */
  lemma SendDisabledIffRefused(amount: string, recipient: string)
    ensures SendDisabled(amount, recipient) <==> SendCheck(amount, recipient).Some?
  {
  }

  /** The contents of the "Transaction Successful" dialog. */
  datatype Receipt = Receipt(amount: string, symbol: string, recipient: string)

  /** `onClose` calls. */
  datatype Event = Closed

  class TransferModal {
    /** The `initialTab` prop: the owner keeps it in its own state and may
        change it while the modal stays mounted. */
    var initialTab: Tab
    /** `mockTokens`. */
    const tokens: seq<Token>
    var activeTab: Tab
    var selectedToken: Token
    var amount: string
    var recipient: string
    var showBiometric: bool
    var qrScannerVisible: bool
    ghost var events: seq<Event>

    ghost predicate Valid()
      reads this
    {
      selectedToken in tokens
    }

    /** Mounting: `useState(initialTab)` reads the prop only here. */
    constructor(initialTab: Tab, tokens: seq<Token>)
      requires |tokens| > 0
      ensures Valid() && this.initialTab == initialTab && this.tokens == tokens
      ensures activeTab == initialTab && selectedToken == tokens[0] && amount == "" && recipient == ""
      ensures !showBiometric && !qrScannerVisible && events == []
    {
      this.initialTab, this.tokens := initialTab, tokens;
      activeTab, selectedToken, amount, recipient := initialTab, tokens[0], "", "";
      showBiometric, qrScannerVisible := false, false;
      events := [];
    }

    /** Back to the current `initialTab` prop with empty fields and the
        first token; the biometric and scanner overlays are left as they
        are. */
    method ResetModal()
      requires Valid()
      modifies this
      ensures initialTab == old(initialTab)
      ensures Valid()
      ensures activeTab == initialTab && amount == "" && recipient == "" && selectedToken == tokens[0]
      ensures showBiometric == old(showBiometric) && qrScannerVisible == old(qrScannerVisible)
      ensures events == old(events)
    {
      activeTab := initialTab;
      amount := "";
      recipient := "";
      selectedToken := tokens[0];
    }

    /** Closing always resets before telling the owner. It is also the OK
        action of the success dialog. */
    method HandleClose()
      requires Valid()
      modifies this
      ensures initialTab == old(initialTab)
      ensures Valid()
      ensures activeTab == initialTab && amount == "" && recipient == "" && selectedToken == tokens[0]
      ensures showBiometric == old(showBiometric) && qrScannerVisible == old(qrScannerVisible)
      ensures events == old(events) + [Closed]
    {
      ResetModal();
      events := events + [Closed];
    }

    /** The send button: opens the biometric prompt, or reports the
        missing field and leaves the prompt hidden. */
    method HandleSend() returns (r: Option<TransferError>)
      requires Valid()
      modifies this
      ensures initialTab == old(initialTab)
      ensures Valid()
      ensures r == SendCheck(amount, recipient)
      ensures showBiometric == (r.None? || old(showBiometric))
      ensures activeTab == old(activeTab) && selectedToken == old(selectedToken)
      ensures amount == old(amount) && recipient == old(recipient)
      ensures qrScannerVisible == old(qrScannerVisible) && events == old(events)
    {
      if amount != "" && recipient != "" {
        showBiometric := true;
        r := None;
      } else {
        r := Some(MissingAmountOrRecipient);
      }
    }

    /** Biometric success hides the prompt and shows the receipt; its OK
        is `HandleClose`. */
    method HandleBiometricSuccess() returns (receipt: Receipt)
      requires Valid()
      modifies this
      ensures initialTab == old(initialTab)
      ensures Valid()
      ensures !showBiometric && receipt == Receipt(amount, selectedToken.symbol, recipient)
      ensures activeTab == old(activeTab) && selectedToken == old(selectedToken)
      ensures amount == old(amount) && recipient == old(recipient)
      ensures qrScannerVisible == old(qrScannerVisible) && events == old(events)
    {
      showBiometric := false;
      receipt := Receipt(amount, selectedToken.symbol, recipient);
    }

    /** Cancelling the biometric prompt hides it and clears nothing. */
    method HandleBiometricCancel()
      requires Valid()
      modifies this
      ensures initialTab == old(initialTab)
      ensures Valid() && !showBiometric
      ensures activeTab == old(activeTab) && selectedToken == old(selectedToken)
      ensures amount == old(amount) && recipient == old(recipient)
      ensures qrScannerVisible == old(qrScannerVisible) && events == old(events)
    {
      showBiometric := false;
    }

    /** A scan result becomes the recipient verbatim and the scanner hides. */
    method HandleQRScan(data: string)
      requires Valid()
      modifies this
      ensures initialTab == old(initialTab)
      ensures Valid() && recipient == data && !qrScannerVisible
      ensures activeTab == old(activeTab) && selectedToken == old(selectedToken) && amount == old(amount)
      ensures showBiometric == old(showBiometric) && events == old(events)
    {
      recipient := data;
      qrScannerVisible := false;
    }

    /** A quick-send contact becomes the recipient. */
    method SelectContact(c: Contact)
      requires Valid()
      modifies this
      ensures initialTab == old(initialTab)
      ensures Valid() && recipient == c.address
      ensures activeTab == old(activeTab) && selectedToken == old(selectedToken) && amount == old(amount)
      ensures showBiometric == old(showBiometric) && qrScannerVisible == old(qrScannerVisible)
      ensures events == old(events)
    {
      recipient := c.address;
    }

    /** The owner passes a new `initialTab` prop. Only the prop changes: the
        active tab was taken from the prop once, at mount, and follows it
        again only at the next reset. */
    method SetInitialTab(t: Tab)
      requires Valid()
      modifies this
      ensures Valid() && initialTab == t
      ensures activeTab == old(activeTab) && selectedToken == old(selectedToken)
      ensures amount == old(amount) && recipient == old(recipient)
      ensures showBiometric == old(showBiometric) && qrScannerVisible == old(qrScannerVisible)
      ensures events == old(events)
    {
      initialTab := t;
    }

    /** The send / receive tabs change only the active tab. */
    method SetTab(t: Tab)
      requires Valid()
      modifies this
      ensures initialTab == old(initialTab)
      ensures Valid() && activeTab == t
      ensures selectedToken == old(selectedToken) && amount == old(amount) && recipient == old(recipient)
      ensures showBiometric == old(showBiometric) && qrScannerVisible == old(qrScannerVisible)
      ensures events == old(events)
    {
      activeTab := t;
    }

    /** The scan button and the scanner's own close. */
    method SetScannerVisible(v: bool)
      requires Valid()
      modifies this
      ensures initialTab == old(initialTab)
      ensures Valid() && qrScannerVisible == v
      ensures activeTab == old(activeTab) && selectedToken == old(selectedToken)
      ensures amount == old(amount) && recipient == old(recipient)
      ensures showBiometric == old(showBiometric) && events == old(events)
    {
      qrScannerVisible := v;
    }

    method SetAmount(text: string)
      requires Valid()
      modifies this
      ensures initialTab == old(initialTab)
      ensures Valid() && amount == text
      ensures activeTab == old(activeTab) && selectedToken == old(selectedToken) && recipient == old(recipient)
      ensures showBiometric == old(showBiometric) && qrScannerVisible == old(qrScannerVisible)
      ensures events == old(events)
    {
      amount := text;
    }

    method SetRecipient(text: string)
      requires Valid()
      modifies this
      ensures initialTab == old(initialTab)
      ensures Valid() && recipient == text
      ensures activeTab == old(activeTab) && selectedToken == old(selectedToken) && amount == old(amount)
      ensures showBiometric == old(showBiometric) && qrScannerVisible == old(qrScannerVisible)
      ensures events == old(events)
    {
      recipient := text;
    }

    method SelectToken(t: Token)
      requires Valid() && t in tokens
      modifies this
      ensures initialTab == old(initialTab)
      ensures Valid() && selectedToken == t
      ensures activeTab == old(activeTab) && amount == old(amount) && recipient == old(recipient)
      ensures showBiometric == old(showBiometric) && qrScannerVisible == old(qrScannerVisible)
      ensures events == old(events)
    {
      selectedToken := t;
    }
  }

  /** The owner opens the modal through Receive on a modal mounted with
      Send: the modal still shows Send (the prop is not read again), and
      after a close it rests on Receive, the prop's current value. */
  method OpenOnOtherTabThenClose(m: TransferModal)
    requires m.Valid() && m.initialTab == Send && m.activeTab == Send
    modifies m
    ensures m.activeTab == Receive && m.initialTab == Receive
    ensures m.events == old(m.events) + [Closed]
  {
    m.SetInitialTab(Receive);
    assert m.activeTab == Send;
    m.HandleClose();
  }
}
