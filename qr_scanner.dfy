/** The QR scanner (components/QRScanner.tsx): a one-shot "scanned" latch,
    re-armed each time the scanner becomes visible, a manual-entry path and
    a torch toggle. */
module QrScanner {

  /** `onScan` and `onClose` calls. */
  datatype Event = Scanned(data: string) | Closed

  /** The events that a scan, or an accepted manual entry, reports. */
  function ScanEvents(data: string): seq<Event>
  {
    [Scanned(data), Closed]
  }

  class Scanner {
    var visible: bool
    var scanned: bool
    var flashEnabled: bool
    ghost var events: seq<Event>

    /** Mounting runs the visibility effect once, which leaves `scanned`
        false either way. */
    constructor(visible: bool)
      ensures this.visible == visible && !scanned && !flashEnabled && events == []
    {
      this.visible := visible;
      scanned, flashEnabled := false, false;
      events := [];
    }

    /** The camera's barcode handler is attached only until the first
        scan. */
    predicate HandlerAttached()
      reads this
    {
      !scanned
    }

    /** A new `visible` prop: the effect runs when the value changes, and
        re-arms the latch when it becomes true. */
    method SetVisible(v: bool)
      modifies this
      ensures visible == v
      ensures scanned == if v && !old(visible) then false else old(scanned)
      ensures flashEnabled == old(flashEnabled) && events == old(events)
    {
      if v != visible {
        visible := v;
        if v {
          scanned := false;
        }
      }
    }

    /** The camera detects a barcode: the first one while the latch is open
        is reported once and closes the scanner; later ones are ignored. */
    method BarcodeDetected(data: string)
      modifies this
      ensures scanned
      ensures events == if old(scanned) then old(events) else old(events) + ScanEvents(data)
      ensures visible == old(visible) && flashEnabled == old(flashEnabled)
    {
      if HandlerAttached() {
        scanned := true;
        events := events + [Scanned(data)];
        events := events + [Closed];
      }
    }

    /** The OK of the manual-entry prompt: non-empty text is reported and
        closes the scanner; empty text does nothing. */
    method ManualEntry(text: string)
      modifies this
      ensures events == if text != "" then old(events) + ScanEvents(text) else old(events)
      ensures visible == old(visible) && scanned == old(scanned) && flashEnabled == old(flashEnabled)
    {
      if text != "" {
        events := events + [Scanned(text), Closed];
      }
    }

    /** The torch button flips the torch and nothing else. */
    method ToggleFlash()
      modifies this
      ensures flashEnabled == !old(flashEnabled)
      ensures visible == old(visible) && scanned == old(scanned) && events == old(events)
    {
      flashEnabled := !flashEnabled;
    }

    /** The close button. */
    method CloseButton()
      modifies this
      ensures events == old(events) + [Closed]
      ensures visible == old(visible) && scanned == old(scanned) && flashEnabled == old(flashEnabled)
    {
      events := events + [Closed];
    }
  }

  /** Two barcodes in a row while visible report only the first; hiding and
      showing the scanner again re-arms it for one more. */
  method ScanSession(s: Scanner, first: string, second: string, third: string)
    requires s.visible && !s.scanned
    modifies s
    ensures s.events == old(s.events) + ScanEvents(first) + ScanEvents(third)
  {
    s.BarcodeDetected(first);
    s.BarcodeDetected(second);
    s.SetVisible(false);
    s.SetVisible(true);
    s.BarcodeDetected(third);
  }
}
