/**
  Text extraction from an uploaded PDF (`getPdfText`). The PDF reader calls
  back once per event: an error, the end of the file, or an item that may
  carry text. The promise collects each item's text followed by a space,
  resolves with what it has at the end of the file and rejects on an error;
  only the first settlement counts, later callbacks change nothing visible.
 */
module PdfText {
  import opened JsValues

  /** One call of the reader's callback: `(err, item)`. */
  datatype ReaderEvent =
    | Item(text: Option<string>)   // `item` present; `item.text` may be missing
    | EndOfFile                    // `item` is null
    | ReadError(error: Thrown)     // `err` is set

  datatype Settlement = Pending | Resolved(text: string) | Rejected(reason: Thrown)

  /** What one event adds to the collected text: `item.text + ' '` when the text is truthy. */
  function Contribution(e: ReaderEvent): string
  {
    if e.Item? && Truthy(e.text) then e.text.value + " " else ""
  }

  /** The collected text after the callbacks `es`, in the order the reader makes them. */
  function Accumulated(es: seq<ReaderEvent>): string
  {
    if |es| == 0 then "" else Accumulated(es[..|es| - 1]) + Contribution(es[|es| - 1])
  }

  /** The state of the promise after the callbacks `es`: the first end or error settles it. */
  function Settle(es: seq<ReaderEvent>): Settlement
  {
    if |es| == 0 then Pending
    else
      var before := es[..|es| - 1];
      if Settle(before) != Pending then Settle(before)
      else match es[|es| - 1]
        case EndOfFile => Resolved(Accumulated(before))
        case ReadError(t) => Rejected(t)
        case Item(_) => Pending
  }

  /** Runs the callback over the reader's events and reports how the promise settled. */
  method GetPdfText(events: seq<ReaderEvent>) returns (outcome: Settlement)
    ensures outcome == Settle(events)
  {
    var text := "";
    outcome := Pending;
    var i := 0;
    while i < |events|
      invariant 0 <= i <= |events|
      invariant text == Accumulated(events[..i])
      invariant outcome == Settle(events[..i])
    {
      assert events[..i + 1][..i] == events[..i];
      match events[i] {
        case ReadError(t) =>
          if outcome == Pending {
            outcome := Rejected(t);
          }
        case EndOfFile =>
          if outcome == Pending {
            outcome := Resolved(text);
          }
        case Item(t) =>
          if Truthy(t) {
            text := text + t.value + " ";
          }
      }
      i := i + 1;
    }
    assert events[..i] == events;
  }

  // ----- An independent reading, front to back -----

  /** The texts of the items, each followed by a space, front to back. */
  function ItemsText(es: seq<ReaderEvent>): string
  {
    if |es| == 0 then "" else Contribution(es[0]) + ItemsText(es[1..])
  }

  /** The index of the first event that is not an item, if any. */
  function FirstSignal(es: seq<ReaderEvent>): Option<nat>
  {
    if |es| == 0 then None
    else if !es[0].Item? then Some(0)
    else match FirstSignal(es[1..])
      case None => None
      case Some(i) => Some(i + 1)
  }

  /** The promise settles by the first non-item event, with the text of the items before it. */
  function SettleByFirstSignal(es: seq<ReaderEvent>): Settlement
  {
    match FirstSignal(es)
    case None => Pending
    case Some(i) =>
      if i < |es| then
        if es[i].EndOfFile? then Resolved(ItemsText(es[..i]))
        else if es[i].ReadError? then Rejected(es[i].error)
        else Pending
      else Pending
  }

  lemma {:induction false} FirstSignalBounds(es: seq<ReaderEvent>)
    ensures FirstSignal(es).Some? ==> FirstSignal(es).value < |es| && !es[FirstSignal(es).value].Item?
    ensures FirstSignal(es).Some? ==> forall j :: 0 <= j < FirstSignal(es).value ==> es[j].Item?
    ensures FirstSignal(es).None? ==> forall j :: 0 <= j < |es| ==> es[j].Item?
  {
    if |es| > 0 && es[0].Item? {
      FirstSignalBounds(es[1..]);
      forall j | 1 <= j < |es| ensures es[j] == es[1..][j - 1] { }
    }
  }

  /** Appending an event leaves an earlier signal in place, or makes the new event the first one. */
  lemma {:induction false} FirstSignalAppend(es: seq<ReaderEvent>, e: ReaderEvent)
    ensures FirstSignal(es).Some? ==> FirstSignal(es + [e]) == FirstSignal(es)
    ensures FirstSignal(es).None? && !e.Item? ==> FirstSignal(es + [e]) == Some(|es|)
    ensures FirstSignal(es).None? && e.Item? ==> FirstSignal(es + [e]) == None
  {
    if |es| > 0 {
      assert (es + [e])[1..] == es[1..] + [e];
      FirstSignalAppend(es[1..], e);
    }
  }

  /** Collecting from the back and from the front gives the same text. */
  lemma {:induction false} ItemsTextAppend(es: seq<ReaderEvent>, e: ReaderEvent)
    ensures ItemsText(es + [e]) == ItemsText(es) + Contribution(e)
  {
    if |es| > 0 {
      assert (es + [e])[1..] == es[1..] + [e];
      ItemsTextAppend(es[1..], e);
    }
  }

  lemma {:induction false} AccumulatedIsItemsText(es: seq<ReaderEvent>)
    ensures Accumulated(es) == ItemsText(es)
    decreases |es|
  {
    if |es| > 0 {
      var before := es[..|es| - 1];
      AccumulatedIsItemsText(before);
      ItemsTextAppend(before, es[|es| - 1]);
      assert before + [es[|es| - 1]] == es;
    }
  }

  /**
    The promise resolves at the first end of file, with the text of every
    item before it, and rejects at the first error; it stays pending when
    neither comes.
   */
  lemma {:induction false} SettleMatchesFirstSignal(es: seq<ReaderEvent>)
    ensures Settle(es) == SettleByFirstSignal(es)
    decreases |es|
  {
    if |es| > 0 {
      var before := es[..|es| - 1];
      var e := es[|es| - 1];
      assert before + [e] == es;
      SettleMatchesFirstSignal(before);
      FirstSignalAppend(before, e);
      FirstSignalBounds(before);
      if FirstSignal(before).Some? {
        var i := FirstSignal(before).value;
        assert es[..i] == before[..i];
        assert es[i] == before[i];
      } else {
        assert es[..|before|] == before;
        AccumulatedIsItemsText(before);
      }
    }
  }

  /** Once settled, the promise keeps its outcome whatever the reader reports afterwards. */
  lemma {:induction false} FirstSettlementWins(es: seq<ReaderEvent>, more: seq<ReaderEvent>)
    requires Settle(es) != Pending
    ensures Settle(es + more) == Settle(es)
    decreases |more|
  {
    if |more| > 0 {
      var shorter := more[..|more| - 1];
      FirstSettlementWins(es, shorter);
      assert (es + more)[..|es + more| - 1] == es + shorter;
    } else {
      assert es + more == es;
    }
  }

  /** A well-behaved reader, items then the end of file, resolves with every item's text. */
  lemma ItemsThenEnd(items: seq<ReaderEvent>)
    requires forall j :: 0 <= j < |items| ==> items[j].Item?
    ensures Settle(items + [EndOfFile]) == Resolved(ItemsText(items))
  {
    var es := items + [EndOfFile];
    FirstSignalAppend(items, EndOfFile);
    FirstSignalBounds(items);
    SettleMatchesFirstSignal(es);
    assert es[..|items|] == items;
  }
}
