/**
 * The checkout cart of hooks/use-checkout.ts: line items with a running
 * total, edits by position, and the checkout request whose answer either
 * redirects to the payment page or confirms in place. Amounts are integers
 * (minor currency units); the payment service's answer is an input.
 */
module Checkout {
  import opened Outcomes
  import opened Seqs

  datatype CheckoutStep = Review | Payment | Confirmation

  datatype CheckoutItem = CheckoutItem(name: string, quantity: int, unitPrice: int)

  datatype CheckoutState = CheckoutState(
    step: CheckoutStep,
    items: seq<CheckoutItem>,
    loading: bool,
    error: Option<string>)

  /** The hook's first render: the review step with the given items (none by default). */
  function InitialState(items: Option<seq<CheckoutItem>>): (s: CheckoutState)
    ensures s.step == Review && !s.loading && s.error.None?
    ensures items.Some? ==> s.items == items.value
    ensures items.None? ==> s.items == []
  {
    CheckoutState(Review, items.GetOr([]), false, None)
  }

  function LineTotal(item: CheckoutItem): int {
    item.unitPrice * item.quantity
  }

  /** `items.reduce((sum, item) => sum + item.unitPrice * item.quantity, 0)`. */
  function Total(items: seq<CheckoutItem>): int {
    Sum(LineTotal, items)
  }

  /** The total accumulated left to right, as the reducer does, agrees with `Total`. */
  method ComputeTotal(items: seq<CheckoutItem>) returns (total: int)
    ensures total == Total(items)
  {
    total := 0;
    var i := 0;
    while i < |items|
      invariant 0 <= i <= |items|
      invariant total == Total(items[..i])
    {
      SumConcat(LineTotal, items[..i], [items[i]]);
      assert items[..i] + [items[i]] == items[..i + 1];
      total := total + LineTotal(items[i]);
      i := i + 1;
    }
    assert items[..i] == items;
  }

  /** `addItem`: the item goes at the end; nothing else changes. */
  function AddItem(items: seq<CheckoutItem>, item: CheckoutItem): (r: seq<CheckoutItem>)
    ensures |r| == |items| + 1 && r[..|items|] == items && r[|items|] == item
  {
    items + [item]
  }

  /** Adding an item raises the total by exactly that line's amount. */
  lemma AddItemTotal(items: seq<CheckoutItem>, item: CheckoutItem)
    ensures Total(AddItem(items, item)) == Total(items) + item.unitPrice * item.quantity
  {
    SumConcat(LineTotal, items, [item]);
  }

  /** `removeItem(index)`: the item at that position goes; an index outside the list removes nothing. */
  function RemoveAt(items: seq<CheckoutItem>, index: int): (r: seq<CheckoutItem>)
    ensures 0 <= index < |items| ==> |r| == |items| - 1
    ensures !(0 <= index < |items|) ==> r == items
    ensures forall k :: 0 <= k < |r| ==> r[k] == (if 0 <= index <= k then items[k + 1] else items[k])
  {
    if 0 <= index < |items| then items[..index] + items[index + 1..] else items
  }

  /** Removing a line lowers the total by exactly that line's amount. */
  lemma RemoveAtTotal(items: seq<CheckoutItem>, index: int)
    requires 0 <= index < |items|
    ensures Total(RemoveAt(items, index)) == Total(items) - LineTotal(items[index])
  {
    assert items == items[..index] + ([items[index]] + items[index + 1..]);
    SumConcat(LineTotal, items[..index], [items[index]] + items[index + 1..]);
    SumConcat(LineTotal, [items[index]], items[index + 1..]);
    SumConcat(LineTotal, items[..index], items[index + 1..]);
  }

  /** `Math.max(1, quantity)`. */
  function ClampQuantity(quantity: int): (q: int)
    ensures q >= 1 && q >= quantity
    ensures quantity >= 1 ==> q == quantity
    ensures quantity < 1 ==> q == 1
  {
    if quantity < 1 then 1 else quantity
  }

  /** `updateQuantity(index, quantity)`: only the item at that position changes, and only its quantity. */
  function UpdateQuantity(items: seq<CheckoutItem>, index: int, quantity: int): (r: seq<CheckoutItem>)
    ensures |r| == |items|
    ensures forall k :: 0 <= k < |items| && k != index ==> r[k] == items[k]
    ensures 0 <= index < |items| ==> r[index] == items[index].(quantity := ClampQuantity(quantity))
  {
    if 0 <= index < |items| then items[index := items[index].(quantity := ClampQuantity(quantity))] else items
  }

  /** Changing a quantity changes the total by the unit price times the change. */
  lemma UpdateQuantityTotal(items: seq<CheckoutItem>, index: int, quantity: int)
    requires 0 <= index < |items|
    ensures Total(UpdateQuantity(items, index, quantity))
            == Total(items) + items[index].unitPrice * (ClampQuantity(quantity) - items[index].quantity)
  {
    var before, after := items[index], items[index].(quantity := ClampQuantity(quantity));
    SumReplace(LineTotal, items, index, after);
    assert LineTotal(after) - LineTotal(before) == before.unitPrice * (ClampQuantity(quantity) - before.quantity);
  }

  /** Every edit keeps quantities at least 1 once they are. */
  lemma EditsKeepQuantitiesPositive(items: seq<CheckoutItem>, item: CheckoutItem, index: int, quantity: int)
    requires forall k :: 0 <= k < |items| ==> items[k].quantity >= 1
    requires item.quantity >= 1
    ensures forall k :: 0 <= k < |items| + 1 ==> AddItem(items, item)[k].quantity >= 1
    ensures forall k :: 0 <= k < |RemoveAt(items, index)| ==> RemoveAt(items, index)[k].quantity >= 1
    ensures forall k :: 0 <= k < |items| ==> UpdateQuantity(items, index, quantity)[k].quantity >= 1
  {
  }

  /** A cart of non-negative prices and quantities never has a negative total. */
  lemma {:induction false} TotalNonNegative(items: seq<CheckoutItem>)
    requires forall k :: 0 <= k < |items| ==> items[k].unitPrice >= 0 && items[k].quantity >= 0
    ensures Total(items) >= 0
    decreases |items|
  {
    if |items| > 0 {
      TotalNonNegative(items[1..]);
    }
  }

  /** One line of the POST body: `{ name, amount: unitPrice, quantity }`. */
  datatype LineRequest = LineRequest(name: string, amount: int, quantity: int)

  function ToLine(item: CheckoutItem): LineRequest {
    LineRequest(item.name, item.unitPrice, item.quantity)
  }

  /** The POST body's item list, one line per item in order. */
  function CheckoutLines(items: seq<CheckoutItem>): (r: seq<LineRequest>)
    ensures |r| == |items|
    ensures forall k :: 0 <= k < |items| ==>
              r[k].name == items[k].name && r[k].amount == items[k].unitPrice && r[k].quantity == items[k].quantity
    decreases |items|
  {
    if |items| == 0 then [] else [ToLine(items[0])] + CheckoutLines(items[1..])
  }

  function LineAmount(line: LineRequest): int {
    line.amount * line.quantity
  }

  /** The request charges exactly the cart total. */
  lemma {:induction false} RequestChargesTotal(items: seq<CheckoutItem>)
    ensures Sum(LineAmount, CheckoutLines(items)) == Total(items)
    decreases |items|
  {
    if |items| > 0 {
      RequestChargesTotal(items[1..]);
    }
  }

  /** The checkout request: the item lines and the caller's metadata. */
  datatype CheckoutRequest = CheckoutRequest(lines: seq<LineRequest>, metadata: Option<seq<(string, string)>>)

  /** What `processCheckout` sent, where it sent the browser, and the state it leaves. */
  datatype CheckoutRun = CheckoutRun(request: CheckoutRequest, redirect: Option<string>, state: CheckoutState)

  /**
   * `processCheckout`: the cart is posted; an OK answer with a (truthy)
   * `url` redirects the browser there, an OK answer without one moves to
   * confirmation; a failure records the server's message or "Checkout
   * failed" (or the thrown error's message) and keeps the step. Loading is
   * cleared at the end and the items are never touched.
   */
  function ProcessCheckout(s: CheckoutState, metadata: Option<seq<(string, string)>>, reply: Reply<Option<string>>): (r: CheckoutRun)
    ensures r.request == CheckoutRequest(CheckoutLines(s.items), metadata)
    ensures !r.state.loading && r.state.items == s.items
    ensures r.redirect.Some? <==> reply.Ok? && Present(reply.body)
    ensures r.redirect.Some? ==> r.redirect.value == reply.body.value && r.state.step == s.step
    ensures r.state.step == Confirmation <==> (reply.Ok? && !Present(reply.body)) || (s.step == Confirmation)
    ensures reply.Ok? ==> r.state.error.None?
    ensures reply.NotOk? ==> r.state.error == Some(ServerMessageOr(reply.serverMessage, "Checkout failed"))
    ensures reply.Rejected? ==> r.state.error == Some(RejectionText(reply.reason, "Checkout failed"))
    ensures !reply.Ok? ==> r.state.step == s.step && r.redirect.None?
  {
    var request := CheckoutRequest(CheckoutLines(s.items), metadata);
    var started := s.(loading := true, error := None);
    match reply
    case Ok(url) =>
      if Present(url) then CheckoutRun(request, Some(url.value), started.(loading := false))
      else CheckoutRun(request, None, started.(step := Confirmation, loading := false))
    case NotOk(m) =>
      CheckoutRun(request, None, started.(error := Some(ServerMessageOr(m, "Checkout failed")), loading := false))
    case Rejected(reason) =>
      CheckoutRun(request, None, started.(error := Some(RejectionText(reason, "Checkout failed")), loading := false))
  }

  /** A failed checkout can be retried: the cart and step are as before and only the error differs. */
  lemma FailedCheckoutKeepsCart(s: CheckoutState, metadata: Option<seq<(string, string)>>, reply: Reply<Option<string>>)
    requires !reply.Ok?
    ensures var r := ProcessCheckout(s, metadata, reply);
            r.state == s.(loading := false, error := r.state.error) && r.state.error.Some?
  {
  }
}
