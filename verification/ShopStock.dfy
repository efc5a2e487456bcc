/** Stock conservation: pieces on the shelf, held for unpaid orders and consumed by paid
    ones add up, and only an administrator's edit changes the sum, unless a rejected order
    is settled a second time by a confirmation that started before the rejection. */
module ShopStock {
  import opened Common
  import opened Tables
  import opened OrderRows
  import opened Shop
  import opened ShopSafety

  function OnOrder(m: nat): Order -> int {
    (o: Order) => (if o.reserved then Qty(o.cart.items, m) else 0) + (if o.consumed then Qty(o.cart.items, m) else 0)
  }

  function OnShelf(stock: map<nat, nat>, m: nat): int { if m in stock then stock[m] else 0 }

  function Units(s: Store, m: nat): int { OnShelf(s.stock, m) + Sum(OnOrder(m), s.orders) }

  // What an administrator's stock edit adds or removes.
  function EditDelta(s: Store, t: Step, m: nat): int {
    if t.SetStock? && t.model == m && m in s.stock && s.stock[m] == t.expected then t.amount - t.expected else 0
  }

  // A confirmation settles an order whose rejection it did not see: the re-lock only
  // returns early for paid, shipping and completed orders.
  predicate StaleFinish(s: Store, t: Step) {
    && t.FinishPayment? && t.confirmation < |s.confirmations|
    && var f := s.confirmations[t.confirmation];
       && f.live && f.order < |s.orders|
       && s.orders[f.order].status == RefundPending && s.orders[f.order].consumed
       && (f.status == PayCompleted || t.captured)
  }

  // Pieces that drop out of the accounts in such a step.
  function Lost(s: Store, t: Step, m: nat): nat {
    if StaleFinish(s, t) then Qty(s.orders[s.confirmations[t.confirmation].order].cart.items, m) else 0
  }

  lemma PutUnits(s: Store, i: nat, o: Order, stock: map<nat, nat>, m: nat)
    requires i < |s.orders|
    ensures Units(Put(s, i, o, stock), m)
         == Units(s, m) - OnOrder(m)(s.orders[i]) + OnOrder(m)(o) + OnShelf(stock, m) - OnShelf(s.stock, m)
  {
    SumUpdate(OnOrder(m), s.orders, i, o);
  }

  lemma ShelfMoves(o: Order, stock: map<nat, nat>, m: nat)
    requires forall k :: k in Models(o.cart.items) ==> k in stock
    ensures OnShelf(Give(stock, o.cart.items), m) == OnShelf(stock, m) + Qty(o.cart.items, m)
    ensures InStock(stock, o.cart.items) ==>
              OnShelf(Take(stock, o.cart.items), m) == OnShelf(stock, m) - Qty(o.cart.items, m)
  {
    QtyPositive(o.cart.items, m);
    if InStock(stock, o.cart.items) && m in stock {
      TakeExact(stock, o.cart.items, m);
    }
  }

  lemma ReserveUnits(o: Order, stock: map<nat, nat>, now: Time, known: bool, m: nat)
    requires RowOk(o, stock) && o.status == PendingPayment && ReserveRow(o, stock, now, known).Some?
    ensures var (o', stock') := ReserveRow(o, stock, now, known).value;
            OnOrder(m)(o') + OnShelf(stock', m) == OnOrder(m)(o) + OnShelf(stock, m)
  {
    if known && o.cart.kind == Print && !o.reserved {
      ShelfMoves(o, stock, m);
    }
  }

  lemma ReleaseUnits(o: Order, stock: map<nat, nat>, m: nat)
    requires RowOk(o, stock) && o.status == PendingPayment
    ensures OnShelf(ReleasedStock(o, stock), m) == OnOrder(m)(o) + OnShelf(stock, m)
  {
    if o.reserved {
      ShelfMoves(o, stock, m);
    }
  }

  // Releasing the hold and rewriting the row otherwise: the pieces return to the shelf.
  lemma ReleasedUnits(s: Store, i: nat, o': Order, m: nat)
    requires Valid(s) && Editable(s, i) && !o'.reserved && o'.consumed == s.orders[i].consumed
    ensures Units(Put(s, i, o', ReleasedStock(s.orders[i], s.stock)), m) == Units(s, m)
  {
    hide CartPriced;
    var o := s.orders[i];
    assert RowOk(o, s.stock);
    ReleaseUnits(o, s.stock, m);
    PutUnits(s, i, o', ReleasedStock(o, s.stock), m);
  }

  lemma EditUnits(s: Store, t: Step, m: nat)
    requires Valid(s)
    requires t.MergeOrder? || t.DeleteItem? || t.CancelOrder? || t.ExpireHold?
    ensures Units(Do(s, t), m) == Units(s, m)
  {
    hide Units, Valid, MergedCart, CartWithout, ReleasedStock;
    var i := t.order;
    if Editable(s, i) {
      var o := s.orders[i];
      match t {
        case MergeOrder(_, model, price, quantity, _) =>
          if CanMerge(s, t) { ReleasedUnits(s, i, MergedRow(o, Repeat(Item(model, price, false), quantity)), m); }
        case DeleteItem(_, k) =>
          if CanDeleteItem(s, i, k) { ReleasedUnits(s, i, WithoutItem(o, k), m); }
        case CancelOrder(_) => ReleasedUnits(s, i, ReleaseRow(o).(status := Cancelled), m);
        case ExpireHold(_) => ReleasedUnits(s, i, ReleaseRow(o).(voucher := None), m);
      }
    }
  }

  lemma HoldUnits(s: Store, t: Step, m: nat)
    requires Valid(s)
    requires t.Checkout? || t.StartPayment? || t.HoldForAddress?
    ensures Units(Do(s, t), m) == Units(s, m)
  {
    hide CartPriced, ReserveRow, Units, Sum;
    var i := t.order;
    if i < |s.orders| && s.orders[i].status == PendingPayment {
      var o := s.orders[i];
      assert RowOk(o, s.stock);
      if t.HoldForAddress? {
        HeldUnits(s, i, o, s.stock, m, 0);
      } else {
        var held := ReserveRow(o, s.stock, s.now, t.addressKnown);
        var (o', stock') := if held.Some? then held.value else (o, s.stock);
        if held.Some? { ReserveUnits(o, s.stock, s.now, t.addressKnown, m); }
        HeldUnits(s, i, o', stock', m, t.voucher);
        SameUnits(s, Do(s, t), m);
        if t.Checkout? {
          SameUnits(Put(s, i, o'.(voucher := Some(t.voucher)), stock'), Do(s, t), m);
        } else {
          SameUnits(Put(s, i, o'.(captureStarted := true, reservedUntil := None), stock'), Do(s, t), m);
        }
      }
    }
  }

  // The units are those of the rows and the shelf alone.
  lemma SameUnits(s: Store, s': Store, m: nat)
    ensures s'.orders == s.orders && s'.stock == s.stock ==> Units(s', m) == Units(s, m)
  {
  }

  // A hold moves its pieces from the shelf to the order, whatever other columns are written.
  lemma HeldUnits(s: Store, i: nat, o: Order, stock: map<nat, nat>, m: nat, v: nat)
    requires i < |s.orders|
    requires OnOrder(m)(o) + OnShelf(stock, m) == OnOrder(m)(s.orders[i]) + OnShelf(s.stock, m)
    ensures Units(Put(s, i, o, stock), m) == Units(s, m)
    ensures Units(Put(s, i, o.(captureStarted := true, reservedUntil := None), stock), m) == Units(s, m)
    ensures Units(Put(s, i, o.(voucher := Some(v)), stock), m) == Units(s, m)
  {
    PutUnits(s, i, o, stock, m);
    PutUnits(s, i, o.(captureStarted := true, reservedUntil := None), stock, m);
    PutUnits(s, i, o.(voucher := Some(v)), stock, m);
  }

  predicate SamePieces(o: Order, o': Order) {
    o'.reserved == o.reserved && o'.consumed == o.consumed && o'.cart.items == o.cart.items
  }

  lemma SamePiecesUnits(s: Store, i: nat, o: Order, m: nat)
    requires i < |s.orders| && SamePieces(s.orders[i], o)
    ensures Units(Put(s, i, o, s.stock), m) == Units(s, m)
  {
    PutUnits(s, i, o, s.stock, m);
  }

  lemma OfficePieces(o: Order, approve: bool, now: Time, stage: Stage, owner: nat)
    ensures SamePieces(o, ReviewedRow(o, approve, now)) && SamePieces(o, FulfilledRow(o, stage))
    ensures SamePieces(o, o.(cart := BoundCart(o.cart, owner)))
  {
  }

  lemma ReviewUnits(s: Store, t: Step, m: nat)
    requires t.ReviewOrder? || t.Fulfil?
    ensures Units(Do(s, t), m) == Units(s, m)
  {
    var i := t.order;
    if i < |s.orders| {
      var o := s.orders[i];
      if t.ReviewOrder? {
        OfficePieces(o, t.approve, s.now, ToPrinting, 0);
        SamePiecesUnits(s, i, ReviewedRow(o, t.approve, s.now), m);
      } else {
        OfficePieces(o, true, s.now, t.stage, 0);
        SamePiecesUnits(s, i, FulfilledRow(o, t.stage), m);
      }
    }
  }

  lemma BindUnits(s: Store, t: Step, m: nat)
    requires t.DeleteOrder? || t.BindCode?
    ensures Units(Do(s, t), m) == Units(s, m)
  {
    var i := t.order;
    if i < |s.orders| {
      var o := s.orders[i];
      if t.DeleteOrder? {
        SamePiecesUnits(s, i, o.(status := Deleted), m);
      } else {
        OfficePieces(o, true, s.now, ToPrinting, t.owner);
        SamePiecesUnits(s, i, o.(cart := BoundCart(o.cart, t.owner)), m);
      }
    }
  }

  lemma RefundUnits(s: Store, t: Step, m: nat)
    requires Valid(s) && t.RefundOrder?
    ensures Units(Do(s, t), m) == Units(s, m)
  {
    hide CartPriced;
    var i := t.order;
    if i < |s.orders| {
      var o := s.orders[i];
      assert RowOk(o, s.stock);
      var o' := ProcessRefund(o, s.now, t.answers);
      RefundShape(o, s.now, t.answers);
      PutUnits(s, i, o', StockAfter(o, o', s.stock), m);
      if o.consumed && !o'.consumed { ShelfMoves(o, s.stock, m); }
    }
  }

  lemma FinishUnits(s: Store, t: Step, m: nat)
    requires Valid(s) && t.FinishPayment?
    ensures Units(Do(s, t), m) == Units(s, m) - Lost(s, t, m)
  {
    hide CartPriced;
    var c := t.confirmation;
    if c < |s.confirmations| && s.confirmations[c].live {
      var f := s.confirmations[c];
      assert Bound(s, f.order, f.voucher);
      var o := s.orders[f.order];
      assert RowOk(o, s.stock);
      PutUnits(s, f.order, PaidRow(o, s.now, t.captureId, f.backordered), s.stock, m);
    }
  }

  lemma OutsideUnits(s: Store, t: Step, m: nat)
    requires t.Tick? || t.SetStock? || t.PlaceOrder? || t.AbandonPayment?
    ensures Units(Do(s, t), m) == Units(s, m) + EditDelta(s, t, m)
  {
    if t.PlaceOrder? && CanPlace(s, t) {
      SumInsert(OnOrder(m), s.orders, NewRow(t.buyer, t.kind, Repeat(Item(t.model, t.unitPrice, false), t.quantity),
                                             t.shipping, t.offer, t.globalBps));
    }
  }

  lemma OnlyFinishLoses(s: Store, t: Step, m: nat)
    ensures !t.FinishPayment? ==> Lost(s, t, m) == 0
    ensures !t.SetStock? ==> EditDelta(s, t, m) == 0
  {
  }

  // One step, exactly: the sum moves by the administrator's edit and by what a stale finish loses.
  lemma StepUnits(s: Store, t: Step, m: nat)
    requires Valid(s)
    ensures Units(Do(s, t), m) == Units(s, m) + EditDelta(s, t, m) - Lost(s, t, m)
  {
    hide Valid, Units, Do, Lost, EditDelta;
    OnlyFinishLoses(s, t, m);
    match t {
      case MergeOrder(_, _, _, _, _) => EditUnits(s, t, m);
      case DeleteItem(_, _) => EditUnits(s, t, m);
      case CancelOrder(_) => EditUnits(s, t, m);
      case ExpireHold(_) => EditUnits(s, t, m);
      case Checkout(_, _, _, _) => HoldUnits(s, t, m);
      case StartPayment(_, _, _, _) => HoldUnits(s, t, m);
      case HoldForAddress(_, _) => HoldUnits(s, t, m);
      case FinishPayment(_, _, _) => FinishUnits(s, t, m);
      case RefundOrder(_, _) => RefundUnits(s, t, m);
      case DeleteOrder(_) => BindUnits(s, t, m);
      case BindCode(_, _) => BindUnits(s, t, m);
      case ReviewOrder(_, _) => ReviewUnits(s, t, m);
      case Fulfil(_, _) => ReviewUnits(s, t, m);
      case _ => OutsideUnits(s, t, m);
    }
  }

  // Conservation fails exactly on a stale finish of an order that holds the model.
  lemma ConservedIff(s: Store, t: Step, m: nat)
    requires Valid(s)
    ensures Units(Do(s, t), m) == Units(s, m) + EditDelta(s, t, m)
       <==> !(StaleFinish(s, t) && m in Models(s.orders[s.confirmations[t.confirmation].order].cart.items))
  {
    StepUnits(s, t, m);
    if StaleFinish(s, t) {
      QtyPositive(s.orders[s.confirmations[t.confirmation].order].cart.items, m);
    }
  }

  // ---- whole runs ----

  predicate LiveOn(s: Store, i: nat) {
    exists c :: 0 <= c < |s.confirmations| && s.confirmations[c].live && s.confirmations[c].order == i
  }

  // The hypothesis: no order is rejected while a confirmation of it sits between its two transactions.
  predicate GapFree(s: Store, steps: seq<Step>)
    decreases |steps|
  {
    steps == [] ||
    (!(steps[0].ReviewOrder? && !steps[0].approve && LiveOn(s, steps[0].order)) && GapFree(Do(s, steps[0]), steps[1..]))
  }

  function Edits(s: Store, steps: seq<Step>, m: nat): int
    decreases |steps|
  {
    if steps == [] then 0 else EditDelta(s, steps[0], m) + Edits(Do(s, steps[0]), steps[1..], m)
  }

  // No live confirmation points at an order under refund.
  predicate Calm(s: Store) {
    forall c :: 0 <= c < |s.confirmations| && s.confirmations[c].live && s.confirmations[c].order < |s.orders| ==>
      s.orders[s.confirmations[c].order].status != RefundPending
  }

  // Only a rejection moves an order to RefundPending.
  lemma OnlyRejectionRefunds(s: Store, t: Step, i: nat)
    requires Valid(s) && i < |s.orders|
    requires !(t.ReviewOrder? && !t.approve && t.order == i)
    ensures i < |Do(s, t).orders|
    ensures Do(s, t).orders[i].status == RefundPending ==> s.orders[i].status == RefundPending
  {
    hide ProcessRefund, InStock, Take, Give, MergedCart, CartWithout, BoundCart, Valid;
    if t.RefundOrder? {
      RefundShape(s.orders[i], s.now, t.answers);
    }
  }

  lemma StepCalm(s: Store, t: Step)
    requires Valid(s) && Calm(s)
    requires !(t.ReviewOrder? && !t.approve && LiveOn(s, t.order))
    ensures Calm(Do(s, t))
  {
    var s' := Do(s, t);
    forall c | 0 <= c < |s'.confirmations| && s'.confirmations[c].live && s'.confirmations[c].order < |s'.orders|
      ensures s'.orders[s'.confirmations[c].order].status != RefundPending
    {
      var i := s'.confirmations[c].order;
      if c < |s.confirmations| {
        assert Bound(s, s.confirmations[c].order, s.confirmations[c].voucher);
        OldConfirmation(s, t, c);
        OnlyRejectionRefunds(s, t, i);
      } else {
        assert t.StartPayment? && i == t.order;
      }
    }
  }

  // A confirmation that is live after a step was live before, on the same order.
  lemma OldConfirmation(s: Store, t: Step, c: nat)
    requires c < |s.confirmations|
    ensures c < |Do(s, t).confirmations| && Do(s, t).confirmations[c].order == s.confirmations[c].order
    ensures Do(s, t).confirmations[c].live ==> s.confirmations[c].live
  {
  }

  lemma NoGapNoLoss(s: Store, t: Step, m: nat)
    requires Calm(s)
    ensures Lost(s, t, m) == 0
  {
  }

  lemma {:induction false} StockConserved(s: Store, steps: seq<Step>, m: nat)
    requires Valid(s) && Calm(s) && GapFree(s, steps)
    ensures Units(Run(s, steps), m) == Units(s, m) + Edits(s, steps, m)
    decreases |steps|
  {
    hide Do, Valid, Calm, Units, EditDelta;
    if steps != [] {
      StepUnits(s, steps[0], m);
      NoGapNoLoss(s, steps[0], m);
      StepValid(s, steps[0]);
      StepCalm(s, steps[0]);
      StockConserved(Do(s, steps[0]), steps[1..], m);
    }
  }

  // ---- the gap can be reached from every checked-out order ----

  // An order whose stock is held and whose voucher the provider reports as completed, for
  // instance because an earlier capture call succeeded and its reply was lost.
  predicate ReadyToConfirm(s: Store, i: nat, v: nat) {
    PaymentMatches(s, i, v) && s.orders[i].status == PendingPayment && s.orders[i].reserved
  }

  // Two confirmations of it start, the first settles it, an administrator rejects it.
  function GapSteps(s: Store, i: nat, v: nat): seq<Step> {
    [StartPayment(i, v, PayCompleted, true), StartPayment(i, v, PayCompleted, true),
     FinishPayment(|s.confirmations|, true, None), ReviewOrder(i, false)]
  }

  lemma BothStart(s: Store, i: nat, v: nat)
    requires Valid(s) && ReadyToConfirm(s, i, v)
    ensures var s' := Do(s, StartPayment(i, v, PayCompleted, true));
            && ReadyToConfirm(s', i, v) && s'.orders[i].cart == s.orders[i].cart
            && s'.confirmations == s.confirmations + [Confirmation(i, v, PayCompleted, false, true)]
  {
    hide Valid;
  }

  lemma FirstSettles(s: Store, i: nat, v: nat, c: nat)
    requires ReadyToConfirm(s, i, v) && c < |s.confirmations| && s.orders[i].cart.kind == Print
    requires s.confirmations[c] == Confirmation(i, v, PayCompleted, false, true)
    ensures var s' := Do(s, FinishPayment(c, true, None));
            && s'.confirmations == s.confirmations[c := s.confirmations[c].(live := false)]
            && i < |s'.orders| && s'.orders[i].status == Paid && s'.orders[i].review == ReviewPending
            && s'.orders[i].consumed && s'.orders[i].cart == s.orders[i].cart
  {
  }

  lemma ThenRejected(s: Store, i: nat)
    requires i < |s.orders| && s.orders[i].status == Paid && s.orders[i].review == ReviewPending
    requires s.orders[i].cart.kind == Print
    ensures var s' := Do(s, ReviewOrder(i, false));
            && s'.confirmations == s.confirmations && i < |s'.orders| && s'.orders[i].status == RefundPending
            && s'.orders[i].consumed == s.orders[i].consumed && s'.orders[i].cart == s.orders[i].cart
  {
  }

  lemma GapLosesStock(s: Store, i: nat, v: nat, m: nat)
    requires Valid(s) && ReadyToConfirm(s, i, v)
    ensures var steps := GapSteps(s, i, v) + [FinishPayment(|s.confirmations| + 1, true, None)];
            && !GapFree(s, steps) && Edits(s, steps, m) == 0
            && Units(Run(s, steps), m) == Units(s, m) - Qty(s.orders[i].cart.items, m)
  {
    assert RowOk(s.orders[i], s.stock);
    hide Do, Valid, Units, ReadyToConfirm;
    var n := |s.confirmations|;
    var last := FinishPayment(n + 1, true, None);
    var steps := GapSteps(s, i, v) + [last];
    BothStart(s, i, v);
    var s1 := Do(s, steps[0]);
    StepValid(s, steps[0]);
    BothStart(s1, i, v);
    var s2 := Do(s1, steps[1]);
    StepValid(s1, steps[1]);
    FirstSettles(s2, i, v, n);
    var s3 := Do(s2, steps[2]);
    StepValid(s2, steps[2]);
    ThenRejected(s3, i);
    var s4 := Do(s3, steps[3]);
    StepValid(s3, steps[3]);
    assert s3.confirmations[n + 1].live && LiveOn(s3, i);
    assert StaleFinish(s4, last);
    StepUnits(s, steps[0], m);
    StepUnits(s1, steps[1], m);
    StepUnits(s2, steps[2], m);
    StepUnits(s3, steps[3], m);
    StepUnits(s4, last, m);
    NotStale(s2, n, i);
    UnfoldFive(s, steps, m);
  }

  lemma NotStale(s: Store, c: nat, i: nat)
    requires c < |s.confirmations| && s.confirmations[c].order == i < |s.orders| && s.orders[i].status == PendingPayment
    ensures !StaleFinish(s, FinishPayment(c, true, None))
  {
  }

  lemma UnfoldFive(s: Store, steps: seq<Step>, m: nat)
    requires |steps| == 5
    ensures var s1, s2 := Do(s, steps[0]), Do(Do(s, steps[0]), steps[1]);
            var s3 := Do(s2, steps[2]);
            var s4 := Do(s3, steps[3]);
            && Run(s, steps) == Do(s4, steps[4])
            && Edits(s, steps, m) == EditDelta(s, steps[0], m) + EditDelta(s1, steps[1], m) + EditDelta(s2, steps[2], m)
                                     + EditDelta(s3, steps[3], m) + EditDelta(s4, steps[4], m)
            && (GapFree(s, steps) ==> !(steps[3].ReviewOrder? && !steps[3].approve && LiveOn(s3, steps[3].order)))
  {
    hide Do, LiveOn, EditDelta;
    var r1 := steps[1..];
    var r2 := r1[1..];
    var r3 := r2[1..];
    var r4 := r3[1..];
    assert r4[0] == steps[4] && r4[1..] == [] && r3[0] == steps[3] && r2[0] == steps[2] && r1[0] == steps[1];
    var s1 := Do(s, steps[0]);
    var s2 := Do(s1, r1[0]);
    var s3 := Do(s2, r2[0]);
    var s4 := Do(s3, r3[0]);
    var s5 := Do(s4, r4[0]);
    assert Run(s5, []) == s5 && Edits(s5, [], m) == 0;
    assert Run(s4, r4) == s5 && Edits(s4, r4, m) == EditDelta(s4, r4[0], m);
    assert Run(s3, r3) == Run(s4, r4) && Edits(s3, r3, m) == EditDelta(s3, r3[0], m) + Edits(s4, r4, m);
    assert Run(s2, r2) == Run(s3, r3) && Edits(s2, r2, m) == EditDelta(s2, r2[0], m) + Edits(s3, r3, m);
    assert Run(s1, r1) == Run(s2, r2) && Edits(s1, r1, m) == EditDelta(s1, r1[0], m) + Edits(s2, r2, m);
    assert GapFree(s1, r1) ==> GapFree(s2, r2);
    assert GapFree(s2, r2) ==> GapFree(s3, r3);
  }
}
