/** The returns of one order, with its tables as fields that are updated in place. */
module ReturnDesk {
  import opened Money
  import opened Outcomes
  import opened Returns

  class Service {
    const order: seq<OrderLine>
    var requests: seq<RequestStatus>
    var lines: seq<ReturnLine>
    var refunds: seq<Refund>

    constructor (order: seq<OrderLine>)
      ensures Snapshot() == State(order, [], [], [])
    {
      this.order, requests, lines, refunds := order, [], [], [];
    }

    function Snapshot(): State
      reads this
    {
      State(order, requests, lines, refunds)
    }

    /** What is already being returned of an order line. */
    method CountReturning(lines: seq<ReturnLine>, l: nat) returns (total: int)
      ensures total == Returning(lines, l)
    {
      total := 0;
      for n := 0 to |lines|
        invariant total == Returning(lines[..n], l)
      {
        assert lines[..n + 1][..n] == lines[..n];
        if Counts(lines[n], l) { total := total + lines[n].quantity; }
      }
      assert lines[..|lines|] == lines;
    }

    /** `request_item_return`: a line per item against what is left of its order line, or nothing at all. */
    method RequestItemReturn(items: seq<(nat, int)>, delivered: bool) returns (error: Option<Error>)
      modifies this`requests, this`lines
      ensures Answer(error, Snapshot(), old(RequestItems(Snapshot(), items, delivered)), old(Snapshot()))
    {
      hide Returning, ToUnits;
      if !delivered { return Some(NotDelivered); }
      if items == [] { return Some(NoLines); }
      ghost var before := Snapshot();
      var added, seen: set<nat> := lines, {};
      for n := 0 to |items|
        invariant Snapshot() == before && AddLines(before, items, n) == Ok(added)
        invariant forall l :: l in seen <==> exists k :: 0 <= k < n && items[k].0 == l
      {
        var (l, quantity) := items[n];
        error := None;
        if l in seen { error := Some(DuplicateLine); }
        else if l >= |order| { error := Some(UnknownLine); }
        else if quantity <= 0 || quantity > order[l].quantity { error := Some(BadQuantity); }
        else {
          var prior := CountReturning(added, l);
          if prior + quantity > order[l].quantity { error := Some(ExceedsRemaining); }
        }
        if error.Some? {
          FirstRefusal(before, items, n + 1, |items|);
          return;
        }
        seen := seen + {l};
        added := added + [ReturnLine(|requests|, l, quantity, ToUnits(order[l].price * quantity), LineRequested)];
      }
      requests, lines, error := requests + [Requested], added, None;
    }

    /** The loop that gives every line of a request the same status. */
    method MarkLines(r: nat, s: LineStatus)
      modifies this`lines
      ensures lines == Mark(old(lines), r, s)
    {
      ghost var before := lines;
      for k := 0 to |lines|
        invariant |lines| == |before|
        invariant forall j :: 0 <= j < |lines| ==> lines[j] == if j < k then Mark(before, r, s)[j] else before[j]
      {
        if lines[k].request == r { lines := lines[k := lines[k].(status := s)]; }
      }
    }

    method ReviewReturn(r: nat, approve: bool) returns (error: Option<Error>)
      modifies this`requests, this`lines
      ensures Answer(error, Snapshot(), old(Review(Snapshot(), r, approve)), old(Snapshot()))
    {
      if r >= |requests| { return Some(NotFound); }
      if requests[r] != Requested { return Some(WrongState); }
      requests := requests[r := if approve then Approved else Rejected];
      MarkLines(r, if approve then LineApproved else LineRejected);
      error := None;
    }

    method AdvanceReturn(r: nat, to: RequestStatus) returns (error: Option<Error>)
      modifies this`requests, this`lines
      ensures Answer(error, Snapshot(), old(Advance(Snapshot(), r, to)), old(Snapshot()))
    {
      if r >= |requests| { return Some(NotFound); }
      if !NextStatus(requests[r], to) { return Some(WrongState); }
      requests := requests[r := to];
      if to == Received { MarkLines(r, LineReceived); }
      else if to == Cancelled { MarkLines(r, LineCancelled); }
      error := None;
    }

    /** The amounts of the request's lines. */
    method SumLines(r: nat) returns (total: int)
      ensures total == RequestAmount(lines, r)
    {
      total := 0;
      for n := 0 to |lines|
        invariant total == RequestAmount(lines[..n], r)
      {
        assert lines[..n + 1][..n] == lines[..n];
        if lines[n].request == r { total := total + lines[n].amount; }
      }
      assert lines[..|lines|] == lines;
    }

    /** The first half of `approve_refund`: the refund of an inspected request, for the sum of its lines. */
    method StartApproval(r: nat, accepted: bool) returns (error: Option<Error>)
      modifies this`refunds
      ensures Answer(error, Snapshot(), old(BeginApproval(Snapshot(), r, accepted)), old(Snapshot()))
    {
      if r >= |requests| { return Some(NotFound); }
      if requests[r] != Inspected { return Some(WrongState); }
      var amount := SumLines(r);
      if amount <= 0 { return Some(NothingToRefund); }
      if !accepted { return Some(RefundRefused); }
      refunds := refunds + [Refund(r, amount)];
      error := None;
    }

    /** The second half: the request and its lines are written. */
    method GrantReturn(r: nat)
      requires r < |requests|
      modifies this`requests, this`lines
      ensures Snapshot() == old(Grant(Snapshot(), r))
    {
      requests := requests[r := RefundApproved];
      MarkLines(r, LineApproved);
    }

    /** `approve_refund`, when nothing comes between its commits. */
    method ApproveReturnRefund(r: nat, accepted: bool) returns (error: Option<Error>)
      modifies this`requests, this`lines, this`refunds
      ensures Answer(error, Snapshot(), old(ApproveRefund(Snapshot(), r, accepted)), old(Snapshot()))
    {
      error := StartApproval(r, accepted);
      if error.None? { GrantReturn(r); }
    }

    method CheckReturn(r: nat, accepted: bool) returns (error: Option<Error>)
      ensures error == CheckCompletion(Snapshot(), r, accepted)
    {
      if r >= |requests| { return Some(NotFound); }
      if requests[r] == Refunded { return if accepted then None else Some(RefundRefused); }
      if requests[r] != RefundApproved { return Some(WrongState); }
      error := if accepted then None else Some(RefundRefused);
    }

    method ConcludeReturn(r: nat)
      requires r < |requests|
      modifies this`requests, this`lines
      ensures Snapshot() == old(Conclude(Snapshot(), r))
    {
      requests := requests[r := Refunded];
      MarkLines(r, LineRefunded);
    }

    /** `complete_return_refund`, when nothing comes between its commits: a repeat changes nothing. */
    method CompleteReturnRefund(r: nat, accepted: bool) returns (error: Option<Error>)
      modifies this`requests, this`lines
      ensures Answer(error, Snapshot(), old(CompleteRefund(Snapshot(), r, accepted)), old(Snapshot()))
    {
      error := CheckReturn(r, accepted);
      if error.None? && requests[r] != Refunded { ConcludeReturn(r); }
    }
  }

  /** The new rows, or the error and the old rows. */
  predicate Answer(error: Option<Error>, after: State, r: Result<State, Error>, before: State) {
    match r
    case Ok(st) => error.None? && after == st
    case Err(e) => error == Some(e) && after == before
  }

  lemma {:induction false} FirstRefusal(st: State, items: seq<(nat, int)>, n: nat, m: nat)
    requires n <= m <= |items| && AddLines(st, items, n).Err?
    ensures AddLines(st, items, m) == AddLines(st, items, n)
  {
    if n < m { FirstRefusal(st, items, n, m - 1); }
  }
}
