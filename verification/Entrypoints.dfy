/** The contract of each entrypoint towards its callers, in every well-formed state:
    exactly when it succeeds, what it then answers, and all that it leaves behind.
    Balances are compared account by account, and limits are written as numbers. */
module Entrypoints {
  import opened Arithmetic
  import opened Machine
  import opened StreamTable
  import opened Token
  import opened Types
  import opened Vesting
  import opened Wrappers

  // ---- Administration ------------------------------------------------------

  /** Initialization names the administrator and the token, once. */
  lemma InitializeIs(s: State, auth: set<Address>, admin: Address, token: Address)
    requires WellFormed(s)
    ensures
      var r := Apply(s, auth, DoInitialize(admin, token));
      && (r.Done? <==> s.admin.None?)
      && (r.Done? ==> r == Done(s.(admin := Some(admin), token := Some(token)), Nothing)
                      && s.supplyCap == 0x7FFF_FFFF_FFFF_FFFF_FFFF_FFFF_FFFF_FFFF)
      && (r == Reject(AlreadyInitialized) <==> s.admin.Some?)
  {
  }

  /** Whatever is pending, the administrator can put someone else in line, for one
      day later. */
  lemma ScheduleIs(s: State, auth: set<Address>, admin: Address, newAdmin: Address)
    ensures
      var r := Apply(s, auth, DoScheduleAdminTransfer(admin, newAdmin));
      && (r.Done? <==>
            && s.admin == Some(admin) && admin in auth && admin != Contract
            && newAdmin != admin
            && s.now + 86_400 <= U64_MAX)
      && (r.Done? ==>
            r == Done(s.(pendingAdmin := Some(newAdmin), executeAfter := Some(s.now + 86_400),
                         events := s.events + [AdminScheduled(admin, newAdmin, s.now + 86_400)]),
                      Timestamp(s.now + 86_400)))
  {
  }

  /** Whoever calls, a pending transfer executes from its time on. */
  lemma ExecuteIs(s: State, auth: set<Address>)
    requires WellFormed(s)
    ensures
      var r := Apply(s, auth, DoExecuteAdminTransfer);
      && (r.Done? <==> s.pendingAdmin.Some? && s.executeAfter.value <= s.now)
      && (r.Done? ==>
            s.admin.Some? &&
            r == Done(s.(admin := s.pendingAdmin, pendingAdmin := None, executeAfter := None,
                         events := s.events + [AdminTransfer(s.admin.value, s.pendingAdmin.value)]), Nothing))
  {
  }

  /** The administrator can revoke a pending transfer at any time, due or not. */
  lemma RevokeIs(s: State, auth: set<Address>, admin: Address)
    ensures
      var r := Apply(s, auth, DoCancelAdminTransfer(admin));
      && (r.Done? <==> s.admin == Some(admin) && admin in auth && admin != Contract && s.pendingAdmin.Some?)
      && (r.Done? ==>
            r == Done(s.(pendingAdmin := None, executeAfter := None,
                         events := s.events + [AdminCancelled(admin)]), Nothing))
  {
  }

  /** The administrator can hand over at once, to anyone. */
  lemma SetAdminIs(s: State, auth: set<Address>, newAdmin: Address)
    ensures
      var r := Apply(s, auth, DoSetAdmin(newAdmin));
      && (r.Done? <==> s.admin.Some? && s.admin.value in auth && s.admin.value != Contract)
      && (r.Done? ==>
            r == Done(s.(admin := Some(newAdmin),
                         events := s.events + [AdminSet(s.admin.value, newAdmin)]), Nothing))
  {
  }

  /** The administrator can raise or lower the cap to any positive value. */
  lemma SetSupplyCapIs(s: State, auth: set<Address>, newCap: Int128)
    ensures
      var r := Apply(s, auth, DoSetSupplyCap(newCap));
      && (r.Done? <==> s.admin.Some? && s.admin.value in auth && s.admin.value != Contract && 0 < newCap)
      && (r.Done? ==>
            r == Done(s.(supplyCap := newCap,
                         events := s.events + [CapAdmin(s.admin.value, s.supplyCap, newCap)]), Nothing))
  {
  }

  // ---- Opening streams -----------------------------------------------------

  // An amount of at least one unit, and a window that is proper and not yet over.
  predicate Proper(amount: int, start: int, end: int, now: int) {
    1 <= amount && start < end && now < end
  }

  /** A stream is opened under the next id; its start is the one requested, and the
      present for a requested start of zero. */
  lemma CreateIs(s: State, auth: set<Address>, sender: Address, request: StreamRequest)
    ensures
      var r := Apply(s, auth, DoCreateStream(sender, request));
      var start := if request.startTime == 0 then s.now else request.startTime;
      var amount := request.totalAmount;
      && (r.Done? <==>
            && s.admin.Some? && sender in auth && sender != Contract
            && Proper(amount, start, request.endTime, s.now)
            && s.totalSupply + amount <= s.supplyCap
            && amount <= BalanceOf(s.balances, sender)
            && BalanceOf(s.balances, Contract) + amount <= I128_MAX
            && s.counter < U64_MAX)
      && (r.Done? ==>
            && r.value == StreamId(s.counter)
            && r.state == s.(
                 counter := s.counter + 1,
                 totalSupply := s.totalSupply + amount,
                 streams := s.streams[s.counter :=
                   Stream(sender, request.recipient, amount, 0, start, request.endTime, Active)],
                 balances := r.state.balances,
                 events := s.events + [Created(s.counter, sender, request.recipient, amount)])
            && Moves(s.balances, r.state.balances, sender, Contract, amount))
  {
    TransferIff(s.balances, sender, Contract, request.totalAmount);
  }

  lemma {:induction false} AllValidIff(requests: seq<StreamRequest>, now: UInt64)
    ensures AllValid(requests, now) <==>
            forall i | 0 <= i < |requests| ::
              Proper(requests[i].totalAmount, requests[i].startTime, requests[i].endTime, now)
  {
    assert forall i | 0 <= i < |requests| ::
        RequestFault(requests[i], now) == None <==>
        Proper(requests[i].totalAmount, requests[i].startTime, requests[i].endTime, now);
  }

  // The log grew by one event for every request, in their order.
  ghost predicate Announces(before: seq<Event>, after: seq<Event>, sender: Address, requests: seq<StreamRequest>,
                            first: UInt64)
    requires first + |requests| <= U64_MAX
  {
    && |after| == |before| + |requests| && after[..|before|] == before
    && (forall i | 0 <= i < |requests| ::
          after[|before| + i] == Created(first + i, sender, requests[i].recipient, requests[i].totalAmount))
  }

  lemma {:induction false} OpenAllAnnounces(s: State, sender: Address, requests: seq<StreamRequest>, first: UInt64)
    requires first + |requests| <= U64_MAX
    ensures Announces(s.events, OpenAll(s, sender, requests, first).events, sender, requests, first)
    decreases |requests|
  {
    if requests != [] {
      hide NewStream;
      var rest := requests[1..];
      var one := Publish(WriteStream(s, first, NewStream(sender, requests[0])),
                         Created(first, sender, requests[0].recipient, requests[0].totalAmount));
      OpenAllAnnounces(one, sender, rest, first + 1);
      var after := OpenAll(one, sender, rest, first + 1).events;
      assert after[..|s.events| + 1] == one.events;
      assert after[..|s.events|] == one.events[..|s.events|];
      forall i | 0 <= i < |requests|
        ensures after[|s.events| + i] == Created(first + i, sender, requests[i].recipient, requests[i].totalAmount)
      {
        if i == 0 {
          assert after[|s.events|] == one.events[|s.events|];
        } else {
          assert after[|one.events| + (i - 1)] ==
                 Created(first + 1 + (i - 1), sender, rest[i - 1].recipient, rest[i - 1].totalAmount);
        }
      }
    }
  }

  /** A batch succeeds when every request is proper, its starts taken as they are,
      and the sender can pay the sum. The cap is not among the conditions. */
  lemma {:induction false} CanCreateBatchIff(s: State, auth: set<Address>, sender: Address, requests: Requests)
    ensures Apply(s, auth, DoCreateStreamBatch(sender, requests)).Done? <==>
            && s.admin.Some? && sender in auth && sender != Contract
            && requests != []
            && (forall i | 0 <= i < |requests| ::
                  Proper(requests[i].totalAmount, requests[i].startTime, requests[i].endTime, s.now))
            && SumAmounts(requests) <= BalanceOf(s.balances, sender)
            && BalanceOf(s.balances, Contract) + SumAmounts(requests) <= I128_MAX
            && s.counter + |requests| <= U64_MAX
  {
    AllValidIff(requests, s.now);
    ValidateBatchIff(requests, s.now, 0);
    if AllValid(requests, s.now) && SumAmounts(requests) <= I128_MAX {
      TransferIff(s.balances, sender, Contract, SumAmounts(requests));
    }
  }

  // The older streams stay, and every request is a stream of its own.
  ghost predicate Adds(s: State, streams: map<UInt64, Stream>, sender: Address, requests: seq<StreamRequest>)
    requires WellFormed(s) && s.counter + |requests| <= U64_MAX
  {
    && (forall id: UInt64 :: id in streams <==> id < s.counter + |requests|)
    && (forall id: UInt64 | id in s.streams :: streams[id] == s.streams[id])
    && (forall i | 0 <= i < |requests| ::
          var id: UInt64 := s.counter + i;
          var request := requests[i];
          streams[id] == Stream(sender, request.recipient, request.totalAmount, 0, request.startTime,
                                request.endTime, Active))
  }

  lemma {:induction false} OpensAdds(s: State, t: State, sender: Address, requests: seq<StreamRequest>)
    requires WellFormed(s) && s.counter + |requests| <= U64_MAX
    requires Opens(s, t, sender, requests, s.counter)
    ensures Adds(s, t.streams, sender, requests)
  {
    forall i | 0 <= i < |requests|
      ensures
        var id: UInt64 := s.counter + i;
        t.streams[id] == NewStream(sender, requests[i])
    {
      var id: UInt64 := s.counter + i;
      assert requests[id - s.counter] == requests[i];
    }
  }

  /** It then opens all requests under consecutive ids, announces them in their
      order, takes one payment of their sum, and leaves tracked supply alone. */
  lemma {:induction false} CreateBatchIs(s: State, auth: set<Address>, sender: Address, requests: Requests)
    requires WellFormed(s) && Apply(s, auth, DoCreateStreamBatch(sender, requests)).Done?
    ensures
      var r := Apply(s, auth, DoCreateStreamBatch(sender, requests));
      var t := r.state;
      && s.counter + |requests| <= U64_MAX
      && r.value.StreamIds? && |r.value.ids| == |requests|
      && (forall i | 0 <= i < |requests| :: r.value.ids[i] == s.counter + i)
      && t == s.(counter := s.counter + |requests|, streams := t.streams, balances := t.balances, events := t.events)
      && Adds(s, t.streams, sender, requests)
      && Moves(s.balances, t.balances, sender, Contract, SumAmounts(requests))
      && Announces(s.events, t.events, sender, requests, s.counter)
  {
    hide OpenAll, Opens, Adds, Announces, Moves, ValidateBatch;
    var t := CreateStreamBatch(s, auth, sender, requests).state;
    BatchOpens(s, auth, sender, requests);
    OpensAdds(s, t.(balances := s.balances, counter := s.counter), sender, requests);
    TransferIff(s.balances, sender, Contract, SumAmounts(requests));
    OpenAllAnnounces(s.(balances := t.balances), sender, requests, s.counter);
  }

  // ---- Changing streams ----------------------------------------------------

  /** The sender of an active stream can top it up at any time, within the cap. */
  lemma TopUpIs(s: State, auth: set<Address>, id: UInt64, sender: Address, amount: Int128)
    requires WellFormed(s)
    ensures
      var r := Apply(s, auth, DoTopUp(id, sender, amount));
      && (r.Done? <==>
            && sender in auth && sender != Contract
            && 1 <= amount
            && id in s.streams && s.streams[id].sender == sender && s.streams[id].status == Active
            && s.streams[id].total + amount <= I128_MAX
            && s.totalSupply + amount <= s.supplyCap
            && amount <= BalanceOf(s.balances, sender)
            && BalanceOf(s.balances, Contract) + amount <= I128_MAX)
      && (r.Done? ==>
            var total := s.streams[id].total + amount;
            && r.value == Amount(total)
            && r.state == s.(
                 totalSupply := s.totalSupply + amount,
                 streams := s.streams[id := s.streams[id].(total := total)],
                 balances := r.state.balances,
                 events := s.events + [ToppedUp(id, sender, amount, total)])
            && Moves(s.balances, r.state.balances, sender, Contract, amount))
  {
    TransferIff(s.balances, sender, Contract, amount);
  }

  /** The sender of an active stream can move its end to any later time, and that
      changes nothing else. */
  lemma ExtendIs(s: State, auth: set<Address>, id: UInt64, sender: Address, newEnd: UInt64)
    ensures
      var r := Apply(s, auth, DoExtendStream(id, sender, newEnd));
      && (r.Done? <==>
            && sender in auth && sender != Contract
            && id in s.streams && s.streams[id].sender == sender && s.streams[id].status == Active
            && s.streams[id].end < newEnd)
      && (r.Done? ==>
            r == Done(s.(streams := s.streams[id := s.streams[id].(end := newEnd)],
                         events := s.events + [Extended(id, sender, s.streams[id].end, newEnd)]), Nothing))
  {
  }

  // What remains tracked once `amount` leaves.
  function SupplyAfter(supply: int, amount: int): int {
    if supply - amount >= I128_MIN then supply - amount else 0
  }

  /** The recipient of an active stream can withdraw once anything new has vested,
      and gets all of it. */
  lemma WithdrawIs(s: State, auth: set<Address>, id: UInt64, recipient: Address)
    requires WellFormed(s)
    ensures
      var r := Apply(s, auth, DoWithdraw(id, recipient));
      && (r.Done? <==>
            && recipient in auth && recipient != Contract
            && id in s.streams && s.streams[id].recipient == recipient && s.streams[id].status == Active
            && !Overflows(s.streams[id], s.now)
            && var due := Accrued(s.streams[id], s.now) - s.streams[id].withdrawn;
            && 0 < due <= BalanceOf(s.balances, Contract)
            && BalanceOf(s.balances, recipient) + due <= I128_MAX)
      && (r.Done? ==>
            var stream := s.streams[id];
            var due := Accrued(stream, s.now) - stream.withdrawn;
            && r.value == Amount(due)
            && r.state == s.(
                 totalSupply := r.state.totalSupply,
                 streams := s.streams[id := stream.(
                   withdrawn := stream.withdrawn + due,
                   status := if stream.end <= s.now then Completed else Active)],
                 balances := r.state.balances,
                 events := s.events + [Withdrawn(id, recipient, due)])
            && r.state.totalSupply == SupplyAfter(s.totalSupply, due)
            && Moves(s.balances, r.state.balances, Contract, recipient, due))
  {
    if id in s.streams {
      var stream := s.streams[id];
      VestedRefinesAccrued(stream, s.now);
      AccruedFull(stream, s.now);
      if stream.withdrawn < Accrued(stream, s.now) {
        TransferIff(s.balances, Contract, recipient, Accrued(stream, s.now) - stream.withdrawn);
      }
    }
  }

  // Both payouts can be made, one after the other.
  predicate CanPay(ledger: Ledger, stream: Stream, share: int, refund: int) {
    && share <= BalanceOf(ledger, Contract)
    && refund + (if stream.recipient == Contract then 0 else share) <= BalanceOf(ledger, Contract)
    && (stream.recipient == Contract || BalanceOf(ledger, stream.recipient) + share <= I128_MAX)
    && BalanceOf(ledger, stream.sender) + refund
       + (if stream.recipient == stream.sender then share else 0) <= I128_MAX
  }

  lemma {:induction false} BothPayOutsIff(ledger: Ledger, stream: Stream, recipientPaid: Int128, senderRefund: Int128)
    requires 0 <= senderRefund && stream.sender != Contract
    ensures
      var paid := PayOut(ledger, stream.recipient, recipientPaid);
      var share := if recipientPaid > 0 then recipientPaid else 0;
      paid.Some? && PayOut(paid.value, stream.sender, senderRefund).Some? <==>
      CanPay(ledger, stream, share, senderRefund)
  {
    PayOutIff(ledger, stream.recipient, recipientPaid);
    var paid := PayOut(ledger, stream.recipient, recipientPaid);
    if paid.Some? {
      PayOutIff(paid.value, stream.sender, senderRefund);
    }
  }

  /** Either party can cancel a stream that is not cancelled yet, as long as its
      arithmetic fits and both shares can be paid. */
  lemma CanCancelIff(s: State, auth: set<Address>, id: UInt64, caller: Address)
    requires WellFormed(s)
    ensures Apply(s, auth, DoCancel(id, caller)).Done? <==>
            && caller in auth && caller != Contract
            && id in s.streams && (caller == s.streams[id].sender || caller == s.streams[id].recipient)
            && s.streams[id].status != Cancelled
            && !Overflows(s.streams[id], s.now)
            && var due := Accrued(s.streams[id], s.now) - s.streams[id].withdrawn;
               CanPay(s.balances, s.streams[id], if due > 0 then due else 0,
                      s.streams[id].total - Accrued(s.streams[id], s.now))
  {
    hide PayOut, CanPay;
    if id in s.streams {
      var stream := s.streams[id];
      VestedRefinesAccrued(stream, s.now);
      UnvestedComplementsVested(stream, s.now);
      AccruedFull(stream, s.now);
      BothPayOutsIff(s.balances, stream, Accrued(stream, s.now) - stream.withdrawn,
                     stream.total - Accrued(stream, s.now));
    }
  }

  /** It then raises the recipient's balance by what has vested and was not
      withdrawn, if that is positive, and the sender's by what has not vested; no
      other balance moves but the contract's. One account may be both parties, and
      the recipient may be the contract. */
  lemma CancelIs(s: State, auth: set<Address>, id: UInt64, caller: Address)
    requires WellFormed(s) && Apply(s, auth, DoCancel(id, caller)).Done?
    ensures
      var r := Apply(s, auth, DoCancel(id, caller));
      && id in s.streams
      && var stream, accrued := s.streams[id], Accrued(s.streams[id], s.now);
      && 0 <= accrued <= stream.total
      && r.value == Nothing
      && r.state == s.(
           totalSupply := r.state.totalSupply,
           streams := s.streams[id := stream.(withdrawn := accrued, status := Cancelled)],
           balances := r.state.balances,
           events := s.events
                     + [StreamCancelled(id, caller, stream.total - accrued, accrued - stream.withdrawn)])
      && r.state.totalSupply == SupplyAfter(s.totalSupply, stream.total - stream.withdrawn)
    ensures
      var stream := s.streams[id];
      var due := Accrued(stream, s.now) - stream.withdrawn;
      var share := if due > 0 then due else 0;
      var refund := stream.total - Accrued(stream, s.now);
      forall account ::
        BalanceOf(Apply(s, auth, DoCancel(id, caller)).state.balances, account) ==
          BalanceOf(s.balances, account)
          + (if account == stream.recipient then share else 0)
          + (if account == stream.sender then refund else 0)
          - (if account == Contract then share + refund else 0)
  {
    hide PaysBoth;
    CancelRewrites(s, auth, id, caller);
    assert Cancel(s, auth, id, caller).value == Nothing;
    hide Cancel;
  }

  // ---- What is not a successful call -----------------------------------------

  /** A failed call leaves no trace, a later ledger changes the clock alone, and an
      outside transfer balances alone, never drawing on the contract's. */
  lemma {:induction false} OtherwiseNothingChanges(s: State, action: Action)
    ensures action.Invoke? && !Succeeds(s, action) ==> Step(s, action) == s
    ensures action.AdvanceTime? ==> Step(s, action) == s.(now := if s.now < action.to then action.to else s.now)
    ensures action.OutsideTransfer? ==>
              var t := Step(s, action);
              && t == s.(balances := t.balances)
              && (if action.payer != Contract && 0 <= action.amount <= BalanceOf(s.balances, action.payer)
                     && (action.payee == action.payer
                         || BalanceOf(s.balances, action.payee) + action.amount <= I128_MAX)
                  then Moves(s.balances, t.balances, action.payer, action.payee, action.amount)
                  else t == s)
  {
    if action.OutsideTransfer? {
      TransferIff(s.balances, action.payer, action.payee, action.amount);
    }
  }
}
