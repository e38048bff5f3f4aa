/** What the stream table keeps on every run, and how a single stream can change. */
module StreamTable {
  import opened Arithmetic
  import opened Machine
  import opened Token
  import opened Types
  import opened Vesting
  import opened Wrappers

  // ---- The invariant -------------------------------------------------------

  ghost predicate StreamOk(stream: Stream, now: UInt64) {
    && Sound(stream)
    && 0 <= stream.withdrawn <= stream.total
    && stream.sender != Contract
    && match stream.status
       case Active => stream.withdrawn < stream.total
       case Completed => stream.withdrawn == stream.total && stream.end <= now
       case Cancelled => true
  }

  ghost predicate WellFormed(s: State) {
    && (forall id: UInt64 :: id in s.streams <==> id < s.counter)
    && (forall id: UInt64 | id in s.streams :: StreamOk(s.streams[id], s.now))
    && s.supplyCap >= 1
    && (s.pendingAdmin.Some? <==> s.executeAfter.Some?)
    && (s.admin.Some? <==> s.token.Some?)
    && (s.admin.None? ==>
          s.counter == 0 && s.totalSupply == 0 && s.supplyCap == DEFAULT_SUPPLY_CAP && s.pendingAdmin.None?)
  }

  // ---- What opening a list of requests does --------------------------------

  function SumAmounts(requests: seq<StreamRequest>): int {
    if requests == [] then 0 else requests[0].totalAmount + SumAmounts(requests[1..])
  }

  ghost predicate AllValid(requests: seq<StreamRequest>, now: UInt64) {
    forall i | 0 <= i < |requests| :: RequestFault(requests[i], now) == None
  }

  /** The validation loop accepts exactly the batches whose every request is valid
      and whose sum fits, and returns that sum. */
  lemma {:induction false} ValidateBatchIff(requests: seq<StreamRequest>, now: UInt64, aggregate: Int128)
    requires aggregate >= 0
    ensures ValidateBatch(requests, now, aggregate).Ok? <==>
            AllValid(requests, now) && aggregate + SumAmounts(requests) <= I128_MAX
    ensures ValidateBatch(requests, now, aggregate).Ok? ==>
            ValidateBatch(requests, now, aggregate).value == aggregate + SumAmounts(requests)
    ensures AllValid(requests, now) ==> SumAmounts(requests) >= |requests|
  {
    if requests != [] {
      var rest := requests[1..];
      assert AllValid(requests, now) <==> RequestFault(requests[0], now) == None && AllValid(rest, now) by {
        assert forall i | 0 <= i < |rest| :: rest[i] == requests[i + 1];
      }
      if aggregate + requests[0].totalAmount > I128_MAX {
        ValidateBatchIff(rest, now, aggregate);
      } else if RequestFault(requests[0], now) == None {
        ValidateBatchIff(rest, now, aggregate + requests[0].totalAmount);
      }
    }
  }

  ghost predicate Opens(s: State, t: State, sender: Address, requests: seq<StreamRequest>, first: UInt64) {
    && t == s.(streams := t.streams, events := t.events)
    && (forall id: UInt64 :: id in t.streams <==> id in s.streams || first <= id < first + |requests|)
    && (forall id: UInt64 | id in s.streams && id < first :: t.streams[id] == s.streams[id])
    && (forall id: UInt64 | first <= id < first + |requests| ::
          t.streams[id] == NewStream(sender, requests[id - first]))
  }

  lemma {:induction false} OpeningOneMore(s: State, one: State, t: State, sender: Address,
                                          requests: seq<StreamRequest>, first: UInt64)
    requires 0 < |requests| && first + |requests| <= U64_MAX
    requires one == s.(streams := s.streams[first := NewStream(sender, requests[0])], events := one.events)
    requires Opens(one, t, sender, requests[1..], first + 1)
    ensures Opens(s, t, sender, requests, first)
  {
    hide NewStream;
    forall id: UInt64 | first <= id < first + |requests|
      ensures t.streams[id] == NewStream(sender, requests[id - first])
    {
      assert id == first || requests[id - first] == requests[1..][id - (first + 1)];
    }
  }

  lemma {:induction false} OpenAllOpens(s: State, sender: Address, requests: seq<StreamRequest>, first: UInt64)
    requires first + |requests| <= U64_MAX
    ensures Opens(s, OpenAll(s, sender, requests, first), sender, requests, first)
    decreases |requests|
  {
    if requests != [] {
      hide NewStream, Opens;
      var one := Publish(WriteStream(s, first, NewStream(sender, requests[0])),
                         Created(first, sender, requests[0].recipient, requests[0].totalAmount));
      OpenAllOpens(one, sender, requests[1..], first + 1);
      OpeningOneMore(s, one, OpenAll(s, sender, requests, first), sender, requests, first);
    }
  }

  // ---- Every step keeps the invariant --------------------------------------

  // Rewriting one stream is all that three of the entrypoints do to the table.
  ghost predicate Rewrites(s: State, t: State, id: UInt64) {
    && id in s.streams && id in t.streams
    && t.streams == s.streams[id := t.streams[id]]
    && t == s.(streams := t.streams, balances := t.balances, totalSupply := t.totalSupply, events := t.events)
  }

  lemma RewriteWellFormed(s: State, t: State, id: UInt64)
    requires WellFormed(s) && Rewrites(s, t, id) && StreamOk(t.streams[id], s.now)
    ensures WellFormed(t)
  {
  }

  // How one stream may change over any stretch of a run.
  ghost predicate Evolves(before: Stream, after: Stream) {
    && after.sender == before.sender && after.recipient == before.recipient && after.start == before.start
    && before.total <= after.total && before.end <= after.end
    && match before.status
       case Active => true
       case Completed => after == before || after == before.(status := Cancelled)
       case Cancelled => after == before
  }

  lemma TopUpRewrites(s: State, auth: set<Address>, id: UInt64, sender: Address, amount: Int128)
    requires WellFormed(s) && TopUp(s, auth, id, sender, amount).Done?
    ensures
      var t := TopUp(s, auth, id, sender, amount).state;
      Rewrites(s, t, id) && StreamOk(t.streams[id], s.now) && Evolves(s.streams[id], t.streams[id])
  {
  }

  lemma ExtendRewrites(s: State, auth: set<Address>, id: UInt64, sender: Address, newEnd: UInt64)
    requires WellFormed(s) && ExtendStream(s, auth, id, sender, newEnd).Done?
    ensures
      var t := ExtendStream(s, auth, id, sender, newEnd).state;
      Rewrites(s, t, id) && StreamOk(t.streams[id], s.now) && Evolves(s.streams[id], t.streams[id])
  {
  }

  /** A withdrawal brings `withdrawn` up to exactly what has vested, pays out the
      strictly positive difference, and completes the stream exactly when its
      window is over. */
  ghost predicate WithdrawEffect(s: State, t: State, id: UInt64, value: Value)
    requires WellFormed(s) && id in s.streams
  {
    var before := s.streams[id];
    var accrued := Accrued(before, s.now);
    var amount := accrued - before.withdrawn;
    && Rewrites(s, t, id)
    && before.status == Active && before.recipient != Contract
    && 0 < amount && accrued <= before.total
    && t.streams[id] == before.(withdrawn := accrued, status := if before.end <= s.now then Completed else Active)
    && value == Amount(amount)
    && Transfer(s.balances, Contract, before.recipient, amount) == Some(t.balances)
    && t.totalSupply == ReduceSupply(s.totalSupply, amount)
    && t.events == s.events + [Withdrawn(id, before.recipient, amount)]
  }

  lemma WithdrawRewrites(s: State, auth: set<Address>, id: UInt64, recipient: Address)
    requires WellFormed(s) && Withdraw(s, auth, id, recipient).Done?
    ensures id in s.streams
    ensures WithdrawEffect(s, Withdraw(s, auth, id, recipient).state, id, Withdraw(s, auth, id, recipient).value)
  {
    VestedRefinesAccrued(s.streams[id], s.now);
    AccruedFull(s.streams[id], s.now);
  }

  lemma WithdrawEvolves(s: State, t: State, id: UInt64, value: Value)
    requires WellFormed(s) && id in s.streams && WithdrawEffect(s, t, id, value)
    ensures StreamOk(t.streams[id], s.now) && Evolves(s.streams[id], t.streams[id])
  {
    AccruedFull(s.streams[id], s.now);
  }

  // What a cancellation pays the two parties, in this order.
  ghost predicate PaysBoth(before: Ledger, after: Ledger, stream: Stream, recipientPaid: Int128, senderRefund: Int128) {
    var paid := PayOut(before, stream.recipient, recipientPaid);
    paid.Some? && PayOut(paid.value, stream.sender, senderRefund) == Some(after)
  }

  // The same, balance by balance: the recipient gets the share if it is positive,
  // the sender the refund, and the contract pays for both.
  ghost predicate PaidOut(before: Ledger, after: Ledger, stream: Stream, recipientPaid: int, senderRefund: int) {
    var share := if recipientPaid > 0 then recipientPaid else 0;
    forall account ::
      BalanceOf(after, account) == BalanceOf(before, account)
                                   + (if account == stream.recipient then share else 0)
                                   + (if account == stream.sender then senderRefund else 0)
                                   - (if account == Contract then share + senderRefund else 0)
  }

  lemma {:induction false} PayOutIff(ledger: Ledger, to: Address, amount: Int128)
    ensures PayOut(ledger, to, amount).Some? <==>
            amount <= 0 || (amount <= BalanceOf(ledger, Contract)
                            && (to == Contract || BalanceOf(ledger, to) + amount <= I128_MAX))
    ensures PayOut(ledger, to, amount).Some? ==>
            Moves(ledger, PayOut(ledger, to, amount).value, Contract, to, if amount > 0 then amount else 0)
  {
    TransferIff(ledger, Contract, to, amount);
  }

  lemma {:induction false} PaysBothMoves(before: Ledger, after: Ledger, stream: Stream, recipientPaid: Int128,
                                         senderRefund: Int128)
    requires PaysBoth(before, after, stream, recipientPaid, senderRefund) && 0 <= senderRefund
    ensures PaidOut(before, after, stream, recipientPaid, senderRefund)
  {
    PayOutIff(before, stream.recipient, recipientPaid);
    PayOutIff(PayOut(before, stream.recipient, recipientPaid).value, stream.sender, senderRefund);
  }

  /** A cancellation sets `withdrawn` to what has vested, whichever way that moves
      it, and releases the whole unpaid remainder from tracked supply. */
  ghost predicate CancelEffect(s: State, t: State, id: UInt64, caller: Address)
    requires WellFormed(s) && id in s.streams
  {
    var before := s.streams[id];
    var accrued := Accrued(before, s.now);
    && Rewrites(s, t, id)
    && before.status != Cancelled
    && 0 <= accrued <= before.total
    && t.streams[id] == before.(withdrawn := accrued, status := Cancelled)
    && PaysBoth(s.balances, t.balances, before, accrued - before.withdrawn, before.total - accrued)
    && t.totalSupply == ReduceSupply(s.totalSupply, before.total - before.withdrawn)
    && t.events == s.events + [StreamCancelled(id, caller, before.total - accrued, accrued - before.withdrawn)]
  }

  lemma CancelTakesEffect(s: State, auth: set<Address>, id: UInt64, caller: Address)
    requires WellFormed(s) && Cancel(s, auth, id, caller).Done?
    ensures id in s.streams
    ensures CancelEffect(s, Cancel(s, auth, id, caller).state, id, caller)
  {
    VestedRefinesAccrued(s.streams[id], s.now);
    UnvestedComplementsVested(s.streams[id], s.now);
    AccruedFull(s.streams[id], s.now);
  }

  lemma CancelRewrites(s: State, auth: set<Address>, id: UInt64, caller: Address)
    requires WellFormed(s) && Cancel(s, auth, id, caller).Done?
    ensures id in s.streams
    ensures CancelEffect(s, Cancel(s, auth, id, caller).state, id, caller)
    ensures
      var stream := s.streams[id];
      PaidOut(s.balances, Cancel(s, auth, id, caller).state.balances, stream,
              Accrued(stream, s.now) - stream.withdrawn, stream.total - Accrued(stream, s.now))
  {
    CancelTakesEffect(s, auth, id, caller);
    hide Cancel, PaysBoth, PaidOut;
    var stream := s.streams[id];
    PaysBothMoves(s.balances, Cancel(s, auth, id, caller).state.balances, stream,
                  Accrued(stream, s.now) - stream.withdrawn, stream.total - Accrued(stream, s.now));
  }

  lemma CancelledByParty(s: State, auth: set<Address>, id: UInt64, caller: Address)
    requires Cancel(s, auth, id, caller).Done?
    ensures Authorized(auth, caller) && id in s.streams
    ensures caller == s.streams[id].sender || caller == s.streams[id].recipient
  {
  }

  lemma CancelEvolves(s: State, t: State, id: UInt64, caller: Address)
    requires WellFormed(s) && id in s.streams && CancelEffect(s, t, id, caller)
    ensures StreamOk(t.streams[id], s.now) && Evolves(s.streams[id], t.streams[id])
  {
    AccruedFull(s.streams[id], s.now);
  }

  lemma CreateWellFormed(s: State, auth: set<Address>, sender: Address, request: StreamRequest)
    requires WellFormed(s) && CreateStream(s, auth, sender, request).Done?
    ensures WellFormed(CreateStream(s, auth, sender, request).state)
  {
  }

  lemma {:induction false} BatchOpens(s: State, auth: set<Address>, sender: Address, requests: Requests)
    requires CreateStreamBatch(s, auth, sender, requests).Done?
    ensures
      var t := CreateStreamBatch(s, auth, sender, requests).state;
      && Opens(s, t.(balances := s.balances, counter := s.counter), sender, requests, s.counter)
      && AllValid(requests, s.now) && 1 <= SumAmounts(requests) <= I128_MAX
      && t.counter == s.counter + |requests|
      && t == OpenAll(s.(balances := t.balances), sender, requests, s.counter).(counter := t.counter)
      && Transfer(s.balances, sender, Contract, SumAmounts(requests)) == Some(t.balances)
      && sender != Contract
  {
    ValidateBatchIff(requests, s.now, 0);
    var balances := Transfer(s.balances, sender, Contract, SumAmounts(requests)).value;
    OpenAllOpens(s.(balances := balances), sender, requests, s.counter);
  }

  lemma {:induction false} BatchWellFormed(s: State, auth: set<Address>, sender: Address, requests: Requests)
    requires WellFormed(s) && CreateStreamBatch(s, auth, sender, requests).Done?
    ensures WellFormed(CreateStreamBatch(s, auth, sender, requests).state)
  {
    var t := CreateStreamBatch(s, auth, sender, requests).state;
    BatchOpens(s, auth, sender, requests);
    forall id: UInt64 | id in t.streams ensures StreamOk(t.streams[id], t.now) {
      if id >= s.counter {
        assert RequestFault(requests[id - s.counter], s.now) == None;
      }
    }
  }

  lemma AdvanceWellFormed(s: State, to: UInt64)
    requires WellFormed(s) && s.now <= to
    ensures WellFormed(s.(now := to))
  {
  }

  // Calls that leave the streams and the money alone.
  predicate IsAdminCall(call: Call) {
    match call
    case DoInitialize(_, _) => true
    case DoScheduleAdminTransfer(_, _) => true
    case DoExecuteAdminTransfer => true
    case DoCancelAdminTransfer(_) => true
    case DoSetAdmin(_) => true
    case DoSetSupplyCap(_) => true
    case _ => false
  }

  ghost predicate MoneyUntouched(s: State, t: State) {
    && t.streams == s.streams && t.counter == s.counter && t.balances == s.balances
    && t.totalSupply == s.totalSupply && t.now == s.now
  }

  lemma AdminCallLeavesMoney(s: State, auth: set<Address>, call: Call)
    requires WellFormed(s) && IsAdminCall(call)
    ensures MoneyUntouched(s, Step(s, Invoke(auth, call)))
    ensures WellFormed(Step(s, Invoke(auth, call)))
  {
  }

  lemma CallWellFormed(s: State, auth: set<Address>, call: Call)
    requires WellFormed(s) && Succeeds(s, Invoke(auth, call)) && !IsAdminCall(call)
    ensures WellFormed(Step(s, Invoke(auth, call)))
  {
    hide CreateStreamBatch, TopUp, ExtendStream, Withdraw, Cancel;
    var done := Apply(s, auth, call);
    var t := done.state;
    match call {
      case DoCreateStream(sender, request) => CreateWellFormed(s, auth, sender, request);
      case DoCreateStreamBatch(sender, requests) => BatchWellFormed(s, auth, sender, requests);
      case DoTopUp(id, sender, amount) =>
        TopUpRewrites(s, auth, id, sender, amount);
        RewriteWellFormed(s, t, id);
      case DoExtendStream(id, sender, newEnd) =>
        ExtendRewrites(s, auth, id, sender, newEnd);
        RewriteWellFormed(s, t, id);
      case DoWithdraw(id, recipient) =>
        WithdrawRewrites(s, auth, id, recipient);
        WithdrawEvolves(s, t, id, done.value);
        RewriteWellFormed(s, t, id);
      case DoCancel(id, caller) =>
        CancelRewrites(s, auth, id, caller);
        CancelEvolves(s, t, id, caller);
        RewriteWellFormed(s, t, id);
    }
  }

  lemma StepWellFormed(s: State, action: Action)
    requires WellFormed(s)
    ensures WellFormed(Step(s, action))
  {
    match action
    case AdvanceTime(to) =>
      if to >= s.now {
        AdvanceWellFormed(s, to);
      }
    case OutsideTransfer(_, _, _) =>
    case Invoke(auth, call) =>
      if IsAdminCall(call) {
        AdminCallLeavesMoney(s, auth, call);
      } else if Succeeds(s, action) {
        CallWellFormed(s, auth, call);
      }
  }

  /** Every reachable table is well formed: ids are exactly 0 .. counter - 1 and
      each stream satisfies `StreamOk`. */
  lemma {:induction false} RunWellFormed(s: State, actions: seq<Action>)
    requires WellFormed(s)
    ensures WellFormed(Run(s, actions))
    decreases |actions|
  {
    hide Apply;
    if actions != [] {
      RunWellFormed(s, actions[..|actions| - 1]);
      StepWellFormed(Run(s, actions[..|actions| - 1]), actions[|actions| - 1]);
    }
  }

  lemma {:induction false} DeployedWellFormed(balances: Ledger, now: UInt64)
    ensures WellFormed(Deployed(balances, now))
  {
  }

  // ---- Streams evolve, one at a time ---------------------------------------

  // The stream a call is about, if it is about one that exists.
  function Target(action: Action): Option<UInt64> {
    if !action.Invoke? then None
    else
      match action.call
      case DoTopUp(id, _, _) => Some(id)
      case DoExtendStream(id, _, _) => Some(id)
      case DoWithdraw(id, _) => Some(id)
      case DoCancel(id, _) => Some(id)
      case _ => None
  }

  lemma CallEvolves(s: State, auth: set<Address>, call: Call, id: UInt64)
    requires WellFormed(s) && id in s.streams
    requires Succeeds(s, Invoke(auth, call)) && !IsAdminCall(call)
    ensures
      var t := Apply(s, auth, call).state;
      && id in t.streams && Evolves(s.streams[id], t.streams[id])
      && (Target(Invoke(auth, call)) != Some(id) ==> t.streams[id] == s.streams[id])
  {
    hide CreateStreamBatch, TopUp, ExtendStream, Withdraw, Cancel;
    var done := Apply(s, auth, call);
    match call {
      case DoCreateStream(_, _) =>
      case DoCreateStreamBatch(sender, requests) => BatchOpens(s, auth, sender, requests);
      case DoTopUp(target, sender, amount) => TopUpRewrites(s, auth, target, sender, amount);
      case DoExtendStream(target, sender, newEnd) => ExtendRewrites(s, auth, target, sender, newEnd);
      case DoWithdraw(target, recipient) =>
        WithdrawRewrites(s, auth, target, recipient);
        WithdrawEvolves(s, done.state, target, done.value);
      case DoCancel(target, caller) =>
        CancelRewrites(s, auth, target, caller);
        CancelEvolves(s, done.state, target, caller);
    }
  }

  lemma StepEvolves(s: State, action: Action, id: UInt64)
    requires WellFormed(s) && id in s.streams
    ensures id in Step(s, action).streams
    ensures Evolves(s.streams[id], Step(s, action).streams[id])
    ensures Target(action) != Some(id) ==> Step(s, action).streams[id] == s.streams[id]
  {
    if action.Invoke? {
      if IsAdminCall(action.call) {
        AdminCallLeavesMoney(s, action.auth, action.call);
      } else if Succeeds(s, action) {
        CallEvolves(s, action.auth, action.call, id);
      }
    }
  }

  /** Over any run a stream keeps its parties and start, its total and end never
      fall, and once it has ended its amounts are frozen: a completed stream can
      only be relabelled cancelled, a cancelled one never changes again. A run
      that never names the stream leaves it untouched. */
  lemma {:induction false} RunEvolves(s: State, actions: seq<Action>, id: UInt64)
    requires WellFormed(s) && id in s.streams
    ensures id in Run(s, actions).streams
    ensures Evolves(s.streams[id], Run(s, actions).streams[id])
    ensures (forall i | 0 <= i < |actions| :: Target(actions[i]) != Some(id)) ==>
            Run(s, actions).streams[id] == s.streams[id]
    decreases |actions|
  {
    hide Apply;
    if actions != [] {
      var earlier := actions[..|actions| - 1];
      RunEvolves(s, earlier, id);
      RunWellFormed(s, earlier);
      StepEvolves(Run(s, earlier), actions[|actions| - 1], id);
    }
  }

  lemma StepClock(s: State, action: Action)
    ensures s.now <= Step(s, action).now
    ensures action.Invoke? ==> Step(s, action).now == s.now
  {
    if action.Invoke? && action.call.DoCreateStreamBatch? && Succeeds(s, action) {
      BatchOpens(s, action.auth, action.call.sender, action.call.requests);
    }
  }

  lemma {:induction false} RunClock(s: State, actions: seq<Action>)
    ensures s.now <= Run(s, actions).now
    decreases |actions|
  {
    hide Apply;
    if actions != [] {
      RunClock(s, actions[..|actions| - 1]);
      StepClock(Run(s, actions[..|actions| - 1]), actions[|actions| - 1]);
    }
  }
}
