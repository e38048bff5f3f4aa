/** The money behind the table: what active streams still hold, against the
    contract's token balance and against the supply it tracks. */
module Escrow {
  import opened Arithmetic
  import opened Machine
  import opened Runs
  import opened Token
  import opened Types
  import opened Vesting
  import opened StreamTable

  // What an active stream has been funded with and not paid out.
  function Held(stream: Stream): int {
    if stream.status == Active then stream.total - stream.withdrawn else 0
  }

  function HeldBelow(streams: map<UInt64, Stream>, bound: nat): int {
    if bound == 0 then 0
    else HeldBelow(streams, bound - 1) + (if bound - 1 in streams then Held(streams[bound - 1]) else 0)
  }

  function Outstanding(s: State): int {
    HeldBelow(s.streams, s.counter)
  }

  lemma {:induction false} HeldBelowUpdate(streams: map<UInt64, Stream>, id: UInt64, stream: Stream, bound: nat)
    ensures HeldBelow(streams[id := stream], bound) ==
            HeldBelow(streams, bound) +
            (if id < bound then Held(stream) - (if id in streams then Held(streams[id]) else 0) else 0)
  {
    if bound > 0 {
      HeldBelowUpdate(streams, id, stream, bound - 1);
    }
  }

  lemma RewriteOutstanding(s: State, t: State, id: UInt64)
    requires WellFormed(s) && Rewrites(s, t, id)
    ensures Outstanding(t) == Outstanding(s) + Held(t.streams[id]) - Held(s.streams[id])
  {
    HeldBelowUpdate(s.streams, id, t.streams[id], s.counter);
  }

  lemma {:induction false} HeldBelowSame(a: map<UInt64, Stream>, b: map<UInt64, Stream>, bound: UInt64)
    requires forall id: UInt64 | id < bound :: id in a <==> id in b
    requires forall id: UInt64 | id < bound && id in a :: a[id] == b[id]
    ensures HeldBelow(a, bound) == HeldBelow(b, bound)
  {
    if bound > 0 {
      HeldBelowSame(a, b, bound - 1);
    }
  }

  lemma {:induction false} HeldByNewStreams(s: State, t: State, sender: Address,
                                            requests: seq<StreamRequest>, first: UInt64)
    requires first + |requests| <= U64_MAX
    requires (forall id: UInt64 | first <= id < first + |requests| ::
                id in t.streams && t.streams[id] == NewStream(sender, requests[id - first]))
    requires (forall id: UInt64 | id < first :: id in t.streams <==> id in s.streams)
    requires (forall id: UInt64 | id < first && id in s.streams :: t.streams[id] == s.streams[id])
    ensures HeldBelow(t.streams, first + |requests|) == HeldBelow(s.streams, first) + SumAmounts(requests)
    decreases |requests|
  {
    if requests == [] {
      HeldBelowSame(s.streams, t.streams, first);
    } else {
      var extended := WriteStream(s, first, NewStream(sender, requests[0]));
      HeldBelowUpdate(s.streams, first, NewStream(sender, requests[0]), first);
      forall id: UInt64 | first + 1 <= id < first + |requests|
        ensures t.streams[id] == NewStream(sender, requests[1..][id - (first + 1)])
      {
        assert requests[1..][id - (first + 1)] == requests[id - first];
      }
      HeldByNewStreams(extended, t, sender, requests[1..], first + 1);
    }
  }

  lemma {:induction false} OutstandingNonNegative(s: State, bound: UInt64)
    requires WellFormed(s)
    ensures HeldBelow(s.streams, bound) >= 0
  {
    if bound > 0 {
      OutstandingNonNegative(s, bound - 1);
    }
  }

  /** No single active stream holds more than all of them together. */
  lemma {:induction false} HeldWithinOutstanding(s: State, id: UInt64, bound: UInt64)
    requires WellFormed(s) && id in s.streams && id < bound
    ensures Held(s.streams[id]) <= HeldBelow(s.streams, bound)
  {
    if bound == id + 1 {
      OutstandingNonNegative(s, id);
    } else {
      HeldWithinOutstanding(s, id, bound - 1);
    }
  }

  lemma CreateOutstanding(s: State, auth: set<Address>, sender: Address, request: StreamRequest)
    requires WellFormed(s) && CreateStream(s, auth, sender, request).Done?
    ensures Outstanding(CreateStream(s, auth, sender, request).state) == Outstanding(s) + request.totalAmount
  {
    var t := CreateStream(s, auth, sender, request).state;
    HeldBelowUpdate(s.streams, s.counter, t.streams[s.counter], s.counter);
  }

  lemma {:induction false} BatchOutstanding(s: State, auth: set<Address>, sender: Address, requests: Requests)
    requires WellFormed(s) && CreateStreamBatch(s, auth, sender, requests).Done?
    ensures Outstanding(CreateStreamBatch(s, auth, sender, requests).state) == Outstanding(s) + SumAmounts(requests)
  {
    hide CreateStreamBatch, OpenAll;
    BatchOpens(s, auth, sender, requests);
    HeldByNewStreams(s, CreateStreamBatch(s, auth, sender, requests).state, sender, requests, s.counter);
  }

  // ---- Token conservation --------------------------------------------------

  // The contract's tokens that back no active stream.
  function Surplus(s: State): int {
    BalanceOf(s.balances, Contract) - Outstanding(s)
  }

  function Positive(x: int): int {
    if x > 0 then x else 0
  }

  // What a step brings into the contract from outside every stream.
  function Gift(s: State, action: Action): int {
    if action.OutsideTransfer? && action.payer != Contract && action.payee == Contract
       && Transfer(s.balances, action.payer, action.payee, action.amount).Some?
    then action.amount
    else 0
  }

  // A cancellation that finds less vested than withdrawn refunds the sender the
  // difference out of what backs other streams.
  function Overpaid(s: State, action: Action): int {
    if Succeeds(s, action) && action.call.DoCancel? && action.call.id in s.streams && Sound(s.streams[action.call.id])
    then
      var stream := s.streams[action.call.id];
      Positive(stream.withdrawn - Accrued(stream, s.now))
    else 0
  }

  // A cancellation whose recipient is the contract itself pays that share to
  // itself: it stops backing the stream without leaving.
  function SelfPaid(s: State, action: Action): int {
    if Succeeds(s, action) && action.call.DoCancel? && action.call.id in s.streams && Sound(s.streams[action.call.id])
       && s.streams[action.call.id].recipient == Contract
    then
      var stream := s.streams[action.call.id];
      Positive(Accrued(stream, s.now) - stream.withdrawn)
    else 0
  }

  lemma {:induction false} PayOutMoves(ledger: Ledger, to: Address, amount: Int128)
    requires PayOut(ledger, to, amount).Some?
    ensures BalanceOf(PayOut(ledger, to, amount).value, Contract) ==
            BalanceOf(ledger, Contract) - (if to == Contract then 0 else Positive(amount))
  {
    if amount > 0 {
      TransferMovesExactly(ledger, Contract, to, amount);
    }
  }

  lemma CancelBalance(s: State, t: State, id: UInt64, caller: Address)
    requires WellFormed(s) && id in s.streams && CancelEffect(s, t, id, caller)
    ensures
      var stream := s.streams[id];
      var due := Accrued(stream, s.now) - stream.withdrawn;
      BalanceOf(t.balances, Contract) == BalanceOf(s.balances, Contract)
        - (if stream.recipient == Contract then 0 else Positive(due)) - (stream.total - stream.withdrawn - due)
  {
    var stream := s.streams[id];
    var accrued := Accrued(stream, s.now);
    var paid := PayOut(s.balances, stream.recipient, accrued - stream.withdrawn);
    PayOutMoves(s.balances, stream.recipient, accrued - stream.withdrawn);
    PayOutMoves(paid.value, stream.sender, stream.total - accrued);
  }

  lemma CancelSurplus(s: State, auth: set<Address>, id: UInt64, caller: Address)
    requires WellFormed(s) && Cancel(s, auth, id, caller).Done?
    ensures
      var action := Invoke(auth, DoCancel(id, caller));
      Surplus(Step(s, action)) == Surplus(s) - Overpaid(s, action) + SelfPaid(s, action)
  {
    var t := Cancel(s, auth, id, caller).state;
    CancelRewrites(s, auth, id, caller);
    RewriteOutstanding(s, t, id);
    CancelBalance(s, t, id, caller);
    AccruedFull(s.streams[id], s.now);
  }

  lemma OpeningSurplus(s: State, auth: set<Address>, call: Call)
    requires WellFormed(s) && Succeeds(s, Invoke(auth, call))
    requires call.DoCreateStream? || call.DoCreateStreamBatch?
    ensures Surplus(Step(s, Invoke(auth, call))) == Surplus(s)
  {
    match call {
      case DoCreateStream(sender, request) =>
        CreateOutstanding(s, auth, sender, request);
        TransferMovesExactly(s.balances, sender, Contract, request.totalAmount);
      case DoCreateStreamBatch(sender, requests) =>
        BatchOutstanding(s, auth, sender, requests);
        BatchOpens(s, auth, sender, requests);
        TransferMovesExactly(s.balances, sender, Contract, SumAmounts(requests));
    }
  }

  lemma WithdrawSurplus(s: State, t: State, id: UInt64, value: Value)
    requires WellFormed(s) && id in s.streams && WithdrawEffect(s, t, id, value)
    ensures Surplus(t) == Surplus(s)
    ensures BalanceOf(t.balances, Contract) ==
            BalanceOf(s.balances, Contract) - (Accrued(s.streams[id], s.now) - s.streams[id].withdrawn)
  {
    var stream := s.streams[id];
    RewriteOutstanding(s, t, id);
    TransferMovesExactly(s.balances, Contract, stream.recipient, Accrued(stream, s.now) - stream.withdrawn);
    AccruedFull(stream, s.now);
  }

  lemma StreamCallSurplus(s: State, auth: set<Address>, call: Call)
    requires WellFormed(s) && Succeeds(s, Invoke(auth, call)) && !IsAdminCall(call) && !call.DoCancel?
    ensures Surplus(Step(s, Invoke(auth, call))) == Surplus(s)
  {
    hide CreateStream, CreateStreamBatch, Withdraw, Cancel;
    var done := Apply(s, auth, call);
    match call {
      case DoTopUp(id, sender, amount) =>
        TopUpRewrites(s, auth, id, sender, amount);
        RewriteOutstanding(s, done.state, id);
        TransferMovesExactly(s.balances, sender, Contract, amount);
      case DoExtendStream(id, sender, newEnd) =>
        ExtendRewrites(s, auth, id, sender, newEnd);
        RewriteOutstanding(s, done.state, id);
      case DoWithdraw(id, recipient) =>
        WithdrawRewrites(s, auth, id, recipient);
        WithdrawSurplus(s, done.state, id, done.value);
      case _ => OpeningSurplus(s, auth, call);
    }
  }

  lemma StepSurplus(s: State, action: Action)
    requires WellFormed(s)
    ensures Surplus(Step(s, action)) == Surplus(s) + Gift(s, action) - Overpaid(s, action) + SelfPaid(s, action)
  {
    match action
    case AdvanceTime(_) =>
    case OutsideTransfer(payer, payee, amount) =>
      if payer != Contract && Transfer(s.balances, payer, payee, amount).Some? {
        TransferMovesExactly(s.balances, payer, payee, amount);
      }
    case Invoke(auth, call) =>
      if IsAdminCall(call) {
        AdminCallLeavesMoney(s, auth, call);
      } else if Succeeds(s, action) {
        if call.DoCancel? {
          CancelSurplus(s, auth, call.id, call.caller);
        } else {
          StreamCallSurplus(s, auth, call);
        }
      }
  }

  /** Exact conservation over every run: the contract's balance is what active
      streams hold, plus what came from outside, less what insolvent
      cancellations overpaid, plus what cancellations paid to the contract. */
  lemma {:induction false} Conservation(s: State, actions: seq<Action>)
    requires WellFormed(s)
    ensures
      var t := Run(s, actions);
      BalanceOf(t.balances, Contract) ==
        Outstanding(t) + Surplus(s)
        + Total(Gift, s, actions) - Total(Overpaid, s, actions) + Total(SelfPaid, s, actions)
    decreases |actions|
  {
    hide Apply;
    if actions != [] {
      var earlier := actions[..|actions| - 1];
      Conservation(s, earlier);
      RunWellFormed(s, earlier);
      StepSurplus(Run(s, earlier), actions[|actions| - 1]);
    }
  }

  // A step that brings in no gift and whose cancellation, if it is one, finds
  // nothing overdrawn and does not pay the contract itself.
  predicate Neutral(s: State, action: Action) {
    Gift(s, action) == 0 && Overpaid(s, action) == 0 && SelfPaid(s, action) == 0
  }

  // The documented equation, before the first step and after every one.
  ghost predicate BalanceIsEscrow(s: State, actions: seq<Action>)
    decreases |actions|
  {
    && (actions == [] || BalanceIsEscrow(s, actions[..|actions| - 1]))
    && BalanceOf(Run(s, actions).balances, Contract) == Outstanding(Run(s, actions))
  }

  lemma GiftNonNegative(s: State, action: Action)
    ensures Gift(s, action) >= 0 && Overpaid(s, action) >= 0 && SelfPaid(s, action) >= 0
    ensures Gift(s, action) == 0 || (Overpaid(s, action) == 0 && SelfPaid(s, action) == 0)
    ensures Overpaid(s, action) == 0 || SelfPaid(s, action) == 0
  {
  }

  /** From a state in which the balance is the escrow, it stays so throughout a run
      exactly when every step is neutral. */
  lemma {:induction false} BalanceIsEscrowIff(s: State, actions: seq<Action>)
    requires WellFormed(s) && Surplus(s) == 0
    ensures BalanceIsEscrow(s, actions) <==> Throughout(Neutral, s, actions)
    decreases |actions|
  {
    hide Apply, Gift, Overpaid, SelfPaid;
    if actions != [] {
      var earlier, last := actions[..|actions| - 1], actions[|actions| - 1];
      BalanceIsEscrowIff(s, earlier);
      RunWellFormed(s, earlier);
      StepSurplus(Run(s, earlier), last);
      GiftNonNegative(Run(s, earlier), last);
    }
  }

  // The documented inequality, before the first step and after every one.
  ghost predicate EscrowBacked(s: State, actions: seq<Action>)
    decreases |actions|
  {
    && (actions == [] || EscrowBacked(s, actions[..|actions| - 1]))
    && Outstanding(Run(s, actions)) <= BalanceOf(Run(s, actions).balances, Contract)
  }

  // What the step overpays, if anything, comes out of tokens that back no stream.
  predicate Covered(s: State, action: Action) {
    Overpaid(s, action) <= Surplus(s)
  }

  /** The contract never holds less than its active streams do, over a whole run,
      exactly when it did not to begin with and no cancellation overpays more than
      the surplus it finds. */
  lemma {:induction false} EscrowBackedIff(s: State, actions: seq<Action>)
    requires WellFormed(s)
    ensures EscrowBacked(s, actions) <==> Surplus(s) >= 0 && Throughout(Covered, s, actions)
    decreases |actions|
  {
    hide Apply, Gift, Overpaid, SelfPaid;
    if actions != [] {
      var earlier, last := actions[..|actions| - 1], actions[|actions| - 1];
      EscrowBackedIff(s, earlier);
      RunWellFormed(s, earlier);
      StepSurplus(Run(s, earlier), last);
      GiftNonNegative(Run(s, earlier), last);
    }
  }
}
