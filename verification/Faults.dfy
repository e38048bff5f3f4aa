/** What the errors mean: each one names a fact about the state, not just a branch. */
module Faults {
  import opened Arithmetic
  import opened Entrypoints
  import opened Machine
  import opened StreamTable
  import opened Token
  import opened Types
  import opened Vesting
  import opened Wrappers

  // Whose authorization a call asks the host for.
  function Asked(s: State, call: Call): Option<Address> {
    match call
    case DoInitialize(_, _) => None
    case DoScheduleAdminTransfer(admin, _) => Some(admin)
    case DoExecuteAdminTransfer => None
    case DoCancelAdminTransfer(admin) => Some(admin)
    case DoSetAdmin(_) => s.admin
    case DoSetSupplyCap(_) => s.admin
    case DoCreateStream(sender, _) => Some(sender)
    case DoCreateStreamBatch(sender, _) => Some(sender)
    case DoTopUp(_, sender, _) => Some(sender)
    case DoExtendStream(_, sender, _) => Some(sender)
    case DoWithdraw(_, recipient) => Some(recipient)
    case DoCancel(_, caller) => Some(caller)
  }

  /** A call traps for lack of authorization exactly when the account it asks for did
      not give it, unless it has already answered `NotInitialized`. */
  lemma AuthTrapIff(s: State, auth: set<Address>, call: Call)
    ensures Apply(s, auth, call) == Failed(AuthTrap) <==>
            && Asked(s, call).Some? && (Asked(s, call).value !in auth || Asked(s, call).value == Contract)
            && (s.admin.Some? || Target(Invoke(auth, call)).Some?)
  {
    hide Settle, Vested, Withdrawable, ValidateBatch, OpenAll;
  }

  // ---- Administration --------------------------------------------------------

  lemma AdminFaults(s: State, auth: set<Address>, call: Call)
    requires WellFormed(s) && s.admin.Some?
    requires Asked(s, call).Some? ==> Authorized(auth, Asked(s, call).value)
    ensures call.DoScheduleAdminTransfer? ==>
              var r := Apply(s, auth, call);
              && (r == Reject(Unauthorized) <==> s.admin != Some(call.admin))
              && (s.admin == Some(call.admin) ==>
                    && (r == Reject(InvalidAdminAction) <==> call.newAdmin == call.admin)
                    && (r == Reject(Overflow) <==> call.newAdmin != call.admin && s.now > U64_MAX - 86_400))
    ensures call.DoExecuteAdminTransfer? ==>
              var r := Apply(s, auth, call);
              && (r == Reject(NoPendingAdminAction) <==> s.pendingAdmin.None?)
              && (s.pendingAdmin.Some? ==> (r == Reject(TimelockNotExpired) <==> s.now < s.executeAfter.value))
    ensures call.DoCancelAdminTransfer? ==>
              var r := Apply(s, auth, call);
              && (r == Reject(Unauthorized) <==> s.admin != Some(call.admin))
              && (s.admin == Some(call.admin) ==> (r == Reject(NoPendingAdminAction) <==> s.pendingAdmin.None?))
    ensures call.DoSetSupplyCap? ==>
              (Apply(s, auth, call) == Reject(InvalidAmount) <==> call.newCap < 1)
  {
  }

  // ---- Opening streams -------------------------------------------------------

  /** Before any token moves, a creation is refused for its amount, its window, and
      the cap, in this order. */
  lemma CreateFaults(s: State, auth: set<Address>, sender: Address, request: StreamRequest)
    requires WellFormed(s) && s.admin.Some? && Authorized(auth, sender)
    ensures
      var r := CreateStream(s, auth, sender, request);
      var start := if request.startTime == 0 then s.now else request.startTime;
      var amount := request.totalAmount;
      && (r == Reject(InvalidAmount) <==> amount < 1)
      && (r == Reject(InvalidTimeRange) <==> 1 <= amount && request.endTime <= start)
      && (r == Reject(EndTimeInPast) <==> 1 <= amount && start < request.endTime <= s.now)
      && (Proper(amount, start, request.endTime, s.now) ==>
            && (r == Reject(SupplyCapExceeded) <==> s.supplyCap < s.totalSupply + amount <= I128_MAX)
            && (r == Reject(Overflow) <==>
                  || s.totalSupply + amount > I128_MAX
                  || (s.totalSupply + amount <= s.supplyCap && s.counter == U64_MAX
                      && amount <= BalanceOf(s.balances, sender)
                      && BalanceOf(s.balances, Contract) + amount <= I128_MAX))
            && (r == Failed(TransferTrap) <==>
                  && s.totalSupply + amount <= s.supplyCap
                  && (amount > BalanceOf(s.balances, sender) || BalanceOf(s.balances, Contract) + amount > I128_MAX)))
  {
    TransferIff(s.balances, sender, Contract, request.totalAmount);
  }

  // The first request that is not proper, or with which the sum overflows.
  ghost predicate FirstBad(requests: seq<StreamRequest>, now: UInt64, aggregate: int, k: nat) {
    && k < |requests|
    && (forall i | 0 <= i < k :: Proper(requests[i].totalAmount, requests[i].startTime, requests[i].endTime, now))
    && aggregate + SumAmounts(requests[..k]) <= I128_MAX
    && (var bad := requests[k];
        Proper(bad.totalAmount, bad.startTime, bad.endTime, now) ==>
          aggregate + SumAmounts(requests[..k]) + bad.totalAmount > I128_MAX)
  }

  lemma {:induction false} ProperSumsNonNegative(requests: seq<StreamRequest>, now: UInt64)
    requires forall i | 0 <= i < |requests| ::
               Proper(requests[i].totalAmount, requests[i].startTime, requests[i].endTime, now)
    ensures SumAmounts(requests) >= 0
  {
    AllValidIff(requests, now);
    ValidateBatchIff(requests, now, 0);
  }

  lemma {:induction false} FirstBadDecides(requests: seq<StreamRequest>, now: UInt64, aggregate: Int128, k: nat)
    requires 0 <= aggregate && FirstBad(requests, now, aggregate, k)
    ensures
      var bad := requests[k];
      ValidateBatch(requests, now, aggregate) ==
        Err(if bad.totalAmount < 1 then InvalidAmount
            else if bad.endTime <= bad.startTime then InvalidTimeRange
            else if bad.endTime <= now then EndTimeInPast
            else Overflow)
    decreases k
  {
    if k > 0 {
      var rest := requests[1..];
      assert requests[..k][1..] == rest[..k - 1];
      assert rest[k - 1] == requests[k];
      forall i | 0 <= i < k - 1
        ensures Proper(rest[i].totalAmount, rest[i].startTime, rest[i].endTime, now)
      {
        assert rest[i] == requests[i + 1];
      }
      ProperSumsNonNegative(rest[..k - 1], now);
      FirstBadDecides(rest, now, aggregate + requests[0].totalAmount, k - 1);
    }
  }

  lemma {:induction false} FirstBadExists(requests: seq<StreamRequest>, now: UInt64, aggregate: Int128)
    returns (k: nat)
    requires 0 <= aggregate && ValidateBatch(requests, now, aggregate).Err?
    ensures FirstBad(requests, now, aggregate, k)
  {
    var first, rest := requests[0], requests[1..];
    if !Proper(first.totalAmount, first.startTime, first.endTime, now) || aggregate + first.totalAmount > I128_MAX {
      k := 0;
    } else {
      var j := FirstBadExists(rest, now, aggregate + first.totalAmount);
      k := j + 1;
      assert requests[..k][1..] == rest[..j];
      forall i | 0 <= i < k
        ensures Proper(requests[i].totalAmount, requests[i].startTime, requests[i].endTime, now)
      {
        assert i == 0 || requests[i] == rest[i - 1];
      }
    }
  }

  /** A batch answers for the first request at fault; only when there is none do the
      ids and then the balances matter. */
  lemma {:induction false} BatchFaults(s: State, auth: set<Address>, sender: Address, requests: Requests)
    requires WellFormed(s) && s.admin.Some? && Authorized(auth, sender)
    ensures
      var r := CreateStreamBatch(s, auth, sender, requests);
      && (r == Reject(EmptyBatch) <==> requests == [])
      && (forall k: nat | FirstBad(requests, s.now, 0, k) ::
            var bad := requests[k];
            r == Reject(if bad.totalAmount < 1 then InvalidAmount
                        else if bad.endTime <= bad.startTime then InvalidTimeRange
                        else if bad.endTime <= s.now then EndTimeInPast
                        else Overflow))
      && (requests != [] && (forall k: nat :: !FirstBad(requests, s.now, 0, k)) ==>
            && (r == Reject(Overflow) <==> s.counter + |requests| > U64_MAX)
            && (r == Failed(TransferTrap) <==>
                  && s.counter + |requests| <= U64_MAX
                  && (|| SumAmounts(requests) > BalanceOf(s.balances, sender)
                      || BalanceOf(s.balances, Contract) + SumAmounts(requests) > I128_MAX)))
  {
    forall k: nat | FirstBad(requests, s.now, 0, k)
      ensures ValidateBatch(requests, s.now, 0) ==
              Err(if requests[k].totalAmount < 1 then InvalidAmount
                  else if requests[k].endTime <= requests[k].startTime then InvalidTimeRange
                  else if requests[k].endTime <= s.now then EndTimeInPast
                  else Overflow)
    {
      FirstBadDecides(requests, s.now, 0, k);
    }
    ValidateBatchIff(requests, s.now, 0);
    if ValidateBatch(requests, s.now, 0).Err? {
      var k := FirstBadExists(requests, s.now, 0);
      assert FirstBad(requests, s.now, 0, k);
    } else {
      TransferIff(s.balances, sender, Contract, SumAmounts(requests));
    }
  }

  // ---- Changing streams ------------------------------------------------------

  lemma TopUpFaults(s: State, auth: set<Address>, id: UInt64, sender: Address, amount: Int128)
    requires WellFormed(s) && Authorized(auth, sender)
    ensures
      var r := TopUp(s, auth, id, sender, amount);
      && (r == Reject(InvalidAmount) <==> amount < 1)
      && (r == Reject(StreamNotFound) <==> 1 <= amount && s.counter <= id)
      && (1 <= amount && id < s.counter ==>
            var stream := s.streams[id];
            && (r == Reject(Unauthorized) <==> sender != stream.sender)
            && (r == Reject(StreamNotActive) <==> sender == stream.sender && stream.status != Active)
            && (sender == stream.sender && stream.status == Active ==>
                  && (r == Reject(Overflow) <==>
                        stream.total + amount > I128_MAX || s.totalSupply + amount > I128_MAX)
                  && (stream.total + amount <= I128_MAX ==>
                        && (r == Reject(SupplyCapExceeded) <==>
                              s.supplyCap < s.totalSupply + amount <= I128_MAX)
                        && (r == Failed(TransferTrap) <==>
                              && s.totalSupply + amount <= s.supplyCap
                              && (|| amount > BalanceOf(s.balances, sender)
                                  || BalanceOf(s.balances, Contract) + amount > I128_MAX)))))
  {
    TransferIff(s.balances, sender, Contract, amount);
  }

  lemma ExtendFaults(s: State, auth: set<Address>, id: UInt64, sender: Address, newEnd: UInt64)
    requires WellFormed(s) && Authorized(auth, sender)
    ensures
      var r := ExtendStream(s, auth, id, sender, newEnd);
      && (r == Reject(StreamNotFound) <==> s.counter <= id)
      && (id < s.counter ==>
            var stream := s.streams[id];
            && (r == Reject(Unauthorized) <==> sender != stream.sender)
            && (r == Reject(StreamNotActive) <==> sender == stream.sender && stream.status != Active)
            && (r == Reject(InvalidTimeRange) <==>
                  sender == stream.sender && stream.status == Active && newEnd <= stream.end))
  {
  }

  /** The faults of an authorized withdrawal are told apart by facts of the stream and
      of two balances; the additions inside the call never overflow, and where no more
      is withdrawn than has vested, "nothing to withdraw" means exactly that much is. */
  lemma WithdrawFaults(s: State, auth: set<Address>, id: UInt64, recipient: Address)
    requires WellFormed(s) && Authorized(auth, recipient)
    ensures
      var r := Withdraw(s, auth, id, recipient);
      && (r == Reject(StreamNotFound) <==> s.counter <= id)
      && (id < s.counter ==>
            var stream := s.streams[id];
            var due := Accrued(stream, s.now) - stream.withdrawn;
            && (r == Reject(Unauthorized) <==> recipient != stream.recipient)
            && (recipient == stream.recipient ==>
                  && (r == Reject(AlreadyCancelled) <==> stream.status == Cancelled)
                  && (r == Reject(AlreadyCompleted) <==> stream.status == Completed)
                  && (stream.status == Active ==>
                        && (r == Reject(Overflow) <==> Overflows(stream, s.now))
                        && (r == Reject(NothingToWithdraw) <==> !Overflows(stream, s.now) && due <= 0)
                        && (r == Failed(TransferTrap) <==>
                              && !Overflows(stream, s.now) && 0 < due
                              && (|| due > BalanceOf(s.balances, Contract)
                                  || BalanceOf(s.balances, recipient) + due > I128_MAX)))))
    ensures
      id < s.counter && s.streams[id].withdrawn <= Accrued(s.streams[id], s.now) &&
      Withdraw(s, auth, id, recipient) == Reject(NothingToWithdraw) ==>
        s.streams[id].withdrawn == Accrued(s.streams[id], s.now)
  {
    WithdrawIs(s, auth, id, recipient);
    if id < s.counter {
      VestedRefinesAccrued(s.streams[id], s.now);
      AccruedFull(s.streams[id], s.now);
    }
  }

  /** An authorized cancellation has five faults at most. */
  lemma CancelFaults(s: State, auth: set<Address>, id: UInt64, caller: Address)
    requires WellFormed(s) && Authorized(auth, caller)
    ensures
      var r := Cancel(s, auth, id, caller);
      && (r == Reject(StreamNotFound) <==> s.counter <= id)
      && (id < s.counter ==>
            var stream := s.streams[id];
            var due := Accrued(stream, s.now) - stream.withdrawn;
            && (r == Reject(Unauthorized) <==> caller != stream.sender && caller != stream.recipient)
            && (caller == stream.sender || caller == stream.recipient ==>
                  && (r == Reject(AlreadyCancelled) <==> stream.status == Cancelled)
                  && (stream.status != Cancelled ==>
                        && (r == Reject(Overflow) <==> Overflows(stream, s.now))
                        && (r == Failed(TransferTrap) <==>
                              && !Overflows(stream, s.now)
                              && !CanPay(s.balances, stream, if due > 0 then due else 0,
                                         stream.total - Accrued(stream, s.now))))))
  {
    hide CanPay, PayOut;
    CanCancelIff(s, auth, id, caller);
    if id < s.counter {
      VestedRefinesAccrued(s.streams[id], s.now);
      UnvestedComplementsVested(s.streams[id], s.now);
      AccruedFull(s.streams[id], s.now);
    }
  }

  // ---- Answers that cannot be had --------------------------------------------

  /** No call ever answers `AmountBelowMinimum`: the validity check before it already
      rejects every amount below the minimum. */
  lemma {:induction false} NeverBelowMinimum(s: State, auth: set<Address>, call: Call)
    ensures Apply(s, auth, call) != Reject(AmountBelowMinimum)
  {
    match call {
      case DoCreateStreamBatch(_, requests) =>
        if ValidateBatch(requests, s.now, 0).Err? {
          var k := FirstBadExists(requests, s.now, 0);
          FirstBadDecides(requests, s.now, 0, k);
        }
      case _ =>
    }
  }

  /** Before initialization nothing but initializing succeeds. Calls that name no
      stream answer `NotInitialized`; those that name one never do. */
  lemma NothingBeforeInitialization(s: State, auth: set<Address>, call: Call)
    requires WellFormed(s) && s.admin.None?
    ensures Apply(s, auth, call).Done? <==> call.DoInitialize?
    ensures Apply(s, auth, call) == Reject(NotInitialized) <==>
            !call.DoInitialize? && Target(Invoke(auth, call)) == None
  {
    hide Settle, Vested, Withdrawable, ValidateBatch, OpenAll;
  }
}
