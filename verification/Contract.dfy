/** The contract itself: storage fields its entrypoints rewrite step by step.
    Every entrypoint is proved against its `Machine` counterpart. */
module StreamPay {
  import opened Arithmetic
  import opened Token
  import opened Types
  import opened Vesting
  import opened Wrappers
  import opened Machine

  type Response = Result<Value, Fault>

  class StreamPayContract {
    // Instance storage.
    var admin: Option<Address>
    var token: Option<Address>
    var pendingAdmin: Option<Address>
    var executeAfter: Option<UInt64>
    var counter: UInt64
    var totalSupply: Int128
    var supplyCap: Int128
    // Persistent storage.
    var streams: map<UInt64, Stream>
    // The host: token balances, the event log and the ledger clock.
    var balances: Ledger
    var events: seq<Event>
    var now: UInt64

    function Snapshot(): State
      reads this
    {
      State(admin, token, pendingAdmin, executeAfter, counter, totalSupply, supplyCap, streams, balances, events, now)
    }

    constructor (balances: Ledger, now: UInt64)
      ensures Snapshot() == Deployed(balances, now)
    {
      admin, token, pendingAdmin, executeAfter := None, None, None, None;
      counter, totalSupply, supplyCap := 0, 0, I128_MAX;
      streams := map[];
      events := [];
      this.balances, this.now := balances, now;
    }

    // ---- Storage, token and event log ------------------------------------

    method WritePendingAdminAction(account: Address, time: UInt64)
      modifies this`pendingAdmin, this`executeAfter
      ensures pendingAdmin == Some(account) && executeAfter == Some(time)
    {
      pendingAdmin := Some(account);
      executeAfter := Some(time);
    }

    method ClearPendingAdminAction()
      modifies this`pendingAdmin, this`executeAfter
      ensures pendingAdmin == None && executeAfter == None
    {
      pendingAdmin := None;
      executeAfter := None;
    }

    method TransferTokens(from: Address, to: Address, amount: Int128) returns (ok: bool)
      modifies this`balances
      ensures ok == Transfer(old(balances), from, to, amount).Some?
      ensures ok ==> Some(balances) == Transfer(old(balances), from, to, amount)
    {
      if amount < 0 || BalanceOf(balances, from) < amount {
        return false;
      }
      balances := balances[from := BalanceOf(balances, from) - amount];
      if BalanceOf(balances, to) + amount > I128_MAX {
        return false;
      }
      balances := balances[to := BalanceOf(balances, to) + amount];
      return true;
    }

    method PayOutTokens(to: Address, amount: Int128) returns (ok: bool)
      modifies this`balances
      ensures ok == PayOut(old(balances), to, amount).Some?
      ensures ok ==> Some(balances) == PayOut(old(balances), to, amount)
    {
      if amount > 0 {
        ok := TransferTokens(Contract, to, amount);
      } else {
        ok := true;
      }
    }

    // ---- Entrypoints -----------------------------------------------------

    // A response and the state a call leaves are the ones the machine gives.
    // What a failing call leaves is undone by the host (see `Serve`).
    static ghost predicate Agrees(r: Response, after: State, expected: Outcome) {
      match expected
      case Done(next, value) => r == Ok(value) && after == next
      case Failed(fault) => r == Err(fault)
    }

    method Initialize(account: Address, tokenAddress: Address) returns (r: Response)
      modifies this
      ensures Agrees(r, Snapshot(), Machine.Initialize(old(Snapshot()), account, tokenAddress))
    {
      if admin.Some? {
        return Err(Returned(AlreadyInitialized));
      }
      admin := Some(account);
      token := Some(tokenAddress);
      counter := 0;
      totalSupply := 0;
      supplyCap := DEFAULT_SUPPLY_CAP;
      return Ok(Nothing);
    }

    method ScheduleAdminTransfer(auth: set<Address>, caller: Address, newAdmin: Address) returns (r: Response)
      modifies this
      ensures Agrees(r, Snapshot(), Machine.ScheduleAdminTransfer(old(Snapshot()), auth, caller, newAdmin))
    {
      if admin.None? {
        return Err(Returned(NotInitialized));
      }
      if !Authorized(auth, caller) {
        return Err(AuthTrap);
      }
      if caller != admin.value {
        return Err(Returned(Unauthorized));
      }
      if newAdmin == caller {
        return Err(Returned(InvalidAdminAction));
      }
      var time := CheckedU64(now + ADMIN_TIMELOCK_DELAY);
      if time.None? {
        return Err(Returned(Overflow));
      }
      WritePendingAdminAction(newAdmin, time.value);
      events := events + [AdminScheduled(caller, newAdmin, time.value)];
      return Ok(Timestamp(time.value));
    }

    method ExecuteAdminTransfer() returns (r: Response)
      modifies this
      ensures Agrees(r, Snapshot(), Machine.ExecuteAdminTransfer(old(Snapshot())))
    {
      if admin.None? {
        return Err(Returned(NotInitialized));
      }
      if pendingAdmin.None? || executeAfter.None? {
        return Err(Returned(NoPendingAdminAction));
      }
      if now < executeAfter.value {
        return Err(Returned(TimelockNotExpired));
      }
      var previous, next := admin.value, pendingAdmin.value;
      admin := Some(next);
      ClearPendingAdminAction();
      events := events + [AdminTransfer(previous, next)];
      return Ok(Nothing);
    }

    method CancelAdminTransfer(auth: set<Address>, caller: Address) returns (r: Response)
      modifies this
      ensures Agrees(r, Snapshot(), Machine.CancelAdminTransfer(old(Snapshot()), auth, caller))
    {
      if admin.None? {
        return Err(Returned(NotInitialized));
      }
      if !Authorized(auth, caller) {
        return Err(AuthTrap);
      }
      if caller != admin.value {
        return Err(Returned(Unauthorized));
      }
      if pendingAdmin.None? {
        return Err(Returned(NoPendingAdminAction));
      }
      ClearPendingAdminAction();
      events := events + [AdminCancelled(caller)];
      return Ok(Nothing);
    }

    method SetAdmin(auth: set<Address>, newAdmin: Address) returns (r: Response)
      modifies this
      ensures Agrees(r, Snapshot(), Machine.SetAdmin(old(Snapshot()), auth, newAdmin))
    {
      if admin.None? {
        return Err(Returned(NotInitialized));
      }
      var current := admin.value;
      if !Authorized(auth, current) {
        return Err(AuthTrap);
      }
      admin := Some(newAdmin);
      events := events + [AdminSet(current, newAdmin)];
      return Ok(Nothing);
    }

    method SetSupplyCap(auth: set<Address>, newCap: Int128) returns (r: Response)
      modifies this
      ensures Agrees(r, Snapshot(), Machine.SetSupplyCap(old(Snapshot()), auth, newCap))
    {
      if admin.None? {
        return Err(Returned(NotInitialized));
      }
      if !Authorized(auth, admin.value) {
        return Err(AuthTrap);
      }
      if newCap <= 0 {
        return Err(Returned(InvalidAmount));
      }
      var oldCap := supplyCap;
      supplyCap := newCap;
      events := events + [CapAdmin(admin.value, oldCap, newCap)];
      return Ok(Nothing);
    }

    method CreateStream(auth: set<Address>, sender: Address, recipient: Address, totalAmount: Int128,
                        startTime: UInt64, endTime: UInt64) returns (r: Response)
      modifies this
      ensures Agrees(r, Snapshot(), Machine.CreateStream(old(Snapshot()), auth, sender,
                     StreamRequest(recipient, totalAmount, startTime, endTime)))
    {
      hide Transfer;
      if admin.None? {
        return Err(Returned(NotInitialized));
      }
      if !Authorized(auth, sender) {
        return Err(AuthTrap);
      }
      var start := NormalizeStartTime(now, startTime);
      if !IsValidAmount(totalAmount) {
        return Err(Returned(InvalidAmount));
      }
      if totalAmount < MIN_STREAM_AMOUNT {
        return Err(Returned(AmountBelowMinimum));
      }
      if endTime <= start {
        return Err(Returned(InvalidTimeRange));
      }
      if endTime <= now {
        return Err(Returned(EndTimeInPast));
      }
      var newSupply := Checked(totalSupply + totalAmount);
      if newSupply.None? {
        return Err(Returned(Overflow));
      }
      if newSupply.value > supplyCap {
        return Err(Returned(SupplyCapExceeded));
      }
      var moved := TransferTokens(sender, Contract, totalAmount);
      if !moved {
        return Err(TransferTrap);
      }
      var id := counter;
      var next := CheckedU64(id as int + 1);
      if next.None? {
        return Err(Returned(Overflow));
      }
      streams := streams[id := Stream(sender, recipient, totalAmount, 0, start, endTime, Active)];
      counter := next.value;
      totalSupply := newSupply.value;
      events := events + [Created(id, sender, recipient, totalAmount)];
      return Ok(StreamId(id));
    }

    // The second loop: store and announce every stream under consecutive ids.
    method OpenRequests(sender: Address, requests: Requests, first: UInt64) returns (ids: seq<UInt64>)
      requires first + |requests| <= U64_MAX
      modifies this`streams, this`events
      ensures Snapshot() == OpenAll(old(Snapshot()), sender, requests, first)
      ensures ids == ConsecutiveIds(first, |requests|)
    {
      ids := [];
      var index: UInt32 := 0;
      assert requests[0..] == requests;
      while index < |requests|
        invariant index <= |requests| && ids == ConsecutiveIds(first, index)
        invariant OpenAll(Snapshot(), sender, requests[index..], first + index) ==
                  OpenAll(old(Snapshot()), sender, requests, first)
      {
        var request := requests[index];
        var id := first + index;
        streams := streams[id := Stream(sender, request.recipient, request.totalAmount, 0,
                                        request.startTime, request.endTime, Active)];
        events := events + [Created(id, sender, request.recipient, request.totalAmount)];
        ids := ids + [id];
        assert requests[index..][1..] == requests[index + 1..];
        index := index + 1;
      }
    }

    // The first loop of a batch: check every request and add up the amounts.
    method ValidateRequests(requests: Requests) returns (r: Result<Int128, Error>)
      ensures r == ValidateBatch(requests, now, 0)
    {
      var aggregate: Int128 := 0;
      var index: UInt32 := 0;
      while index < |requests|
        invariant index <= |requests|
        invariant ValidateBatch(requests[index..], now, aggregate) == ValidateBatch(requests, now, 0)
      {
        var request := requests[index];
        if !IsValidAmount(request.totalAmount) {
          return Err(InvalidAmount);
        }
        if request.totalAmount < MIN_STREAM_AMOUNT {
          return Err(AmountBelowMinimum);
        }
        if request.endTime <= request.startTime {
          return Err(InvalidTimeRange);
        }
        if request.endTime <= now {
          return Err(EndTimeInPast);
        }
        var sum := Checked(aggregate + request.totalAmount);
        if sum.None? {
          return Err(Overflow);
        }
        assert requests[index..][1..] == requests[index + 1..];
        aggregate := sum.value;
        index := index + 1;
      }
      return Ok(aggregate);
    }

    method CreateStreamBatch(auth: set<Address>, sender: Address, requests: Requests) returns (r: Response)
      modifies this
      ensures Agrees(r, Snapshot(), Machine.CreateStreamBatch(old(Snapshot()), auth, sender, requests))
    {
      hide Transfer, ValidateBatch, OpenAll;
      if admin.None? {
        return Err(Returned(NotInitialized));
      }
      if !Authorized(auth, sender) {
        return Err(AuthTrap);
      }
      if |requests| == 0 {
        return Err(Returned(EmptyBatch));
      }

      var aggregate := ValidateRequests(requests);
      if aggregate.Err? {
        return Err(Returned(aggregate.error));
      }
      var first := counter;
      var next := CheckedU64(first as int + |requests|);
      if next.None? {
        return Err(Returned(Overflow));
      }
      var moved := TransferTokens(sender, Contract, aggregate.value);
      if !moved {
        return Err(TransferTrap);
      }
      var ids := OpenRequests(sender, requests, first);
      counter := next.value;
      return Ok(StreamIds(ids));
    }

    method TopUp(auth: set<Address>, id: UInt64, sender: Address, amount: Int128) returns (r: Response)
      modifies this
      ensures Agrees(r, Snapshot(), Machine.TopUp(old(Snapshot()), auth, id, sender, amount))
    {
      hide Transfer;
      if !Authorized(auth, sender) {
        return Err(AuthTrap);
      }
      if !IsValidAmount(amount) {
        return Err(Returned(InvalidAmount));
      }
      if id !in streams {
        return Err(Returned(StreamNotFound));
      }
      var stream := streams[id];
      if sender != stream.sender {
        return Err(Returned(Unauthorized));
      }
      if stream.status != Active {
        return Err(Returned(StreamNotActive));
      }
      var newTotal := Checked(stream.total + amount);
      if newTotal.None? {
        return Err(Returned(Overflow));
      }
      var newSupply := Checked(totalSupply + amount);
      if newSupply.None? {
        return Err(Returned(Overflow));
      }
      if newSupply.value > supplyCap {
        return Err(Returned(SupplyCapExceeded));
      }
      var moved := TransferTokens(sender, Contract, amount);
      if !moved {
        return Err(TransferTrap);
      }
      stream := stream.(total := newTotal.value);
      streams := streams[id := stream];
      totalSupply := newSupply.value;
      events := events + [ToppedUp(id, sender, amount, newTotal.value)];
      return Ok(Amount(newTotal.value));
    }

    method ExtendStream(auth: set<Address>, id: UInt64, sender: Address, newEnd: UInt64) returns (r: Response)
      modifies this
      ensures Agrees(r, Snapshot(), Machine.ExtendStream(old(Snapshot()), auth, id, sender, newEnd))
    {
      if !Authorized(auth, sender) {
        return Err(AuthTrap);
      }
      if id !in streams {
        return Err(Returned(StreamNotFound));
      }
      var stream := streams[id];
      if sender != stream.sender {
        return Err(Returned(Unauthorized));
      }
      if stream.status != Active {
        return Err(Returned(StreamNotActive));
      }
      if newEnd <= stream.end {
        return Err(Returned(InvalidTimeRange));
      }
      var oldEnd := stream.end;
      stream := stream.(end := newEnd);
      streams := streams[id := stream];
      events := events + [Extended(id, sender, oldEnd, newEnd)];
      return Ok(Nothing);
    }

    method Withdraw(auth: set<Address>, id: UInt64, recipient: Address) returns (r: Response)
      modifies this
      ensures Agrees(r, Snapshot(), Machine.Withdraw(old(Snapshot()), auth, id, recipient))
    {
      hide Transfer, Withdrawable;
      if !Authorized(auth, recipient) {
        return Err(AuthTrap);
      }
      if id !in streams {
        return Err(Returned(StreamNotFound));
      }
      var stream := streams[id];
      if stream.recipient != recipient {
        return Err(Returned(Unauthorized));
      }
      if stream.status == Cancelled {
        return Err(Returned(AlreadyCancelled));
      }
      if stream.status == Completed {
        return Err(Returned(AlreadyCompleted));
      }
      var available := Withdrawable(stream, now);
      if available.Err? {
        return Err(Returned(available.error));
      }
      if available.value <= 0 {
        return Err(Returned(NothingToWithdraw));
      }
      var withdrawn := Checked(stream.withdrawn + available.value);
      if withdrawn.None? {
        return Err(Returned(Overflow));
      }
      stream := stream.(withdrawn := withdrawn.value);
      if stream.withdrawn >= stream.total {
        stream := stream.(status := Completed);
      }
      streams := streams[id := stream];
      var moved := TransferTokens(Contract, recipient, available.value);
      if !moved {
        return Err(TransferTrap);
      }
      totalSupply := ReduceSupply(totalSupply, available.value);
      events := events + [Withdrawn(id, recipient, available.value)];
      return Ok(Amount(available.value));
    }

    method Cancel(auth: set<Address>, id: UInt64, caller: Address) returns (r: Response)
      modifies this
      ensures Agrees(r, Snapshot(), Machine.Cancel(old(Snapshot()), auth, id, caller))
    {
      hide PayOut, Settle;
      if !Authorized(auth, caller) {
        return Err(AuthTrap);
      }
      if id !in streams {
        return Err(Returned(StreamNotFound));
      }
      var stream := streams[id];
      if caller != stream.sender && caller != stream.recipient {
        return Err(Returned(Unauthorized));
      }
      if stream.status == Cancelled {
        return Err(Returned(AlreadyCancelled));
      }
      var settled := Settle(stream, now);
      if settled.Err? {
        return Err(Returned(settled.error));
      }
      var settlement := settled.value;
      stream := stream.(withdrawn := settlement.vested, status := Cancelled);
      streams := streams[id := stream];
      var moved := PayOutTokens(stream.recipient, settlement.recipientPaid);
      if !moved {
        return Err(TransferTrap);
      }
      moved := PayOutTokens(stream.sender, settlement.senderRefund);
      if !moved {
        return Err(TransferTrap);
      }
      totalSupply := ReduceSupply(totalSupply, Released(settlement));
      events := events + [StreamCancelled(id, caller, settlement.senderRefund, settlement.recipientPaid)];
      return Ok(Nothing);
    }

    // ---- The host ----------------------------------------------------------

    method Restore(saved: State)
      modifies this
      ensures Snapshot() == saved
    {
      admin, token := saved.admin, saved.token;
      pendingAdmin, executeAfter := saved.pendingAdmin, saved.executeAfter;
      counter, totalSupply, supplyCap := saved.counter, saved.totalSupply, saved.supplyCap;
      streams, balances, events, now := saved.streams, saved.balances, saved.events, saved.now;
    }

    /** One invocation as the host runs it: the entrypoint, and a rollback of
        everything it wrote if it did not answer `Ok`. */
    method Serve(auth: set<Address>, call: Call) returns (r: Response)
      modifies this
      ensures Snapshot() == Step(old(Snapshot()), Invoke(auth, call))
      ensures r.Ok? <==> Succeeds(old(Snapshot()), Invoke(auth, call))
      ensures r == match Apply(old(Snapshot()), auth, call)
                   case Done(_, value) => Ok(value)
                   case Failed(fault) => Err(fault)
    {
      var saved := Snapshot();
      match call {
        case DoInitialize(account, tokenAddress) => r := Initialize(account, tokenAddress);
        case DoScheduleAdminTransfer(caller, newAdmin) => r := ScheduleAdminTransfer(auth, caller, newAdmin);
        case DoExecuteAdminTransfer => r := ExecuteAdminTransfer();
        case DoCancelAdminTransfer(caller) => r := CancelAdminTransfer(auth, caller);
        case DoSetAdmin(newAdmin) => r := SetAdmin(auth, newAdmin);
        case DoSetSupplyCap(newCap) => r := SetSupplyCap(auth, newCap);
        case DoCreateStream(sender, request) =>
          r := CreateStream(auth, sender, request.recipient, request.totalAmount, request.startTime, request.endTime);
        case DoCreateStreamBatch(sender, requests) => r := CreateStreamBatch(auth, sender, requests);
        case DoTopUp(id, sender, amount) => r := TopUp(auth, id, sender, amount);
        case DoExtendStream(id, sender, newEnd) => r := ExtendStream(auth, id, sender, newEnd);
        case DoWithdraw(id, recipient) => r := Withdraw(auth, id, recipient);
        case DoCancel(id, caller) => r := Cancel(auth, id, caller);
      }
      if r.Err? {
        Restore(saved);
      }
    }
  }
}
