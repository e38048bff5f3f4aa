/** The contract as a state machine: what each entrypoint answers and leaves
    behind, and the runs made of calls, clock ticks and outside token transfers.

    A call that fails, in either way, leaves every part of the state as it was:
    the host rolls the invocation back. */
module Machine {
  import opened Arithmetic
  import opened Token
  import opened Types
  import opened Vesting
  import opened Wrappers

  datatype State = State(
    admin: Option<Address>,
    token: Option<Address>,
    pendingAdmin: Option<Address>,
    executeAfter: Option<UInt64>,
    counter: UInt64,
    totalSupply: Int128,
    supplyCap: Int128,
    streams: map<UInt64, Stream>,
    balances: Ledger,
    events: seq<Event>,
    now: UInt64)

  datatype Value =
    | Nothing
    | StreamId(id: UInt64)
    | StreamIds(ids: seq<UInt64>)
    | Amount(amount: Int128)
    | Timestamp(time: UInt64)

  datatype Outcome = Done(state: State, value: Value) | Failed(fault: Fault)

  function Reject(error: Error): Outcome {
    Failed(Returned(error))
  }

  // The contract calls no one who would call it back, so no invocation ever
  // carries the contract's own authorization.
  predicate Authorized(auth: set<Address>, account: Address) {
    account in auth && account != Contract
  }

  function WriteStream(s: State, id: UInt64, stream: Stream): State {
    s.(streams := s.streams[id := stream])
  }

  function Publish(s: State, event: Event): State {
    s.(events := s.events + [event])
  }

  // ---- Administration ------------------------------------------------------

  function Initialize(s: State, admin: Address, token: Address): Outcome {
    if s.admin.Some? then Reject(AlreadyInitialized)
    else
      Done(s.(admin := Some(admin), token := Some(token), counter := 0, totalSupply := 0,
              supplyCap := DEFAULT_SUPPLY_CAP), Nothing)
  }

  function ScheduleAdminTransfer(s: State, auth: set<Address>, admin: Address, newAdmin: Address): Outcome {
    if s.admin.None? then Reject(NotInitialized)
    else if !Authorized(auth, admin) then Failed(AuthTrap)
    else if admin != s.admin.value then Reject(Unauthorized)
    else if newAdmin == admin then Reject(InvalidAdminAction)
    else
      match CheckedU64(s.now + ADMIN_TIMELOCK_DELAY)
      case None => Reject(Overflow)
      case Some(executeAfter) =>
        var scheduled := s.(pendingAdmin := Some(newAdmin), executeAfter := Some(executeAfter));
        Done(Publish(scheduled, AdminScheduled(admin, newAdmin, executeAfter)), Timestamp(executeAfter))
  }

  function ExecuteAdminTransfer(s: State): Outcome {
    if s.admin.None? then Reject(NotInitialized)
    else if s.pendingAdmin.None? || s.executeAfter.None? then Reject(NoPendingAdminAction)
    else if s.now < s.executeAfter.value then Reject(TimelockNotExpired)
    else
      var executed := s.(admin := s.pendingAdmin, pendingAdmin := None, executeAfter := None);
      Done(Publish(executed, AdminTransfer(s.admin.value, s.pendingAdmin.value)), Nothing)
  }

  function CancelAdminTransfer(s: State, auth: set<Address>, admin: Address): Outcome {
    if s.admin.None? then Reject(NotInitialized)
    else if !Authorized(auth, admin) then Failed(AuthTrap)
    else if admin != s.admin.value then Reject(Unauthorized)
    else if s.pendingAdmin.None? then Reject(NoPendingAdminAction)
    else Done(Publish(s.(pendingAdmin := None, executeAfter := None), AdminCancelled(admin)), Nothing)
  }

  function SetAdmin(s: State, auth: set<Address>, newAdmin: Address): Outcome {
    if s.admin.None? then Reject(NotInitialized)
    else if !Authorized(auth, s.admin.value) then Failed(AuthTrap)
    else Done(Publish(s.(admin := Some(newAdmin)), AdminSet(s.admin.value, newAdmin)), Nothing)
  }

  function SetSupplyCap(s: State, auth: set<Address>, newCap: Int128): Outcome {
    if s.admin.None? then Reject(NotInitialized)
    else if !Authorized(auth, s.admin.value) then Failed(AuthTrap)
    else if newCap <= 0 then Reject(InvalidAmount)
    else Done(Publish(s.(supplyCap := newCap), CapAdmin(s.admin.value, s.supplyCap, newCap)), Nothing)
  }

  // ---- Opening streams -----------------------------------------------------

  function NewStream(sender: Address, request: StreamRequest): Stream {
    Stream(sender, request.recipient, request.totalAmount, 0, request.startTime, request.endTime, Active)
  }

  // The checks every request goes through, in order.
  function RequestFault(request: StreamRequest, now: UInt64): Option<Error> {
    if !IsValidAmount(request.totalAmount) then Some(InvalidAmount)
    else if request.totalAmount < MIN_STREAM_AMOUNT then Some(AmountBelowMinimum)
    else if request.endTime <= request.startTime then Some(InvalidTimeRange)
    else if request.endTime <= now then Some(EndTimeInPast)
    else None
  }

  function CreateStream(s: State, auth: set<Address>, sender: Address, request: StreamRequest): (r: Outcome)
    ensures r.Done? ==> r.value == StreamId(s.counter)
  {
    if s.admin.None? then Reject(NotInitialized)
    else if !Authorized(auth, sender) then Failed(AuthTrap)
    else
      var normalized := request.(startTime := NormalizeStartTime(s.now, request.startTime));
      var amount := request.totalAmount;
      match RequestFault(normalized, s.now)
      case Some(error) => Reject(error)
      case None =>
        match Checked(s.totalSupply + amount)
        case None => Reject(Overflow)
        case Some(newSupply) =>
          if newSupply > s.supplyCap then Reject(SupplyCapExceeded)
          else
            match Transfer(s.balances, sender, Contract, amount)
            case None => Failed(TransferTrap)
            case Some(balances) =>
              match CheckedU64(s.counter + 1)
              case None => Reject(Overflow)
              case Some(next) =>
                var id := s.counter;
                var added := WriteStream(s.(balances := balances, counter := next, totalSupply := newSupply),
                                          id, NewStream(sender, normalized));
                Done(Publish(added, Created(id, sender, request.recipient, amount)), StreamId(id))
  }

  // The validation loop: the first fault of any request, or the running total.
  function ValidateBatch(requests: seq<StreamRequest>, now: UInt64, aggregate: Int128): Result<Int128, Error> {
    if requests == [] then Ok(aggregate)
    else
      match RequestFault(requests[0], now)
      case Some(error) => Err(error)
      case None =>
        match Checked(aggregate + requests[0].totalAmount)
        case None => Err(Overflow)
        case Some(sum) => ValidateBatch(requests[1..], now, sum)
  }

  // The opening loop: one stream and one event a request, under consecutive ids.
  function OpenAll(s: State, sender: Address, requests: seq<StreamRequest>, id: UInt64): State
    requires id + |requests| <= U64_MAX
    decreases |requests|
  {
    if requests == [] then s
    else
      var request := requests[0];
      var added := Publish(WriteStream(s, id, NewStream(sender, request)),
                            Created(id, sender, request.recipient, request.totalAmount));
      OpenAll(added, sender, requests[1..], id + 1)
  }

  function ConsecutiveIds(first: UInt64, count: nat): (ids: seq<UInt64>)
    requires first + count <= U64_MAX
  {
    seq(count, i requires 0 <= i < count => first + i)
  }

  function CreateStreamBatch(s: State, auth: set<Address>, sender: Address, requests: Requests): Outcome {
    if s.admin.None? then Reject(NotInitialized)
    else if !Authorized(auth, sender) then Failed(AuthTrap)
    else if requests == [] then Reject(EmptyBatch)
    else
      match ValidateBatch(requests, s.now, 0)
      case Err(error) => Reject(error)
      case Ok(aggregate) =>
        match CheckedU64(s.counter + |requests|)
        case None => Reject(Overflow)
        case Some(next) =>
          match Transfer(s.balances, sender, Contract, aggregate)
          case None => Failed(TransferTrap)
          case Some(balances) =>
            var added := OpenAll(s.(balances := balances), sender, requests, s.counter);
            Done(added.(counter := next), StreamIds(ConsecutiveIds(s.counter, |requests|)))
  }

  // ---- Changing streams ----------------------------------------------------

  function TopUp(s: State, auth: set<Address>, id: UInt64, sender: Address, amount: Int128): Outcome {
    if !Authorized(auth, sender) then Failed(AuthTrap)
    else if !IsValidAmount(amount) then Reject(InvalidAmount)
    else if id !in s.streams then Reject(StreamNotFound)
    else
      var stream := s.streams[id];
      if sender != stream.sender then Reject(Unauthorized)
      else if stream.status != Active then Reject(StreamNotActive)
      else
        match Checked(stream.total + amount)
        case None => Reject(Overflow)
        case Some(newTotal) =>
          match Checked(s.totalSupply + amount)
          case None => Reject(Overflow)
          case Some(newSupply) =>
            if newSupply > s.supplyCap then Reject(SupplyCapExceeded)
            else
              match Transfer(s.balances, sender, Contract, amount)
              case None => Failed(TransferTrap)
              case Some(balances) =>
                var raised := WriteStream(s.(balances := balances, totalSupply := newSupply),
                                          id, stream.(total := newTotal));
                Done(Publish(raised, ToppedUp(id, sender, amount, newTotal)), Amount(newTotal))
  }

  function ExtendStream(s: State, auth: set<Address>, id: UInt64, sender: Address, newEnd: UInt64): Outcome {
    if !Authorized(auth, sender) then Failed(AuthTrap)
    else if id !in s.streams then Reject(StreamNotFound)
    else
      var stream := s.streams[id];
      if sender != stream.sender then Reject(Unauthorized)
      else if stream.status != Active then Reject(StreamNotActive)
      else if newEnd <= stream.end then Reject(InvalidTimeRange)
      else
        Done(Publish(WriteStream(s, id, stream.(end := newEnd)),
                     Extended(id, sender, stream.end, newEnd)), Nothing)
  }

  // Tracked supply after `released` leaves; an underflow resets it to zero.
  function ReduceSupply(supply: Int128, released: Int128): Int128 {
    match Checked(supply - released)
    case Some(rest) => rest
    case None => 0
  }

  function Withdraw(s: State, auth: set<Address>, id: UInt64, recipient: Address): Outcome {
    if !Authorized(auth, recipient) then Failed(AuthTrap)
    else if id !in s.streams then Reject(StreamNotFound)
    else
      var stream := s.streams[id];
      if stream.recipient != recipient then Reject(Unauthorized)
      else if stream.status == Cancelled then Reject(AlreadyCancelled)
      else if stream.status == Completed then Reject(AlreadyCompleted)
      else
        match Withdrawable(stream, s.now)
        case Err(error) => Reject(error)
        case Ok(available) =>
          if available <= 0 then Reject(NothingToWithdraw)
          else
            match Checked(stream.withdrawn + available)
            case None => Reject(Overflow)
            case Some(withdrawn) =>
              match Transfer(s.balances, Contract, recipient, available)
              case None => Failed(TransferTrap)
              case Some(balances) =>
                var status := if withdrawn >= stream.total then Completed else Active;
                var paid := WriteStream(
                  s.(balances := balances, totalSupply := ReduceSupply(s.totalSupply, available)),
                  id, stream.(withdrawn := withdrawn, status := status));
                Done(Publish(paid, Withdrawn(id, recipient, available)), Amount(available))
  }

  // A payout of nothing, or of a negative amount, is no transfer at all.
  function PayOut(ledger: Ledger, to: Address, amount: Int128): Option<Ledger> {
    if amount > 0 then Transfer(ledger, Contract, to, amount) else Some(ledger)
  }

  // How a cancellation divides a stream. The recipient's share is signed.
  datatype Settlement = Settlement(vested: Int128, recipientPaid: Int128, senderRefund: Int128)

  function Settle(stream: Stream, now: UInt64): Result<Settlement, Error> {
    match Vested(stream, now)
    case Err(error) => Err(error)
    case Ok(vested) =>
      match Checked(vested - stream.withdrawn)
      case None => Err(Overflow)
      case Some(recipientPaid) =>
        match Unvested(stream, now)
        case Err(error) => Err(error)
        case Ok(senderRefund) => Ok(Settlement(vested, recipientPaid, senderRefund))
  }

  function Released(settlement: Settlement): Int128 {
    match Checked(settlement.recipientPaid + settlement.senderRefund)
    case Some(sum) => sum
    case None => settlement.senderRefund
  }

  function Cancel(s: State, auth: set<Address>, id: UInt64, caller: Address): Outcome {
    if !Authorized(auth, caller) then Failed(AuthTrap)
    else if id !in s.streams then Reject(StreamNotFound)
    else
      var stream := s.streams[id];
      if caller != stream.sender && caller != stream.recipient then Reject(Unauthorized)
      else if stream.status == Cancelled then Reject(AlreadyCancelled)
      else
        match Settle(stream, s.now)
        case Err(error) => Reject(error)
        case Ok(settlement) =>
          match PayOut(s.balances, stream.recipient, settlement.recipientPaid)
          case None => Failed(TransferTrap)
          case Some(paid) =>
            match PayOut(paid, stream.sender, settlement.senderRefund)
            case None => Failed(TransferTrap)
            case Some(balances) =>
              var closed := WriteStream(
                s.(balances := balances, totalSupply := ReduceSupply(s.totalSupply, Released(settlement))),
                id, stream.(withdrawn := settlement.vested, status := Cancelled));
              Done(Publish(closed, StreamCancelled(id, caller, settlement.senderRefund, settlement.recipientPaid)),
                   Nothing)
  }

  // ---- Calls and runs ------------------------------------------------------

  datatype Call =
    | DoInitialize(initialAdmin: Address, token: Address)
    | DoScheduleAdminTransfer(admin: Address, newAdmin: Address)
    | DoExecuteAdminTransfer
    | DoCancelAdminTransfer(admin: Address)
    | DoSetAdmin(newAdmin: Address)
    | DoSetSupplyCap(newCap: Int128)
    | DoCreateStream(sender: Address, request: StreamRequest)
    | DoCreateStreamBatch(sender: Address, requests: Requests)
    | DoTopUp(id: UInt64, sender: Address, amount: Int128)
    | DoExtendStream(id: UInt64, sender: Address, newEnd: UInt64)
    | DoWithdraw(id: UInt64, recipient: Address)
    | DoCancel(id: UInt64, caller: Address)

  function Apply(s: State, auth: set<Address>, call: Call): Outcome {
    match call
    case DoInitialize(admin, token) => Initialize(s, admin, token)
    case DoScheduleAdminTransfer(admin, newAdmin) => ScheduleAdminTransfer(s, auth, admin, newAdmin)
    case DoExecuteAdminTransfer => ExecuteAdminTransfer(s)
    case DoCancelAdminTransfer(admin) => CancelAdminTransfer(s, auth, admin)
    case DoSetAdmin(newAdmin) => SetAdmin(s, auth, newAdmin)
    case DoSetSupplyCap(newCap) => SetSupplyCap(s, auth, newCap)
    case DoCreateStream(sender, request) => CreateStream(s, auth, sender, request)
    case DoCreateStreamBatch(sender, requests) => CreateStreamBatch(s, auth, sender, requests)
    case DoTopUp(id, sender, amount) => TopUp(s, auth, id, sender, amount)
    case DoExtendStream(id, sender, newEnd) => ExtendStream(s, auth, id, sender, newEnd)
    case DoWithdraw(id, recipient) => Withdraw(s, auth, id, recipient)
    case DoCancel(id, caller) => Cancel(s, auth, id, caller)
  }

  // What can happen next: an invocation, a later ledger, or a token transfer
  // the contract takes no part in.
  datatype Action =
    | Invoke(auth: set<Address>, call: Call)
    | AdvanceTime(to: UInt64)
    | OutsideTransfer(payer: Address, payee: Address, amount: Int128)

  function Step(s: State, action: Action): State {
    match action
    case Invoke(auth, call) =>
      (match Apply(s, auth, call)
       case Done(next, _) => next
       case Failed(_) => s)
    case AdvanceTime(to) => if to >= s.now then s.(now := to) else s
    case OutsideTransfer(payer, payee, amount) =>
      if payer == Contract then s
      else
        match Transfer(s.balances, payer, payee, amount)
        case Some(balances) => s.(balances := balances)
        case None => s
  }

  function Run(s: State, actions: seq<Action>): State
    decreases |actions|
  {
    if actions == [] then s
    else Step(Run(s, actions[..|actions| - 1]), actions[|actions| - 1])
  }

  // A freshly deployed contract: no key written, every read at its default.
  function Deployed(balances: Ledger, now: UInt64): State {
    State(None, None, None, None, 0, 0, I128_MAX, map[], balances, [], now)
  }

  predicate Succeeds(s: State, action: Action) {
    action.Invoke? && Apply(s, action.auth, action.call).Done?
  }
}
