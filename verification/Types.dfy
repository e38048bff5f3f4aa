/** The contract's data: streams, requests, errors, events and limits. */
module Types {
  import opened Arithmetic

  // The contract's own account is set apart from every other account.
  datatype Address = Contract | Account(key: nat)

  datatype Status = Active | Cancelled | Completed

  datatype Stream = Stream(
    sender: Address,
    recipient: Address,
    total: Int128,
    withdrawn: Int128,
    start: UInt64,
    end: UInt64,
    status: Status)

  datatype StreamRequest = StreamRequest(
    recipient: Address,
    totalAmount: Int128,
    startTime: UInt64,
    endTime: UInt64)

  // A host vector is indexed by a 32-bit counter.
  type Requests = r: seq<StreamRequest> | |r| <= U32_MAX

  datatype StreamSummary = StreamSummary(
    total: Int128,
    vested: Int128,
    withdrawn: Int128,
    withdrawable: Int128,
    progressBps: UInt32,
    status: Status)

  datatype Error =
    | AlreadyInitialized
    | NotInitialized
    | StreamNotFound
    | InvalidAmount
    | InvalidTimeRange
    | Unauthorized
    | Overflow
    | AlreadyCancelled
    | NothingToWithdraw
    | AlreadyCompleted
    | EndTimeInPast
    | AmountBelowMinimum
    | StreamNotActive
    | NoPendingAdminAction
    | TimelockNotExpired
    | InvalidAdminAction
    | SupplyCapExceeded
    | EmptyBatch

  // A call ends early either with an error the contract returns, or because a
  // host function (`require_auth`, the token's `transfer`) traps.
  datatype Fault = Returned(error: Error) | AuthTrap | TransferTrap

  datatype Event =
    | AdminScheduled(currentAdmin: Address, pendingAdmin: Address, executeAfter: UInt64)
    | AdminTransfer(previousAdmin: Address, newAdmin: Address)
    | AdminCancelled(admin: Address)
    | AdminSet(oldAdmin: Address, newAdmin: Address)
    | CapAdmin(admin: Address, oldCap: Int128, newCap: Int128)
    | Created(id: UInt64, sender: Address, recipient: Address, total: Int128)
    | ToppedUp(id: UInt64, sender: Address, amount: Int128, newTotal: Int128)
    | Extended(id: UInt64, sender: Address, oldEnd: UInt64, newEnd: UInt64)
    | Withdrawn(id: UInt64, recipient: Address, amount: Int128)
    | StreamCancelled(id: UInt64, caller: Address, senderRefund: Int128, recipientPaid: Int128)

  const MIN_STREAM_AMOUNT: Int128 := 1
  const MIN_VALID_AMOUNT: Int128 := 1
  const ADMIN_TIMELOCK_DELAY: UInt64 := 86_400
  const DEFAULT_SUPPLY_CAP: Int128 := I128_MAX
  const START_NOW: UInt64 := 0

  predicate IsValidAmount(amount: Int128) {
    amount >= MIN_VALID_AMOUNT && amount >= MIN_STREAM_AMOUNT
  }
}
