/** The money of one stream, accounted for over a whole run. */
module Accounts {
  import opened Arithmetic
  import opened Escrow
  import opened Machine
  import opened Runs
  import opened StreamTable
  import opened Token
  import opened Types
  import opened Vesting
  import opened Wrappers

  // What a step escrows for stream `id`, whether it exists yet or not.
  function Deposit(id: UInt64): (State, Action) -> int {
    (s: State, action: Action) =>
      if !Succeeds(s, action) then 0
      else
        match action.call
        case DoCreateStream(_, request) => if id == s.counter then request.totalAmount else 0
        case DoCreateStreamBatch(_, requests) =>
          if s.counter <= id < s.counter + |requests| then requests[id - s.counter].totalAmount else 0
        case DoTopUp(target, _, amount) => if target == id then amount else 0
        case _ => 0
  }

  // What a step pays out of stream `id`, to its recipient and its sender.
  function Payout(id: UInt64): (State, Action) -> int {
    (s: State, action: Action) =>
      if !Succeeds(s, action) || id !in s.streams || !Sound(s.streams[id]) then 0
      else
        var stream := s.streams[id];
        var accrued := Accrued(stream, s.now);
        match action.call
        case DoWithdraw(target, _) => if target == id then accrued - stream.withdrawn else 0
        case DoCancel(target, _) =>
          if target == id then Positive(accrued - stream.withdrawn) + Positive(stream.total - accrued) else 0
        case _ => 0
  }

  // The part of such a payout the stream had no escrow for.
  function Overdraft(id: UInt64): (State, Action) -> int {
    (s: State, action: Action) => if Target(action) == Some(id) then Overpaid(s, action) else 0
  }

  function HeldAt(s: State, id: UInt64): int {
    if id in s.streams then Held(s.streams[id]) else 0
  }

  lemma OpeningAccount(s: State, auth: set<Address>, call: Call, id: UInt64)
    requires WellFormed(s) && Succeeds(s, Invoke(auth, call))
    requires call.DoCreateStream? || call.DoCreateStreamBatch?
    ensures HeldAt(Apply(s, auth, call).state, id) == HeldAt(s, id) + Deposit(id)(s, Invoke(auth, call))
  {
    if call.DoCreateStreamBatch? {
      BatchOpens(s, auth, call.sender, call.requests);
    }
  }

  lemma PayoutAccount(s: State, auth: set<Address>, call: Call, id: UInt64)
    requires WellFormed(s) && Succeeds(s, Invoke(auth, call))
    requires call.DoWithdraw? || call.DoCancel?
    ensures
      var action := Invoke(auth, call);
      HeldAt(Apply(s, auth, call).state, id) ==
        HeldAt(s, id) - Payout(id)(s, action) + Overdraft(id)(s, action)
  {
    hide Withdraw, Cancel;
    if call.DoWithdraw? {
      WithdrawRewrites(s, auth, call.id, call.recipient);
    } else {
      CancelRewrites(s, auth, call.id, call.caller);
    }
    AccruedFull(s.streams[call.id], s.now);
  }

  lemma CallAccount(s: State, auth: set<Address>, call: Call, id: UInt64)
    requires WellFormed(s) && Succeeds(s, Invoke(auth, call)) && !IsAdminCall(call)
    ensures
      var action := Invoke(auth, call);
      HeldAt(Apply(s, auth, call).state, id) ==
        HeldAt(s, id) + Deposit(id)(s, action) - Payout(id)(s, action) + Overdraft(id)(s, action)
  {
    hide CreateStream, CreateStreamBatch, Withdraw, Cancel;
    match call {
      case DoTopUp(target, sender, amount) => TopUpRewrites(s, auth, target, sender, amount);
      case DoExtendStream(target, sender, newEnd) => ExtendRewrites(s, auth, target, sender, newEnd);
      case DoWithdraw(_, _) => PayoutAccount(s, auth, call, id);
      case DoCancel(_, _) => PayoutAccount(s, auth, call, id);
      case _ => OpeningAccount(s, auth, call, id);
    }
  }

  lemma StepAccount(s: State, action: Action, id: UInt64)
    requires WellFormed(s)
    ensures HeldAt(Step(s, action), id) ==
            HeldAt(s, id) + Deposit(id)(s, action) - Payout(id)(s, action) + Overdraft(id)(s, action)
  {
    if action.Invoke? {
      if IsAdminCall(action.call) {
        AdminCallLeavesMoney(s, action.auth, action.call);
      } else if Succeeds(s, action) {
        CallAccount(s, action.auth, action.call, id);
      }
    }
  }

  /** Over a whole run, through cancellation and after it: what was escrowed for a
      stream is what was paid out of it plus what it still holds, less what an
      insolvent cancellation paid beyond its means. */
  lemma {:induction false} StreamAccountBalances(s: State, actions: seq<Action>, id: UInt64)
    requires WellFormed(s)
    ensures HeldAt(s, id) + Total(Deposit(id), s, actions) ==
            HeldAt(Run(s, actions), id) + Total(Payout(id), s, actions) - Total(Overdraft(id), s, actions)
    decreases |actions|
  {
    hide Apply, Overpaid;
    if actions != [] {
      var earlier := actions[..|actions| - 1];
      StreamAccountBalances(s, earlier, id);
      RunWellFormed(s, earlier);
      StepAccount(Run(s, earlier), actions[|actions| - 1], id);
    }
  }

  // ---- What the recipient has received ---------------------------------------

  // What a step pays the recipient of stream `id`, by withdrawal or cancellation.
  function Received(id: UInt64): (State, Action) -> int {
    (s: State, action: Action) =>
      if !Succeeds(s, action) || Target(action) != Some(id) || id !in s.streams || !Sound(s.streams[id]) then 0
      else if action.call.DoWithdraw? || action.call.DoCancel?
      then Positive(Accrued(s.streams[id], s.now) - s.streams[id].withdrawn)
      else 0
  }

  lemma StepReceives(s: State, action: Action, id: UInt64)
    requires WellFormed(s) && id in s.streams
    ensures id in Step(s, action).streams
    ensures Step(s, action).streams[id].withdrawn ==
            s.streams[id].withdrawn + Received(id)(s, action) - Overdraft(id)(s, action)
  {
    hide Withdraw, Cancel;
    StepEvolves(s, action, id);
    if Succeeds(s, action) && Target(action) == Some(id) {
      match action.call {
        case DoTopUp(_, _, _) =>
        case DoExtendStream(_, _, _) =>
        case DoWithdraw(_, recipient) => WithdrawRewrites(s, action.auth, id, recipient);
        case DoCancel(_, caller) => CancelRewrites(s, action.auth, id, caller);
      }
    }
  }

  // A step that pays out of stream `id` really moves tokens: the recipient's balance
  // rises by what it is said to receive, the sender's by the rest.
  ghost predicate PaysInTokens(id: UInt64, s: State, action: Action) {
    Target(action) == Some(id) && id in s.streams && Succeeds(s, action)
    && (action.call.DoWithdraw? || action.call.DoCancel?) ==>
      var stream := s.streams[id];
      var paid, received := Payout(id)(s, action), Received(id)(s, action);
      forall account ::
        BalanceOf(Step(s, action).balances, account) ==
          BalanceOf(s.balances, account)
          + (if account == stream.recipient then received else 0)
          + (if account == stream.sender then paid - received else 0)
          - (if account == Contract then paid else 0)
  }

  lemma WithdrawalPaysInTokens(s: State, auth: set<Address>, id: UInt64, recipient: Address)
    requires WellFormed(s) && Withdraw(s, auth, id, recipient).Done?
    ensures PaysInTokens(id, s, Invoke(auth, DoWithdraw(id, recipient)))
  {
    WithdrawRewrites(s, auth, id, recipient);
    hide Withdraw, Transfer;
    var due := Accrued(s.streams[id], s.now) - s.streams[id].withdrawn;
    TransferIff(s.balances, Contract, recipient, due);
  }

  lemma CancellationPaysInTokens(s: State, auth: set<Address>, id: UInt64, caller: Address)
    requires WellFormed(s) && Cancel(s, auth, id, caller).Done?
    ensures PaysInTokens(id, s, Invoke(auth, DoCancel(id, caller)))
  {
    hide Cancel, PaysBoth;
    CancelRewrites(s, auth, id, caller);
    AccruedFull(s.streams[id], s.now);
  }

  lemma StepPaysInTokens(s: State, action: Action, id: UInt64)
    requires WellFormed(s)
    ensures PaysInTokens(id, s, action)
  {
    if Target(action) == Some(id) && id in s.streams && Succeeds(s, action) {
      if action.call.DoWithdraw? {
        WithdrawalPaysInTokens(s, action.auth, id, action.call.recipient);
      } else if action.call.DoCancel? {
        CancellationPaysInTokens(s, action.auth, id, action.call.caller);
      }
    }
  }

  /** Over every run, through cancellation too, `withdrawn` is what the recipient has
      received, less what the sender was refunded beyond the stream's means; and each
      receipt is a movement of tokens. */
  lemma {:induction false} WithdrawnIsWhatWasReceived(s: State, actions: seq<Action>, id: UInt64)
    requires WellFormed(s) && id in s.streams
    ensures id in Run(s, actions).streams
    ensures Run(s, actions).streams[id].withdrawn ==
            s.streams[id].withdrawn + Total(Received(id), s, actions) - Total(Overdraft(id), s, actions)
    ensures Throughout((x: State, a: Action) => PaysInTokens(id, x, a), s, actions)
    decreases |actions|
  {
    hide Apply, Overpaid, PaysInTokens;
    if actions != [] {
      var earlier := actions[..|actions| - 1];
      WithdrawnIsWhatWasReceived(s, earlier, id);
      RunWellFormed(s, earlier);
      StepReceives(Run(s, earlier), actions[|actions| - 1], id);
      StepPaysInTokens(Run(s, earlier), actions[|actions| - 1], id);
    }
  }

  // The run's last step pays the recipient of stream `id` all that has vested: a
  // withdrawal or a cancellation that succeeds.
  predicate EndsInSettlement(s: State, actions: seq<Action>, id: UInt64) {
    actions != [] &&
    var last := actions[|actions| - 1];
    && Succeeds(Run(s, actions[..|actions| - 1]), last) && Target(last) == Some(id)
    && (last.call.DoWithdraw? || last.call.DoCancel?)
  }

  lemma SettlementPaysAll(s: State, action: Action, id: UInt64)
    requires WellFormed(s) && Succeeds(s, action) && Target(action) == Some(id)
    requires action.call.DoWithdraw? || action.call.DoCancel?
    ensures
      var t := Step(s, action);
      && id in t.streams && Sound(t.streams[id])
      && t.streams[id].withdrawn == Accrued(t.streams[id], t.now)
  {
    hide Withdraw, Cancel;
    if action.call.DoWithdraw? {
      WithdrawRewrites(s, action.auth, id, action.call.recipient);
    } else {
      CancelRewrites(s, action.auth, id, action.call.caller);
    }
  }

  lemma {:induction false} LastSettlementPaysAll(s: State, actions: seq<Action>, id: UInt64)
    requires WellFormed(s) && id in s.streams && EndsInSettlement(s, actions, id)
    ensures
      var t := Run(s, actions);
      && id in t.streams && Sound(t.streams[id])
      && t.streams[id].withdrawn == Accrued(t.streams[id], t.now)
      && t.streams[id].start == s.streams[id].start
  {
    hide Apply;
    var earlier, last := actions[..|actions| - 1], actions[|actions| - 1];
    RunWellFormed(s, earlier);
    RunEvolves(s, actions, id);
    SettlementPaysAll(Run(s, earlier), last, id);
  }

  /** However a stream was paid until then, two runs that settle it at the same time
      with the same total and end, by a withdrawal or a cancellation, have paid its
      recipient the same, net of overdrafts: exactly what has vested. */
  lemma {:induction false} SettlementsArePathIndependent(s: State, left: seq<Action>, right: seq<Action>, id: UInt64)
    requires WellFormed(s) && id in s.streams
    requires EndsInSettlement(s, left, id) && EndsInSettlement(s, right, id)
    requires Run(s, left).now == Run(s, right).now
    requires id in Run(s, left).streams && id in Run(s, right).streams
    requires Run(s, left).streams[id].total == Run(s, right).streams[id].total
    requires Run(s, left).streams[id].end == Run(s, right).streams[id].end
    ensures Total(Received(id), s, left) - Total(Overdraft(id), s, left) ==
            Total(Received(id), s, right) - Total(Overdraft(id), s, right)
    ensures Sound(Run(s, left).streams[id])
    ensures s.streams[id].withdrawn + Total(Received(id), s, left) - Total(Overdraft(id), s, left) ==
            Accrued(Run(s, left).streams[id], Run(s, left).now)
    ensures Throughout((x: State, a: Action) => PaysInTokens(id, x, a), s, left)
    ensures Throughout((x: State, a: Action) => PaysInTokens(id, x, a), s, right)
  {
    hide Apply, Overpaid, PaysInTokens;
    LastSettlementPaysAll(s, left, id);
    LastSettlementPaysAll(s, right, id);
    WithdrawnIsWhatWasReceived(s, left, id);
    WithdrawnIsWhatWasReceived(s, right, id);
  }

  // ---- The statement of one account --------------------------------------------

  // What `amount` going from one account to another means for `account`.
  function Change(account: Address, from: Address, to: Address, amount: int): int {
    (if account == to then amount else 0) - (if account == from then amount else 0)
  }

  // What a step books on an account, told from the call and the table alone.
  function Booked(account: Address): (State, Action) -> int {
    (s: State, action: Action) =>
      match action
      case AdvanceTime(_) => 0
      case OutsideTransfer(payer, payee, amount) =>
        if payer != Contract && Transfer(s.balances, payer, payee, amount).Some?
        then Change(account, payer, payee, amount) else 0
      case Invoke(_, call) =>
        if !Succeeds(s, action) then 0
        else
          match call
          case DoCreateStream(sender, request) => Change(account, sender, Contract, request.totalAmount)
          case DoCreateStreamBatch(sender, requests) => Change(account, sender, Contract, SumAmounts(requests))
          case DoTopUp(_, sender, amount) => Change(account, sender, Contract, amount)
          case DoWithdraw(id, _) =>
            if id in s.streams
            then Change(account, Contract, s.streams[id].recipient, Payout(id)(s, action)) else 0
          case DoCancel(id, _) =>
            if id in s.streams
            then Change(account, Contract, s.streams[id].recipient, Received(id)(s, action))
                 + Change(account, Contract, s.streams[id].sender, Payout(id)(s, action) - Received(id)(s, action))
            else 0
          case _ => 0
  }

  lemma {:induction false} TransferBooked(ledger: Ledger, from: Address, to: Address, amount: Int128, account: Address)
    requires Transfer(ledger, from, to, amount).Some?
    ensures BalanceOf(Transfer(ledger, from, to, amount).value, account) ==
            BalanceOf(ledger, account) + Change(account, from, to, amount)
  {
    TransferIff(ledger, from, to, amount);
  }

  lemma DepositBooked(s: State, auth: set<Address>, call: Call, account: Address)
    requires WellFormed(s) && Succeeds(s, Invoke(auth, call))
    requires call.DoCreateStream? || call.DoCreateStreamBatch? || call.DoTopUp?
    ensures BalanceOf(Apply(s, auth, call).state.balances, account) ==
            BalanceOf(s.balances, account) + Booked(account)(s, Invoke(auth, call))
  {
    match call {
      case DoCreateStream(sender, request) =>
        TransferBooked(s.balances, sender, Contract, request.totalAmount, account);
      case DoCreateStreamBatch(sender, requests) =>
        BatchOpens(s, auth, sender, requests);
        TransferBooked(s.balances, sender, Contract, SumAmounts(requests), account);
      case DoTopUp(_, sender, amount) => TransferBooked(s.balances, sender, Contract, amount, account);
    }
  }

  lemma PayoutBooked(s: State, auth: set<Address>, call: Call, account: Address)
    requires WellFormed(s) && Succeeds(s, Invoke(auth, call))
    requires call.DoWithdraw? || call.DoCancel?
    ensures BalanceOf(Apply(s, auth, call).state.balances, account) ==
            BalanceOf(s.balances, account) + Booked(account)(s, Invoke(auth, call))
  {
    hide Withdraw, Cancel;
    StepPaysInTokens(s, Invoke(auth, call), call.id);
    if call.DoWithdraw? {
      WithdrawRewrites(s, auth, call.id, call.recipient);
    } else {
      CancelRewrites(s, auth, call.id, call.caller);
    }
  }

  lemma StepBooked(s: State, action: Action, account: Address)
    requires WellFormed(s)
    ensures BalanceOf(Step(s, action).balances, account) ==
            BalanceOf(s.balances, account) + Booked(account)(s, action)
  {
    hide CreateStream, CreateStreamBatch, TopUp, Withdraw, Cancel;
    match action
    case AdvanceTime(_) =>
    case OutsideTransfer(payer, payee, amount) =>
      if Transfer(s.balances, payer, payee, amount).Some? {
        TransferBooked(s.balances, payer, payee, amount, account);
      }
    case Invoke(auth, call) =>
      if IsAdminCall(call) {
        AdminCallLeavesMoney(s, auth, call);
      } else if Succeeds(s, action) {
        if call.DoWithdraw? || call.DoCancel? {
          PayoutBooked(s, auth, call, account);
        } else if !call.DoExtendStream? {
          DepositBooked(s, auth, call, account);
        }
      }
  }

  /** Every account's balance, the contract's included, is over every run what it was
      plus what the steps book on it: nothing is paid to or taken from anyone else. */
  lemma {:induction false} AccountStatement(s: State, actions: seq<Action>, account: Address)
    requires WellFormed(s)
    ensures BalanceOf(Run(s, actions).balances, account) ==
            BalanceOf(s.balances, account) + Total(Booked(account), s, actions)
    decreases |actions|
  {
    hide Apply, Overpaid;
    if actions != [] {
      var earlier := actions[..|actions| - 1];
      AccountStatement(s, earlier, account);
      RunWellFormed(s, earlier);
      StepBooked(Run(s, earlier), actions[|actions| - 1], account);
    }
  }
}
