/** Nothing happens to an account or a stream without its owner's consent. */
module Authorization {
  import opened Arithmetic
  import opened Machine
  import opened StreamTable
  import opened Token
  import opened Types
  import opened Vesting
  import opened Wrappers

  // The account takes part in this step of its own accord.
  predicate Consents(account: Address, action: Action) {
    match action
    case Invoke(auth, _) => account in auth
    case OutsideTransfer(payer, _, _) => payer == account
    case AdvanceTime(_) => false
  }

  lemma PayOutOnlyAdds(ledger: Ledger, to: Address, amount: Int128, account: Address)
    requires PayOut(ledger, to, amount).Some? && account != Contract
    ensures BalanceOf(ledger, account) <= BalanceOf(PayOut(ledger, to, amount).value, account)
  {
    if amount > 0 {
      TransferMovesExactly(ledger, Contract, to, amount);
    }
  }

  lemma CancelOnlyAdds(s: State, t: State, id: UInt64, caller: Address, account: Address)
    requires WellFormed(s) && id in s.streams && CancelEffect(s, t, id, caller) && account != Contract
    ensures BalanceOf(s.balances, account) <= BalanceOf(t.balances, account)
  {
    var stream := s.streams[id];
    var accrued := Accrued(stream, s.now);
    PayOutOnlyAdds(s.balances, stream.recipient, accrued - stream.withdrawn, account);
    PayOutOnlyAdds(PayOut(s.balances, stream.recipient, accrued - stream.withdrawn).value,
                   stream.sender, stream.total - accrued, account);
  }

  lemma WithdrawOnlyAdds(s: State, t: State, id: UInt64, value: Value, account: Address)
    requires WellFormed(s) && id in s.streams && WithdrawEffect(s, t, id, value) && account != Contract
    ensures BalanceOf(s.balances, account) <= BalanceOf(t.balances, account)
  {
    var stream := s.streams[id];
    TransferMovesExactly(s.balances, Contract, stream.recipient, Accrued(stream, s.now) - stream.withdrawn);
  }

  lemma {:induction false} BatchAuthorized(s: State, auth: set<Address>, sender: Address, requests: Requests)
    requires CreateStreamBatch(s, auth, sender, requests).Done?
    ensures Authorized(auth, sender)
  {
  }

  lemma CallTakesOnlyByConsent(s: State, auth: set<Address>, call: Call, account: Address)
    requires WellFormed(s) && Succeeds(s, Invoke(auth, call)) && !IsAdminCall(call)
    requires account != Contract && account !in auth
    ensures BalanceOf(s.balances, account) <= BalanceOf(Apply(s, auth, call).state.balances, account)
  {
    hide CreateStreamBatch, Withdraw, Cancel;
    var done := Apply(s, auth, call);
    match call {
      case DoCreateStream(sender, request) =>
        TransferMovesExactly(s.balances, sender, Contract, request.totalAmount);
      case DoCreateStreamBatch(sender, requests) =>
        BatchOpens(s, auth, sender, requests);
        BatchAuthorized(s, auth, sender, requests);
        TransferMovesExactly(s.balances, sender, Contract, SumAmounts(requests));
      case DoTopUp(id, sender, amount) => TransferMovesExactly(s.balances, sender, Contract, amount);
      case DoExtendStream(_, _, _) =>
      case DoWithdraw(id, recipient) =>
        WithdrawRewrites(s, auth, id, recipient);
        WithdrawOnlyAdds(s, done.state, id, done.value, account);
      case DoCancel(id, caller) =>
        CancelRewrites(s, auth, id, caller);
        CancelOnlyAdds(s, done.state, id, caller, account);
    }
  }

  lemma StepTakesOnlyByConsent(s: State, action: Action, account: Address)
    requires WellFormed(s) && account != Contract && !Consents(account, action)
    ensures BalanceOf(s.balances, account) <= BalanceOf(Step(s, action).balances, account)
  {
    match action
    case AdvanceTime(_) =>
    case OutsideTransfer(payer, payee, amount) =>
      if payer != Contract && Transfer(s.balances, payer, payee, amount).Some? {
        TransferMovesExactly(s.balances, payer, payee, amount);
      }
    case Invoke(auth, call) =>
      if IsAdminCall(call) {
        AdminCallLeavesMoney(s, auth, call);
      } else if Succeeds(s, action) {
        CallTakesOnlyByConsent(s, auth, call, account);
      }
  }

  /** Over a run in which an account authorizes no call and sends no tokens itself,
      its balance never falls. */
  lemma {:induction false} NobodyPaysWithoutConsent(s: State, actions: seq<Action>, account: Address)
    requires WellFormed(s) && account != Contract
    requires forall i | 0 <= i < |actions| :: !Consents(account, actions[i])
    ensures BalanceOf(s.balances, account) <= BalanceOf(Run(s, actions).balances, account)
    decreases |actions|
  {
    hide Apply;
    if actions != [] {
      var earlier := actions[..|actions| - 1];
      NobodyPaysWithoutConsent(s, earlier, account);
      RunWellFormed(s, earlier);
      StepTakesOnlyByConsent(Run(s, earlier), actions[|actions| - 1], account);
    }
  }

  /** A stream changes only in a call its sender or recipient authorized; its terms
      (total and end) only in one its sender did. */
  lemma StreamsChangeOnlyByConsent(s: State, action: Action, id: UInt64)
    requires WellFormed(s) && id in s.streams
    ensures id in Step(s, action).streams
    ensures
      var before, after := s.streams[id], Step(s, action).streams[id];
      && (before != after ==>
            action.Invoke? && (before.sender in action.auth || before.recipient in action.auth))
      && (before.total != after.total || before.end != after.end ==>
            action.Invoke? && before.sender in action.auth)
  {
    StepEvolves(s, action, id);
    if Succeeds(s, action) && Target(action) == Some(id) {
      match action.call {
        case DoTopUp(_, _, _) =>
        case DoExtendStream(_, _, _) =>
        case DoWithdraw(_, recipient) => WithdrawRewrites(s, action.auth, id, recipient);
        case DoCancel(_, caller) => CancelRewrites(s, action.auth, id, caller);
      }
    }
  }
}
