/** What a completed stream still allows, and why the timing of withdrawals does
    not matter. */
module Lifecycle {
  import opened Arithmetic
  import opened Machine
  import opened Runs
  import opened StreamTable
  import opened Types
  import opened Vesting
  import opened Wrappers

  // ---- Completion ------------------------------------------------------------

  /** A completed stream is paid in full and its window is over, for ever after. */
  lemma {:induction false} CompletionIsStable(s: State, actions: seq<Action>, id: UInt64)
    requires WellFormed(s) && id in s.streams && s.streams[id].status == Completed
    ensures
      var t := Run(s, actions);
      && id in t.streams
      && t.streams[id].withdrawn == t.streams[id].total == s.streams[id].total
      && t.streams[id].end <= t.now
      && t.streams[id].status != Active
  {
    hide Apply;
    RunEvolves(s, actions, id);
    RunClock(s, actions);
  }

  /** The contract does let either party cancel a completed stream, but that moves
      no token, releases nothing and changes nothing but the label: the call is
      accepted, and it is an event with two zero amounts. */
  lemma CancellingCompletedIsIdle(s: State, auth: set<Address>, id: UInt64, caller: Address)
    requires WellFormed(s) && id in s.streams && s.streams[id].status == Completed
    requires Authorized(auth, caller)
    requires caller == s.streams[id].sender || caller == s.streams[id].recipient
    ensures Cancel(s, auth, id, caller) ==
            Done(Publish(WriteStream(s, id, s.streams[id].(status := Cancelled)),
                         StreamCancelled(id, caller, 0, 0)), Nothing)
  {
    var stream := s.streams[id];
    VestedRefinesAccrued(stream, s.now);
    AccruedFull(stream, s.now);
    assert Vested(stream, s.now) == Ok(stream.total);
  }

  /** The only way a status ever changes in one step. */
  lemma StatusChanges(s: State, action: Action, id: UInt64)
    requires WellFormed(s) && id in s.streams
    ensures id in Step(s, action).streams
    ensures
      var before, after := s.streams[id].status, Step(s, action).streams[id].status;
      before != after ==>
        && Succeeds(s, action) && Target(action) == Some(id)
        && (after == Cancelled <==> action.call.DoCancel?)
        && (after == Completed <==> action.call.DoWithdraw?)
        && (after == Completed ==> before == Active && s.streams[id].end <= s.now)
        && after != Active
  {
    hide Withdraw, Cancel;
    StepEvolves(s, action, id);
    if Succeeds(s, action) && Target(action) == Some(id) {
      match action.call {
        case DoTopUp(_, _, _) =>
        case DoExtendStream(_, _, _) =>
        case DoWithdraw(_, recipient) => WithdrawRewrites(s, action.auth, id, recipient);
        case DoCancel(_, caller) => CancelRewrites(s, action.auth, id, caller);
      }
    }
  }

  /** The documented immutability of terminal streams, exactly: a stream that is not
      active changes in a step if and only if it is completed and one of its parties
      cancels it. A cancelled stream never changes. */
  lemma TerminalStreamChangesIff(s: State, action: Action, id: UInt64)
    requires WellFormed(s) && id in s.streams && s.streams[id].status != Active
    ensures id in Step(s, action).streams
    ensures Step(s, action).streams[id] != s.streams[id] <==>
            && s.streams[id].status == Completed
            && action.Invoke? && action.call.DoCancel? && action.call.id == id
            && Authorized(action.auth, action.call.caller)
            && (action.call.caller == s.streams[id].sender || action.call.caller == s.streams[id].recipient)
  {
    StepEvolves(s, action, id);
    StatusChanges(s, action, id);
    if Target(action) == Some(id) && action.call.DoCancel? {
      var call := action.call;
      if Succeeds(s, action) {
        CancelledByParty(s, action.auth, id, call.caller);
      }
      if s.streams[id].status == Completed && Authorized(action.auth, call.caller)
         && (call.caller == s.streams[id].sender || call.caller == s.streams[id].recipient)
      {
        CancellingCompletedIsIdle(s, action.auth, id, call.caller);
      }
    }
  }

  // ---- Path independence -----------------------------------------------------

  // What a step pays the recipient of stream `id` through `withdraw`.
  function PaidBy(id: UInt64): (State, Action) -> int {
    (s: State, action: Action) =>
      if action.Invoke? && action.call.DoWithdraw? && action.call.id == id then
        match Apply(s, action.auth, action.call)
        case Done(_, Amount(amount)) => amount
        case _ => 0
      else 0
  }

  lemma StepPays(s: State, action: Action, id: UInt64)
    requires WellFormed(s) && id in s.streams
    ensures
      var t := Step(s, action);
      id in t.streams &&
      (t.streams[id].status != Cancelled ==>
         t.streams[id].withdrawn == s.streams[id].withdrawn + PaidBy(id)(s, action))
  {
    hide Withdraw, Cancel;
    StepEvolves(s, action, id);
    if Succeeds(s, action) && Target(action) == Some(id) {
      match action.call {
        case DoTopUp(_, _, _) =>
        case DoExtendStream(_, _, _) =>
        case DoWithdraw(_, recipient) => WithdrawRewrites(s, action.auth, id, recipient);
        case DoCancel(_, caller) => CancelRewrites(s, action.auth, id, caller);
      }
    }
  }

  /** Until a stream is cancelled, `withdrawn` is the sum of what was paid out. */
  lemma {:induction false} WithdrawnIsWhatWasPaid(s: State, actions: seq<Action>, id: UInt64)
    requires WellFormed(s) && id in s.streams
    ensures id in Run(s, actions).streams
    ensures Run(s, actions).streams[id].status != Cancelled ==>
            Run(s, actions).streams[id].withdrawn == s.streams[id].withdrawn + Total(PaidBy(id), s, actions)
    decreases |actions|
  {
    hide Apply;
    if actions != [] {
      var earlier, last := actions[..|actions| - 1], actions[|actions| - 1];
      WithdrawnIsWhatWasPaid(s, earlier, id);
      RunWellFormed(s, earlier);
      StepPays(Run(s, earlier), last, id);
      StepEvolves(Run(s, earlier), last, id);
    }
  }

  // The run's last step is a withdrawal of stream `id` that succeeds.
  predicate EndsInWithdrawal(s: State, actions: seq<Action>, id: UInt64) {
    actions != [] &&
    var last := actions[|actions| - 1];
    Succeeds(Run(s, actions[..|actions| - 1]), last) && last.call.DoWithdraw? && last.call.id == id
  }

  lemma WithdrawalPaysAll(s: State, action: Action, id: UInt64)
    requires WellFormed(s) && Succeeds(s, action) && action.call.DoWithdraw? && action.call.id == id
    ensures
      var t := Step(s, action);
      && id in t.streams && Sound(t.streams[id]) && t.streams[id].status != Cancelled
      && t.streams[id].withdrawn == Accrued(t.streams[id], t.now)
  {
    hide Withdraw;
    WithdrawRewrites(s, action.auth, id, action.call.recipient);
  }

  lemma {:induction false} LastWithdrawalPaysAll(s: State, actions: seq<Action>, id: UInt64)
    requires WellFormed(s) && id in s.streams && EndsInWithdrawal(s, actions, id)
    ensures
      var t := Run(s, actions);
      && id in t.streams && Sound(t.streams[id]) && t.streams[id].status != Cancelled
      && t.streams[id].withdrawn == Accrued(t.streams[id], t.now)
      && t.streams[id].start == s.streams[id].start
  {
    hide Apply;
    var earlier, last := actions[..|actions| - 1], actions[|actions| - 1];
    RunWellFormed(s, earlier);
    RunEvolves(s, actions, id);
    WithdrawalPaysAll(Run(s, earlier), last, id);
  }

  /** Whatever withdrawals and top-ups came before, two runs whose last step is a
      withdrawal of the stream, at the same time and with the same total and end,
      have paid the same amount altogether: exactly what has vested. */
  lemma {:induction false} WithdrawalsArePathIndependent(s: State, left: seq<Action>, right: seq<Action>, id: UInt64)
    requires WellFormed(s) && id in s.streams
    requires EndsInWithdrawal(s, left, id) && EndsInWithdrawal(s, right, id)
    requires Run(s, left).now == Run(s, right).now
    requires id in Run(s, left).streams && id in Run(s, right).streams
    requires Run(s, left).streams[id].total == Run(s, right).streams[id].total
    requires Run(s, left).streams[id].end == Run(s, right).streams[id].end
    ensures Total(PaidBy(id), s, left) == Total(PaidBy(id), s, right)
    ensures Sound(Run(s, left).streams[id])
    ensures s.streams[id].withdrawn + Total(PaidBy(id), s, left) ==
            Accrued(Run(s, left).streams[id], Run(s, left).now)
  {
    hide Apply;
    LastWithdrawalPaysAll(s, left, id);
    LastWithdrawalPaysAll(s, right, id);
    WithdrawnIsWhatWasPaid(s, left, id);
    WithdrawnIsWhatWasPaid(s, right, id);
  }

  predicate EndKept(id: UInt64, s: State, action: Action) {
    !(Succeeds(s, action) && action.call.DoExtendStream? && action.call.id == id)
  }

  lemma StepKeepsEnd(s: State, action: Action, id: UInt64)
    requires WellFormed(s) && id in s.streams && EndKept(id, s, action)
    ensures id in Step(s, action).streams && Step(s, action).streams[id].end == s.streams[id].end
  {
    hide Withdraw, Cancel;
    StepEvolves(s, action, id);
    if Succeeds(s, action) && Target(action) == Some(id) {
      match action.call {
        case DoTopUp(_, _, _) =>
        case DoWithdraw(_, recipient) => WithdrawRewrites(s, action.auth, id, recipient);
        case DoCancel(_, caller) => CancelRewrites(s, action.auth, id, caller);
      }
    }
  }

  /** Without a successful extension of the stream its end never moves, so the
      requirement on ends above is met. */
  lemma {:induction false} EndMovesOnlyByExtension(s: State, actions: seq<Action>, id: UInt64)
    requires WellFormed(s) && id in s.streams
    requires Throughout((x: State, a: Action) => EndKept(id, x, a), s, actions)
    ensures id in Run(s, actions).streams && Run(s, actions).streams[id].end == s.streams[id].end
    decreases |actions|
  {
    hide Apply;
    if actions != [] {
      var earlier, last := actions[..|actions| - 1], actions[|actions| - 1];
      EndMovesOnlyByExtension(s, earlier, id);
      RunWellFormed(s, earlier);
      StepKeepsEnd(Run(s, earlier), last, id);
    }
  }

  /** What the summary view announces as withdrawable is what a withdrawal in the
      same state pays. */
  lemma SummaryPredictsWithdrawal(s: State, auth: set<Address>, id: UInt64, recipient: Address)
    requires WellFormed(s) && Withdraw(s, auth, id, recipient).Done?
    ensures
      var summary := Summary(s.streams[id], s.now);
      && summary.Ok? && Withdraw(s, auth, id, recipient).value == Amount(summary.value.withdrawable)
      && summary.value.withdrawn + summary.value.withdrawable == summary.value.vested
  {
    WithdrawRewrites(s, auth, id, recipient);
    VestedRefinesAccrued(s.streams[id], s.now);
  }

  /** After a withdrawal from a stream of 10 000 units or more, the withdrawn share
      trails the elapsed share by at most one basis point. */
  lemma WithdrawalAlignsBasisPoints(s: State, auth: set<Address>, id: UInt64, recipient: Address)
    requires WellFormed(s) && Withdraw(s, auth, id, recipient).Done? && s.streams[id].total >= 10_000
    ensures
      var stream := Withdraw(s, auth, id, recipient).state.streams[id];
      PercentWithdrawn(stream).Ok? ==>
        PercentWithdrawn(stream).value <= ProgressBps(stream, s.now) <= PercentWithdrawn(stream).value + 1
  {
    WithdrawRewrites(s, auth, id, recipient);
    var stream := Withdraw(s, auth, id, recipient).state.streams[id];
    if PercentWithdrawn(stream).Ok? {
      BasisPointsMeetAfterWithdrawal(stream, s.now);
    }
  }
}
