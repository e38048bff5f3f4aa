/** The redundantly tracked `TotalSupply` and the cap that is checked against it. */
module Supply {
  import opened Arithmetic
  import opened Escrow
  import opened Machine
  import opened Runs
  import opened StreamTable
  import opened Types
  import opened Vesting

  // How far the tracked supply is from what active streams really hold.
  function Drift(s: State): int {
    s.totalSupply - Outstanding(s)
  }

  // What a successful batch escrows without tracking it.
  function Batched(s: State, action: Action): int {
    if Succeeds(s, action) && action.call.DoCreateStreamBatch? then SumAmounts(action.call.requests) else 0
  }

  lemma OpeningSupply(s: State, auth: set<Address>, call: Call)
    requires WellFormed(s) && Succeeds(s, Invoke(auth, call))
    requires call.DoCreateStream? || call.DoCreateStreamBatch?
    ensures Drift(Apply(s, auth, call).state) == Drift(s) - Batched(s, Invoke(auth, call))
  {
    match call {
      case DoCreateStream(sender, request) => CreateOutstanding(s, auth, sender, request);
      case DoCreateStreamBatch(sender, requests) =>
        BatchOutstanding(s, auth, sender, requests);
        BatchOpens(s, auth, sender, requests);
    }
  }

  // What a payout is about to release from the tracked supply.
  function Leaving(s: State, action: Action): int {
    if Succeeds(s, action) && action.call.DoWithdraw? && action.call.id in s.streams && Sound(s.streams[action.call.id])
    then Accrued(s.streams[action.call.id], s.now) - s.streams[action.call.id].withdrawn
    else if Succeeds(s, action) && action.call.DoCancel? && action.call.id in s.streams
    then s.streams[action.call.id].total - s.streams[action.call.id].withdrawn
    else 0
  }

  // The subtraction the payout makes stays within 128 bits.
  predicate NoReset(s: State, action: Action) {
    s.totalSupply - Leaving(s, action) >= I128_MIN
  }

  lemma LeavingNonNegative(s: State, action: Action)
    requires WellFormed(s)
    ensures Leaving(s, action) >= 0
  {
    hide Cancel;
    if Succeeds(s, action) && action.call.DoWithdraw? {
      WithdrawRewrites(s, action.auth, action.call.id, action.call.recipient);
    }
  }

  lemma PayoutSupply(s: State, auth: set<Address>, call: Call)
    requires WellFormed(s) && Succeeds(s, Invoke(auth, call)) && (call.DoWithdraw? || call.DoCancel?)
    ensures
      var t := Apply(s, auth, call).state;
      && Outstanding(t) == Outstanding(s) - Leaving(s, Invoke(auth, call))
      && t.totalSupply == if NoReset(s, Invoke(auth, call)) then Outstanding(t) + Drift(s) else 0
  {
    hide Withdraw, Cancel;
    var t := Apply(s, auth, call).state;
    if call.DoWithdraw? {
      WithdrawRewrites(s, auth, call.id, call.recipient);
    } else {
      CancelRewrites(s, auth, call.id, call.caller);
    }
    RewriteOutstanding(s, t, call.id);
    AccruedFull(s.streams[call.id], s.now);
  }

  lemma OtherCallSupply(s: State, auth: set<Address>, call: Call)
    requires WellFormed(s) && Succeeds(s, Invoke(auth, call)) && !IsAdminCall(call)
    requires !call.DoWithdraw? && !call.DoCancel?
    ensures Drift(Apply(s, auth, call).state) == Drift(s) - Batched(s, Invoke(auth, call))
  {
    hide CreateStream, CreateStreamBatch;
    var t := Apply(s, auth, call).state;
    if call.DoTopUp? {
      TopUpRewrites(s, auth, call.id, call.sender, call.amount);
      RewriteOutstanding(s, t, call.id);
    } else if call.DoExtendStream? {
      ExtendRewrites(s, auth, call.id, call.sender, call.newEnd);
      RewriteOutstanding(s, t, call.id);
    } else {
      OpeningSupply(s, auth, call);
    }
  }

  /** Each step moves the tracked supply exactly as the real sum moves, except that
      it never sees a batch, and that a payout which would take it below the 128-bit
      range resets it to zero. */
  lemma StepSupply(s: State, action: Action)
    requires WellFormed(s)
    ensures
      var exact := Outstanding(Step(s, action)) + Drift(s) - Batched(s, action);
      && (NoReset(s, action) <==> I128_MIN <= exact)
      && Step(s, action).totalSupply == if NoReset(s, action) then exact else 0
  {
    if action.Invoke? {
      if IsAdminCall(action.call) {
        AdminCallLeavesMoney(s, action.auth, action.call);
      } else if Succeeds(s, action) {
        if action.call.DoWithdraw? || action.call.DoCancel? {
          PayoutSupply(s, action.auth, action.call);
        } else {
          OtherCallSupply(s, action.auth, action.call);
        }
      }
    }
  }

  // The value the supply would have if it were tracked in unbounded arithmetic.
  function ExactSupply(s: State, actions: seq<Action>): int {
    Outstanding(Run(s, actions)) + Drift(s) - Total(Batched, s, actions)
  }

  // After every step of the run, and before the first.
  ghost predicate TrackedExactly(s: State, actions: seq<Action>)
    decreases |actions|
  {
    && (actions == [] || TrackedExactly(s, actions[..|actions| - 1]))
    && Run(s, actions).totalSupply == ExactSupply(s, actions)
  }

  /** Over a whole run the tracked supply is the real sum of active escrow less
      everything batches added, exactly when no payout underflows it. */
  lemma {:induction false} SupplyTracksEscrowIff(s: State, actions: seq<Action>)
    requires WellFormed(s)
    ensures TrackedExactly(s, actions) <==> Throughout(NoReset, s, actions)
    decreases |actions|
  {
    hide Apply, NoReset, Batched;
    if actions != [] {
      var earlier := actions[..|actions| - 1];
      SupplyTracksEscrowIff(s, earlier);
      RunWellFormed(s, earlier);
      StepSupply(Run(s, earlier), actions[|actions| - 1]);
    }
  }

  predicate NoBatch(s: State, action: Action) {
    Batched(s, action) == 0
  }

  /** Without batches there is no condition: the tracked supply is the escrow sum,
      through extensions, insolvent cancellations and everything else. */
  lemma {:induction false} SupplyIsEscrowWithoutBatches(s: State, actions: seq<Action>)
    requires WellFormed(s) && Drift(s) == 0 && Throughout(NoBatch, s, actions)
    ensures Run(s, actions).totalSupply == Outstanding(Run(s, actions)) >= 0
    decreases |actions|
  {
    hide Apply;
    if actions == [] {
      OutstandingNonNegative(s, s.counter);
    } else {
      var earlier := actions[..|actions| - 1];
      SupplyIsEscrowWithoutBatches(s, earlier);
      RunWellFormed(s, earlier);
      StepSupply(Run(s, earlier), actions[|actions| - 1]);
      RunWellFormed(s, actions);
      OutstandingNonNegative(Run(s, actions), Run(s, actions).counter);
    }
  }

  /** What the documented equation misses: a batch always breaks it, on the spot. */
  lemma {:induction false} BatchLeavesSupplyBehind(s: State, auth: set<Address>, sender: Address, requests: Requests)
    requires WellFormed(s) && CreateStreamBatch(s, auth, sender, requests).Done?
    ensures
      var t := CreateStreamBatch(s, auth, sender, requests).state;
      t.totalSupply == s.totalSupply && Outstanding(t) - Outstanding(s) == SumAmounts(requests) > 0
  {
    BatchOutstanding(s, auth, sender, requests);
    BatchOpens(s, auth, sender, requests);
  }

  // The documented equation, before the first step and after every one.
  ghost predicate SupplyIsEscrow(s: State, actions: seq<Action>)
    decreases |actions|
  {
    && (actions == [] || SupplyIsEscrow(s, actions[..|actions| - 1]))
    && Run(s, actions).totalSupply == Outstanding(Run(s, actions))
  }

  lemma StepSupplyIsEscrowIff(s: State, action: Action)
    requires WellFormed(s) && Drift(s) == 0
    ensures Drift(Step(s, action)) == 0 <==> NoBatch(s, action)
  {
    StepSupply(s, action);
    StepWellFormed(s, action);
    OutstandingNonNegative(Step(s, action), Step(s, action).counter);
    if Batched(s, action) != 0 {
      BatchLeavesSupplyBehind(s, action.auth, action.call.sender, action.call.requests);
    }
  }

  /** Where it holds to begin with, the documented equation holds throughout a run
      exactly when no batch succeeds in it. */
  lemma {:induction false} SupplyIsEscrowIff(s: State, actions: seq<Action>)
    requires WellFormed(s) && Drift(s) == 0
    ensures SupplyIsEscrow(s, actions) <==> Throughout(NoBatch, s, actions)
    decreases |actions|
  {
    hide Apply, Batched;
    if actions != [] {
      var earlier := actions[..|actions| - 1];
      SupplyIsEscrowIff(s, earlier);
      RunWellFormed(s, earlier);
      if SupplyIsEscrow(s, earlier) {
        StepSupplyIsEscrowIff(Run(s, earlier), actions[|actions| - 1]);
      }
    }
  }

  // ---- The cap -------------------------------------------------------------

  predicate CapKept(s: State, action: Action) {
    !(Succeeds(s, action) && action.call.DoSetSupplyCap?)
  }

  lemma CallRespectsCap(s: State, auth: set<Address>, call: Call)
    requires WellFormed(s) && Succeeds(s, Invoke(auth, call)) && !IsAdminCall(call)
    ensures Apply(s, auth, call).state.totalSupply <= Max(s.totalSupply, s.supplyCap)
    ensures Apply(s, auth, call).state.supplyCap == s.supplyCap
  {
    hide CreateStreamBatch, Withdraw, Cancel;
    match call {
      case DoCreateStreamBatch(sender, requests) => BatchOpens(s, auth, sender, requests);
      case DoWithdraw(id, recipient) => WithdrawRewrites(s, auth, id, recipient);
      case DoCancel(id, caller) => CancelRewrites(s, auth, id, caller);
      case _ =>
    }
  }

  lemma StepRespectsCap(s: State, action: Action)
    requires WellFormed(s)
    ensures Step(s, action).totalSupply <= Max(s.totalSupply, s.supplyCap)
    ensures CapKept(s, action) ==> Step(s, action).supplyCap == s.supplyCap
  {
    if action.Invoke? {
      if IsAdminCall(action.call) {
        AdminCallLeavesMoney(s, action.auth, action.call);
      } else if Succeeds(s, action) {
        CallRespectsCap(s, action.auth, action.call);
      }
    }
  }

  lemma {:induction false} RunRespectsCap(s: State, actions: seq<Action>)
    requires WellFormed(s) && Throughout(CapKept, s, actions)
    ensures Run(s, actions).totalSupply <= Max(s.totalSupply, s.supplyCap)
    ensures Run(s, actions).supplyCap == s.supplyCap
    decreases |actions|
  {
    hide Apply;
    if actions != [] {
      var earlier := actions[..|actions| - 1];
      RunRespectsCap(s, earlier);
      RunWellFormed(s, earlier);
      StepRespectsCap(Run(s, earlier), actions[|actions| - 1]);
    }
  }

  /** From a successful `set_supply_cap` until the next one, tracked supply never
      rises above the new cap or, if that is larger, its value at the call; while
      no batch is used the same bounds the tokens really in escrow. */
  lemma {:induction false} CapHoldsUntilChanged(s: State, auth: set<Address>, newCap: Int128, actions: seq<Action>)
    requires WellFormed(s) && SetSupplyCap(s, auth, newCap).Done?
    requires Throughout(CapKept, SetSupplyCap(s, auth, newCap).state, actions)
    ensures
      var t := Run(SetSupplyCap(s, auth, newCap).state, actions);
      && t.totalSupply <= Max(s.totalSupply, newCap)
      && (Drift(s) == 0 && Throughout(NoBatch, SetSupplyCap(s, auth, newCap).state, actions) ==>
            Outstanding(t) <= Max(Outstanding(s), newCap))
  {
    var capped := SetSupplyCap(s, auth, newCap).state;
    StepWellFormed(s, Invoke(auth, DoSetSupplyCap(newCap)));
    RunRespectsCap(capped, actions);
    if Drift(s) == 0 && Throughout(NoBatch, capped, actions) {
      SupplyIsEscrowWithoutBatches(capped, actions);
    }
  }

  // ---- The cap and the tokens really in escrow ---------------------------------

  // What a successful step puts into escrow, tracked or not.
  function Escrowed(s: State, action: Action): int {
    if !Succeeds(s, action) then 0
    else
      match action.call
      case DoCreateStream(_, request) => request.totalAmount
      case DoCreateStreamBatch(_, requests) => SumAmounts(requests)
      case DoTopUp(_, _, amount) => amount
      case _ => 0
  }

  // The step escrows no more than the cap has room for, and lowers the cap no
  // further than what is in escrow.
  predicate WithinCap(s: State, action: Action) {
    && Outstanding(s) + Escrowed(s, action) <= s.supplyCap
    && (Succeeds(s, action) && action.call.DoSetSupplyCap? ==> Outstanding(s) <= action.call.newCap)
  }

  lemma EscrowingOutstanding(s: State, auth: set<Address>, call: Call)
    requires WellFormed(s) && Succeeds(s, Invoke(auth, call)) && !IsAdminCall(call)
    requires !call.DoWithdraw? && !call.DoCancel?
    ensures
      var t := Apply(s, auth, call).state;
      && t.supplyCap == s.supplyCap
      && Outstanding(t) == Outstanding(s) + Escrowed(s, Invoke(auth, call))
      && 0 <= Escrowed(s, Invoke(auth, call))
      && (call.DoCreateStream? || call.DoTopUp? ==> s.totalSupply + Escrowed(s, Invoke(auth, call)) <= s.supplyCap)
  {
    hide CreateStreamBatch;
    var t := Apply(s, auth, call).state;
    match call {
      case DoCreateStream(sender, request) => CreateOutstanding(s, auth, sender, request);
      case DoCreateStreamBatch(sender, requests) =>
        BatchOpens(s, auth, sender, requests);
        BatchOutstanding(s, auth, sender, requests);
        BatchLeavesSupplyBehind(s, auth, sender, requests);
      case DoTopUp(id, sender, amount) =>
        TopUpRewrites(s, auth, id, sender, amount);
        RewriteOutstanding(s, t, id);
      case DoExtendStream(id, sender, newEnd) =>
        ExtendRewrites(s, auth, id, sender, newEnd);
        RewriteOutstanding(s, t, id);
    }
  }

  /** A step takes the escrow over the cap exactly when it is not within it. As long
      as all of the escrow is tracked, only a batch or a new cap can do that. */
  lemma StepWithinCapIff(s: State, action: Action)
    requires WellFormed(s) && Outstanding(s) <= s.supplyCap
    ensures Outstanding(Step(s, action)) <= Step(s, action).supplyCap <==> WithinCap(s, action)
    ensures Drift(s) >= 0 && !WithinCap(s, action) ==>
            Succeeds(s, action) && (action.call.DoCreateStreamBatch? || action.call.DoSetSupplyCap?)
  {
    hide CreateStream, CreateStreamBatch, TopUp, ExtendStream, Withdraw, Cancel;
    if action.Invoke? {
      var auth, call := action.auth, action.call;
      if IsAdminCall(call) {
        AdminCallLeavesMoney(s, auth, call);
      } else if Succeeds(s, action) {
        CallRespectsCap(s, auth, call);
        if call.DoWithdraw? || call.DoCancel? {
          PayoutSupply(s, auth, call);
          LeavingNonNegative(s, action);
        } else {
          EscrowingOutstanding(s, auth, call);
        }
      }
    }
  }

  // Before the first step and after every one.
  ghost predicate EscrowWithinCap(s: State, actions: seq<Action>)
    decreases |actions|
  {
    && (actions == [] || EscrowWithinCap(s, actions[..|actions| - 1]))
    && Outstanding(Run(s, actions)) <= Run(s, actions).supplyCap
  }

  /** The documented bound on all tokens simultaneously in escrow holds throughout a
      run exactly when every step is within the cap. */
  lemma {:induction false} EscrowWithinCapIff(s: State, actions: seq<Action>)
    requires WellFormed(s)
    ensures EscrowWithinCap(s, actions) <==> Outstanding(s) <= s.supplyCap && Throughout(WithinCap, s, actions)
    decreases |actions|
  {
    hide Apply, WithinCap;
    if actions != [] {
      var earlier := actions[..|actions| - 1];
      EscrowWithinCapIff(s, earlier);
      RunWellFormed(s, earlier);
      if EscrowWithinCap(s, earlier) {
        StepWithinCapIff(Run(s, earlier), actions[|actions| - 1]);
      }
    }
  }
}
