/** The administrator: a one-day timelock, and the entrypoint that goes around it. */
module Timelock {
  import opened Arithmetic
  import opened Machine
  import opened Runs
  import opened StreamTable
  import opened Types
  import opened Wrappers

  predicate Schedules(s: State, action: Action) {
    Succeeds(s, action) && action.call.DoScheduleAdminTransfer?
  }

  predicate Executes(s: State, action: Action) {
    Succeeds(s, action) && action.call.DoExecuteAdminTransfer?
  }

  predicate Revokes(s: State, action: Action) {
    Succeeds(s, action) && action.call.DoCancelAdminTransfer?
  }

  predicate SetsAdmin(s: State, action: Action) {
    Succeeds(s, action) && action.call.DoSetAdmin?
  }

  function StateBefore(s: State, actions: seq<Action>, i: nat): State
    requires i <= |actions|
  {
    Run(s, actions[..i])
  }

  lemma StreamCallLeavesAdmin(s: State, auth: set<Address>, call: Call)
    requires !IsAdminCall(call)
    ensures
      var t := Step(s, Invoke(auth, call));
      && t.admin == s.admin && t.token == s.token
      && t.pendingAdmin == s.pendingAdmin && t.executeAfter == s.executeAfter
  {
    if call.DoCreateStreamBatch? && Succeeds(s, Invoke(auth, call)) {
      BatchOpens(s, auth, call.sender, call.requests);
    }
  }

  lemma {:induction false} AdminOnlyMovesBy(s: State, action: Action)
    requires WellFormed(s)
    ensures Schedules(s, action) <==>
            && action.Invoke? && action.call.DoScheduleAdminTransfer?
            && s.admin == Some(action.call.admin) && Authorized(action.auth, action.call.admin)
            && action.call.newAdmin != action.call.admin && s.now + 86_400 <= U64_MAX
    ensures Executes(s, action) <==>
            && action.Invoke? && action.call.DoExecuteAdminTransfer?
            && s.pendingAdmin.Some? && s.executeAfter.value <= s.now
    ensures Revokes(s, action) <==>
            && action.Invoke? && action.call.DoCancelAdminTransfer?
            && s.admin == Some(action.call.admin) && Authorized(action.auth, action.call.admin)
            && s.pendingAdmin.Some?
    ensures SetsAdmin(s, action) <==>
            && action.Invoke? && action.call.DoSetAdmin?
            && s.admin.Some? && Authorized(action.auth, s.admin.value)
    ensures
      var t := Step(s, action);
      && (Schedules(s, action) ==>
            && s.admin == Some(action.call.admin) && Authorized(action.auth, action.call.admin)
            && t.pendingAdmin == Some(action.call.newAdmin) && Some(action.call.newAdmin) != s.admin
            && t.executeAfter.Some? && t.executeAfter.value == s.now + 86_400
            && t.admin == s.admin && t.admin.Some?)
      && (Executes(s, action) ==>
            && s.pendingAdmin.Some? && s.executeAfter.Some? && s.executeAfter.value <= s.now
            && t.admin == s.pendingAdmin && t.pendingAdmin.None? && t.executeAfter.None?)
      && (Revokes(s, action) ==>
            && s.admin == Some(action.call.admin) && Authorized(action.auth, action.call.admin)
            && t.pendingAdmin.None? && t.executeAfter.None? && t.admin == s.admin)
      && (SetsAdmin(s, action) ==>
            && s.admin.Some? && Authorized(action.auth, s.admin.value)
            && t.admin == Some(action.call.newAdmin)
            && t.pendingAdmin == s.pendingAdmin && t.executeAfter == s.executeAfter)
      && (!Schedules(s, action) && !Executes(s, action) && !Revokes(s, action) ==>
            t.pendingAdmin == s.pendingAdmin && t.executeAfter == s.executeAfter)
      && (s.admin.Some? && !Executes(s, action) && !SetsAdmin(s, action) ==> t.admin == s.admin)
      && (s.admin.Some? ==> t.token == s.token)
  {
    if action.Invoke? && !IsAdminCall(action.call) {
      StreamCallLeavesAdmin(s, action.auth, action.call);
    }
  }

  // Step `j` is the schedule that put `account` in line, and nothing since then
  // has replaced, revoked or executed it.
  ghost predicate InLineSince(s: State, actions: seq<Action>, j: nat, account: Address) {
    && j < |actions|
    && Schedules(StateBefore(s, actions, j), actions[j])
    && actions[j].call.newAdmin == account
    && (forall k: nat | j < k < |actions| ::
          var t := StateBefore(s, actions, k);
          !Schedules(t, actions[k]) && !Executes(t, actions[k]) && !Revokes(t, actions[k]))
  }

  lemma {:induction false} InLineExtends(s: State, actions: seq<Action>, j: nat, account: Address, last: Action)
    requires InLineSince(s, actions, j, account)
    requires
      var t := Run(s, actions);
      !Schedules(t, last) && !Executes(t, last) && !Revokes(t, last)
    ensures InLineSince(s, actions + [last], j, account)
    ensures StateBefore(s, actions + [last], j) == StateBefore(s, actions, j)
  {
    var longer := actions + [last];
    assert forall k: nat | k <= |actions| :: longer[..k] == actions[..k];
    assert actions[..|actions|] == actions;
  }

  /** Whoever is pending was named by the latest schedule, exactly one delay before
      the recorded time. */
  lemma {:induction false} PendingHasOrigin(s: State, actions: seq<Action>) returns (j: nat)
    requires WellFormed(s) && s.pendingAdmin.None?
    requires Run(s, actions).pendingAdmin.Some?
    ensures InLineSince(s, actions, j, Run(s, actions).pendingAdmin.value)
    ensures Run(s, actions).executeAfter == Some(StateBefore(s, actions, j).now + 86_400)
    decreases |actions|
  {
    hide Apply;
    var n := |actions|;
    var earlier, last := actions[..n - 1], actions[n - 1];
    var t := Run(s, earlier);
    RunWellFormed(s, earlier);
    AdminOnlyMovesBy(t, last);
    if Schedules(t, last) {
      j := n - 1;
    } else {
      j := PendingHasOrigin(s, earlier);
      InLineExtends(s, earlier, j, t.pendingAdmin.value, last);
      assert actions == earlier + [last];
    }
  }

  /** Over every run, a transfer that executes installs the account the latest
      schedule named, at least a day after it, with no schedule, revocation or
      execution in between. */
  lemma {:induction false} ExecutionHonoursTimelock(s: State, actions: seq<Action>, i: nat)
    requires WellFormed(s) && s.pendingAdmin.None?
    requires i < |actions| && Executes(StateBefore(s, actions, i), actions[i])
    ensures exists j: nat, account ::
              && j < i && InLineSince(s, actions[..i], j, account)
              && StateBefore(s, actions, i + 1).admin == Some(account)
              && StateBefore(s, actions, j).now + 86_400 <= StateBefore(s, actions, i).now
  {
    hide Apply;
    var earlier := actions[..i];
    RunWellFormed(s, earlier);
    AdminOnlyMovesBy(Run(s, earlier), actions[i]);
    var j := PendingHasOrigin(s, earlier);
    assert actions[..i + 1][..i] == earlier;
    assert earlier[..j] == actions[..j];
    assert InLineSince(s, actions[..i], j, Run(s, earlier).pendingAdmin.value);
  }

  /** Conversely, a schedule that is in line is what the contract holds as pending. */
  lemma {:induction false} InLineIsPending(s: State, actions: seq<Action>, j: nat, account: Address)
    requires WellFormed(s) && InLineSince(s, actions, j, account)
    ensures Run(s, actions).pendingAdmin == Some(account)
    ensures Run(s, actions).executeAfter == Some(StateBefore(s, actions, j).now + 86_400)
    decreases |actions|
  {
    hide Apply;
    var n := |actions|;
    var earlier, last := actions[..n - 1], actions[n - 1];
    RunWellFormed(s, earlier);
    AdminOnlyMovesBy(Run(s, earlier), last);
    assert forall k: nat | k < n :: earlier[..k] == actions[..k];
    if j < n - 1 {
      assert InLineSince(s, earlier, j, account);
      InLineIsPending(s, earlier, j, account);
      assert StateBefore(s, actions, n - 1) == Run(s, earlier);
    }
  }

  /** Anyone can execute after a run exactly when some schedule is in line and a day
      old. Execution then installs the account that schedule named, and until then
      it answers that the timelock has not expired. */
  lemma {:induction false} ExecutesIff(s: State, actions: seq<Action>, auth: set<Address>)
    requires WellFormed(s) && s.pendingAdmin.None?
    ensures
      var t := Run(s, actions);
      Executes(t, Invoke(auth, DoExecuteAdminTransfer)) <==>
        exists j: nat, account ::
          InLineSince(s, actions, j, account) && StateBefore(s, actions, j).now + 86_400 <= t.now
    ensures
      var t := Run(s, actions);
      forall j: nat, account | InLineSince(s, actions, j, account) ::
        if t.now < StateBefore(s, actions, j).now + 86_400
        then ExecuteAdminTransfer(t) == Reject(TimelockNotExpired)
        else Step(t, Invoke(auth, DoExecuteAdminTransfer)).admin == Some(account)
  {
    var t := Run(s, actions);
    var action := Invoke(auth, DoExecuteAdminTransfer);
    RunWellFormed(s, actions);
    if Executes(t, action) {
      var j := PendingHasOrigin(s, actions);
      assert InLineSince(s, actions, j, t.pendingAdmin.value);
    }
    forall j: nat, account | InLineSince(s, actions, j, account)
      ensures t.admin.Some? && t.pendingAdmin == Some(account)
      ensures t.executeAfter == Some(StateBefore(s, actions, j).now + 86_400)
    {
      InLineIsPending(s, actions, j, account);
    }
  }

  /** As long as a schedule is in line, due or not, the administrator can revoke it,
      and nobody can execute it afterwards. */
  lemma {:induction false} RevocationStaysOpen(s: State, actions: seq<Action>, j: nat, account: Address, admin: Address)
    requires WellFormed(s) && InLineSince(s, actions, j, account)
    requires Run(s, actions).admin == Some(admin) && admin != Contract
    ensures
      var revoke := Invoke({admin}, DoCancelAdminTransfer(admin));
      var revoked := Step(Run(s, actions), revoke);
      && Revokes(Run(s, actions), revoke)
      && revoked.admin == Some(admin)
      && ExecuteAdminTransfer(revoked) == Reject(NoPendingAdminAction)
  {
    hide Run;
    InLineIsPending(s, actions, j, account);
  }

  function Executed(s: State, action: Action): int {
    if Executes(s, action) then 1 else 0
  }

  /** k executed transfers take at least k days, and one more is under way only if
      it cannot execute before day k + 1. */
  lemma {:induction false} TransfersTakeDays(s: State, actions: seq<Action>)
    requires WellFormed(s) && s.pendingAdmin.None?
    ensures
      var t := Run(s, actions);
      var days := Total(Executed, s, actions);
      && 0 <= days
      && s.now + days * 86_400 <= t.now
      && (t.pendingAdmin.Some? ==>
            t.executeAfter.Some? && s.now + (days + 1) * 86_400 <= t.executeAfter.value)
    decreases |actions|
  {
    hide Apply;
    if actions != [] {
      var earlier, last := actions[..|actions| - 1], actions[|actions| - 1];
      TransfersTakeDays(s, earlier);
      RunWellFormed(s, earlier);
      RunWellFormed(s, actions);
      AdminOnlyMovesBy(Run(s, earlier), last);
      StepClock(Run(s, earlier), last);
    }
  }

  // ---- The way around it -----------------------------------------------------

  predicate NoSetAdmin(s: State, action: Action) {
    !SetsAdmin(s, action)
  }

  /** Without `set_admin`, the pending account is never the administrator already,
      so every execution really changes the administrator. */
  lemma {:induction false} PendingIsNewWithoutSetAdmin(s: State, actions: seq<Action>)
    requires WellFormed(s) && s.pendingAdmin.None? && Throughout(NoSetAdmin, s, actions)
    ensures Run(s, actions).pendingAdmin.Some? ==> Run(s, actions).pendingAdmin != Run(s, actions).admin
    ensures forall auth ::
      var t := Run(s, actions);
      Executes(t, Invoke(auth, DoExecuteAdminTransfer)) ==>
        Step(t, Invoke(auth, DoExecuteAdminTransfer)).admin != t.admin
    decreases |actions|
  {
    hide Apply;
    RunWellFormed(s, actions);
    var t := Run(s, actions);
    if actions != [] {
      var earlier, last := actions[..|actions| - 1], actions[|actions| - 1];
      PendingIsNewWithoutSetAdmin(s, earlier);
      RunWellFormed(s, earlier);
      AdminOnlyMovesBy(Run(s, earlier), last);
    }
    forall auth | Executes(t, Invoke(auth, DoExecuteAdminTransfer))
      ensures Step(t, Invoke(auth, DoExecuteAdminTransfer)).admin != t.admin
    {
      AdminOnlyMovesBy(t, Invoke(auth, DoExecuteAdminTransfer));
    }
  }

  // The one way the pending account becomes the administrator without executing.
  predicate NotOvertaken(s: State, action: Action) {
    !(SetsAdmin(s, action) && s.pendingAdmin == Some(action.call.newAdmin))
  }

  ghost predicate PendingIsNew(s: State, actions: seq<Action>)
    decreases |actions|
  {
    && (actions == [] || PendingIsNew(s, actions[..|actions| - 1]))
    && (Run(s, actions).pendingAdmin.Some? ==> Run(s, actions).pendingAdmin != Run(s, actions).admin)
  }

  /** Throughout a run an execution would install someone new exactly when no
      `set_admin` in it names the pending account. */
  lemma {:induction false} PendingIsNewIff(s: State, actions: seq<Action>)
    requires WellFormed(s) && s.pendingAdmin.None?
    ensures PendingIsNew(s, actions) <==> Throughout(NotOvertaken, s, actions)
    decreases |actions|
  {
    hide Apply;
    if actions != [] {
      var earlier, last := actions[..|actions| - 1], actions[|actions| - 1];
      PendingIsNewIff(s, earlier);
      RunWellFormed(s, earlier);
      AdminOnlyMovesBy(Run(s, earlier), last);
    }
  }

  // ---- One initialization ------------------------------------------------------

  /** Initialization happens once: from then on the contract has an administrator, the
      token never changes, and every further attempt is refused. */
  lemma {:induction false} InitializedOnce(s: State, actions: seq<Action>)
    requires WellFormed(s) && s.admin.Some?
    ensures Run(s, actions).admin.Some? && Run(s, actions).token == s.token && s.token.Some?
    ensures forall admin, token :: Initialize(Run(s, actions), admin, token) == Reject(AlreadyInitialized)
    decreases |actions|
  {
    hide Apply;
    if actions != [] {
      var earlier, last := actions[..|actions| - 1], actions[|actions| - 1];
      InitializedOnce(s, earlier);
      RunWellFormed(s, earlier);
      RunWellFormed(s, actions);
      AdminOnlyMovesBy(Run(s, earlier), last);
    }
  }

  /** A step replaces an administrator exactly when it executes a pending transfer
      whose day is over, or is an authorized `set_admin`, which waits for nothing,
      in both cases to a different account. */
  lemma AdminChangesIff(s: State, action: Action)
    requires WellFormed(s) && s.admin.Some?
    ensures Step(s, action).admin != s.admin <==>
            action.Invoke? &&
            (|| (action.call.DoExecuteAdminTransfer? && s.pendingAdmin.Some? && s.executeAfter.value <= s.now
                 && s.pendingAdmin != s.admin)
             || (action.call.DoSetAdmin? && Authorized(action.auth, s.admin.value)
                 && action.call.newAdmin != s.admin.value))
  {
    AdminOnlyMovesBy(s, action);
  }

  /** The documented delay does not bind `set_admin`: in the second it is scheduled,
      a transfer can be overtaken, and it still stands against the new administrator. */
  lemma SetAdminSkipsTimelock(s: State, first: Address, second: Address)
    requires WellFormed(s) && s.admin == Some(first)
    requires first != Contract && first != second && s.now + 86_400 <= U64_MAX
    ensures
      var scheduled := Step(s, Invoke({first}, DoScheduleAdminTransfer(first, second)));
      var overtaken := Step(scheduled, Invoke({first}, DoSetAdmin(second)));
      && overtaken.admin == Some(second) && overtaken.now == s.now
      && overtaken.pendingAdmin == Some(second)
      // Executing it later succeeds and changes nothing.
      && forall later: UInt64 | s.now + 86_400 <= later ::
           && ExecuteAdminTransfer(overtaken.(now := later)).Done?
           && ExecuteAdminTransfer(overtaken.(now := later)).state.admin == overtaken.admin
  {
  }
}
