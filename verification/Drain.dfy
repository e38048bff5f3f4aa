/** Paying everything out after the last window has closed. */
module Drain {
  import opened Arithmetic
  import opened Escrow
  import opened Machine
  import opened Runs
  import opened Solvency
  import opened StreamTable
  import opened Token
  import opened Types
  import opened Vesting

  predicate Drainable(s: State, id: UInt64) {
    && id in s.streams
    && s.streams[id].status == Active
    && s.streams[id].end <= s.now
    && s.streams[id].recipient != Contract
  }

  predicate AllDrainable(s: State, ids: seq<UInt64>) {
    forall i | 0 <= i < |ids| :: Drainable(s, ids[i])
  }

  predicate Distinct(ids: seq<UInt64>) {
    forall i, j | 0 <= i < j < |ids| :: ids[i] != ids[j]
  }

  function WithdrawCall(recipient: Address, id: UInt64): Action {
    Invoke({recipient}, DoWithdraw(id, recipient))
  }

  // Each recipient in turn withdraws their stream.
  function DrainCalls(s: State, ids: seq<UInt64>): seq<Action>
    requires AllDrainable(s, ids)
    decreases |ids|
  {
    if ids == [] then []
    else
      var id := ids[|ids| - 1];
      DrainCalls(s, ids[..|ids| - 1]) + [WithdrawCall(s.streams[id].recipient, id)]
  }

  function Emptied(stream: Stream): Stream {
    stream.(withdrawn := stream.total, status := Completed)
  }

  ghost predicate Drained(s: State, t: State, ids: seq<UInt64>) {
    && Funded(t) && t.now == s.now && t.counter == s.counter
    && (forall id: UInt64 | id in s.streams ::
          id in t.streams && t.streams[id] == if id in ids then Emptied(s.streams[id]) else s.streams[id])
    && Surplus(t) == Surplus(s)
  }

  lemma DrainStep(s: State, id: UInt64)
    requires Funded(s) && Drainable(s, id)
    ensures
      var action := WithdrawCall(s.streams[id].recipient, id);
      && Succeeds(s, action)
      && Funded(Step(s, action)) && Surplus(Step(s, action)) == Surplus(s)
      && Step(s, action).streams == s.streams[id := Emptied(s.streams[id])]
      && Step(s, action).now == s.now && Step(s, action).counter == s.counter
  {
    var stream := s.streams[id];
    var recipient := stream.recipient;
    var action := WithdrawCall(recipient, id);
    AccruedFull(stream, s.now);
    WithdrawSucceedsIff(s, action.auth, id, recipient);
    var done := Withdraw(s, action.auth, id, recipient);
    WithdrawRewrites(s, action.auth, id, recipient);
    WithdrawSurplus(s, done.state, id, done.value);
    StepFunded(s, action);
  }

  lemma {:induction false} DrainOneMore(s: State, t: State, front: seq<UInt64>, id: UInt64)
    requires Funded(s) && Drained(s, t, front) && Drainable(s, id) && id !in front
    ensures
      var action := WithdrawCall(s.streams[id].recipient, id);
      Succeeds(t, action) && Drained(s, Step(t, action), front + [id])
  {
    hide Apply;
    DrainStep(t, id);
  }

  lemma NothingDrained(s: State)
    requires Funded(s)
    ensures Drained(s, s, [])
  {
  }

  /** Once their windows are over, withdrawing any active streams in any order
      succeeds every time, completes exactly those streams in full, and touches
      neither the others nor the surplus. */
  lemma {:induction false} DrainInAnyOrder(s: State, ids: seq<UInt64>)
    requires Funded(s) && Distinct(ids) && AllDrainable(s, ids)
    ensures Throughout(Succeeds, s, DrainCalls(s, ids))
    ensures Drained(s, Run(s, DrainCalls(s, ids)), ids)
    decreases |ids|
  {
    hide Apply, Drained;
    if ids == [] {
      assert Drained(s, s, ids) by {
        NothingDrained(s);
      }
    } else {
      var front, id := ids[..|ids| - 1], ids[|ids| - 1];
      DrainInAnyOrder(s, front);
      var calls := DrainCalls(s, ids);
      assert calls[..|calls| - 1] == DrainCalls(s, front);
      assert id !in front;
      DrainOneMore(s, Run(s, DrainCalls(s, front)), front, id);
      assert ids == front + [id];
    }
  }

  lemma {:induction false} NothingHeld(s: State, bound: UInt64)
    requires WellFormed(s)
    requires forall id: UInt64 | id in s.streams :: s.streams[id].status != Active
    ensures HeldBelow(s.streams, bound) == 0
  {
    if bound > 0 {
      NothingHeld(s, bound - 1);
    }
  }

  /** Draining every active stream pays out exactly what was outstanding: nothing
      stays active and the contract is left with its surplus. */
  lemma {:induction false} DrainEverything(s: State, ids: seq<UInt64>)
    requires Funded(s) && Distinct(ids) && AllDrainable(s, ids)
    requires forall id: UInt64 | id in s.streams && s.streams[id].status == Active :: id in ids
    ensures
      var t := Run(s, DrainCalls(s, ids));
      && Throughout(Succeeds, s, DrainCalls(s, ids))
      && (forall id: UInt64 | id in t.streams :: t.streams[id].status != Active)
      && Outstanding(t) == 0
      && BalanceOf(t.balances, Contract) == Surplus(s) == BalanceOf(s.balances, Contract) - Outstanding(s)
  {
    hide Apply;
    var t := Run(s, DrainCalls(s, ids));
    DrainInAnyOrder(s, ids);
    forall id: UInt64 | id in t.streams ensures t.streams[id].status != Active {
      assert id in s.streams;
    }
    NothingHeld(t, t.counter);
  }
}
