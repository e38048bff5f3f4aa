/** Concrete runs on which the contract does not keep what its documentation says. */
module Counterexamples {
  import opened Arithmetic
  import opened Escrow
  import opened Machine
  import opened Runs
  import opened StreamTable
  import opened Supply
  import opened Token
  import opened Types
  import opened Vesting
  import opened Wrappers

  const ADMIN := Account(0)
  const ALICE := Account(1)
  const BOB := Account(2)
  const CAROL := Account(3)
  const TOKEN := Account(4)

  // A state of an initialized contract under the default cap, up to its log.
  ghost predicate At(s: State, now: UInt64, balances: Ledger, supply: Int128, streams: seq<Stream>) {
    && s.admin == Some(ADMIN) && s.supplyCap == I128_MAX && s.now == now
    && s.totalSupply == supply && s.counter == |streams|
    && (forall account :: BalanceOf(s.balances, account) == BalanceOf(balances, account))
    && (forall id: UInt64 :: id in s.streams <==> id < |streams|)
    && (forall id: UInt64 | id < |streams| :: s.streams[id] == streams[id])
  }

  lemma {:induction false} RunLast(s: State, actions: seq<Action>, last: Action)
    ensures Run(s, actions + [last]) == Step(Run(s, actions), last)
  {
    assert (actions + [last])[..|actions|] == actions;
  }

  // ---- An extension after a withdrawal ----------------------------------------

  const BOBS: Stream := Stream(ALICE, BOB, 100, 0, 0, 100, Active)
  const CAROLS: Stream := Stream(ALICE, CAROL, 1000, 0, 0, 100, Active)

  const OPEN_BOBS := Invoke({ALICE}, DoCreateStream(ALICE, StreamRequest(BOB, 100, 0, 100)))
  const OPEN_CAROLS := Invoke({ALICE}, DoCreateStream(ALICE, StreamRequest(CAROL, 1000, 0, 100)))
  const BOB_WITHDRAWS := Invoke({BOB}, DoWithdraw(0, BOB))
  const STRETCH_BOBS := Invoke({ALICE}, DoExtendStream(0, ALICE, 1000))
  const CANCEL_BOBS := Invoke({ALICE}, DoCancel(0, ALICE))

  lemma Started(s: State)
    requires s == Deployed(map[ALICE := 1100], 0)
    ensures At(Step(s, Invoke({}, DoInitialize(ADMIN, TOKEN))), 0, map[ALICE := 1100], 0, [])
  {
  }

  lemma BobsOpened(s: State)
    requires At(s, 0, map[ALICE := 1100], 0, [])
    ensures At(Step(s, OPEN_BOBS), 0, map[ALICE := 1000, Contract := 100], 100, [BOBS])
  {
    assert BalanceOf(s.balances, ALICE) == 1100 && BalanceOf(s.balances, Contract) == 0;
    TransferMovesExactly(s.balances, ALICE, Contract, 100);
  }

  lemma CarolsOpened(s: State)
    requires At(s, 0, map[ALICE := 1000, Contract := 100], 100, [BOBS])
    ensures At(Step(s, OPEN_CAROLS), 0, map[Contract := 1100], 1100, [BOBS, CAROLS])
  {
    assert BalanceOf(s.balances, ALICE) == 1000 && BalanceOf(s.balances, Contract) == 100;
    TransferMovesExactly(s.balances, ALICE, Contract, 1000);
  }

  lemma HalfTimeReached(s: State)
    requires At(s, 0, map[Contract := 1100], 1100, [BOBS, CAROLS])
    ensures At(Step(s, AdvanceTime(50)), 50, map[Contract := 1100], 1100, [BOBS, CAROLS])
  {
  }

  lemma HalfWithdrawn(s: State)
    requires At(s, 50, map[Contract := 1100], 1100, [BOBS, CAROLS])
    ensures At(Step(s, BOB_WITHDRAWS), 50, map[BOB := 50, Contract := 1050], 1050,
               [BOBS.(withdrawn := 50), CAROLS])
  {
    hide CreateStream, CreateStreamBatch, TopUp, ExtendStream, Cancel;
    assert s.streams[0] == BOBS;
    assert Vested(BOBS, 50) == Ok(50);
    assert BalanceOf(s.balances, BOB) == 0 && BalanceOf(s.balances, Contract) == 1100;
    TransferMovesExactly(s.balances, Contract, BOB, 50);
  }

  lemma Stretched(s: State)
    requires At(s, 50, map[BOB := 50, Contract := 1050], 1050, [BOBS.(withdrawn := 50), CAROLS])
    ensures At(Step(s, STRETCH_BOBS), 50, map[BOB := 50, Contract := 1050], 1050,
               [BOBS.(withdrawn := 50, end := 1000), CAROLS])
  {
    assert s.streams[0] == BOBS.(withdrawn := 50);
  }

  lemma BobsCancelled(s: State)
    requires At(s, 50, map[BOB := 50, Contract := 1050], 1050, [BOBS.(withdrawn := 50, end := 1000), CAROLS])
    ensures At(Step(s, CANCEL_BOBS), 50, map[ALICE := 95, BOB := 50, Contract := 955], 1000,
               [BOBS.(withdrawn := 5, end := 1000, status := Cancelled), CAROLS])
  {
    hide CreateStream, CreateStreamBatch, TopUp, ExtendStream, Withdraw;
    var stream := BOBS.(withdrawn := 50, end := 1000);
    assert s.streams[0] == stream;
    assert Vested(stream, 50) == Ok(5);
    assert Settle(stream, 50) == Ok(Settlement(5, -45, 95));
    assert BalanceOf(s.balances, ALICE) == 0 && BalanceOf(s.balances, Contract) == 1050;
    TransferMovesExactly(s.balances, Contract, ALICE, 95);
  }

  function StretchedAndCancelled(): seq<Action> {
    [Invoke({}, DoInitialize(ADMIN, TOKEN))] + [OPEN_BOBS] + [OPEN_CAROLS] + [AdvanceTime(50)]
    + [BOB_WITHDRAWS] + [STRETCH_BOBS] + [CANCEL_BOBS]
  }

  lemma CarolsOwed(s: State)
    requires At(s, 50, map[ALICE := 95, BOB := 50, Contract := 955], 1000,
                [BOBS.(withdrawn := 5, end := 1000, status := Cancelled), CAROLS])
    ensures Outstanding(s) == 1000 && Surplus(s) == -45
  {
    assert s.streams[0].status == Cancelled && s.streams[1] == CAROLS;
    assert HeldBelow(s.streams, 1) == HeldBelow(s.streams, 0) + 0;
    assert HeldBelow(s.streams, 2) == HeldBelow(s.streams, 1) + 1000;
  }

  /** Bob has withdrawn 50 of 100 when Alice stretches his stream tenfold and cancels
      it: `withdrawn` falls from 50 to 5, Alice is refunded 95 although only 50 were
      left, and the contract keeps 955 tokens against the 1000 it still owes Carol.
      Tracked supply says 1000. */
  lemma ExtensionCanBreakSolvency(s: State)
    requires s == Deployed(map[ALICE := 1100], 0)
    ensures
      var t := Run(s, StretchedAndCancelled());
      && At(t, 50, map[ALICE := 95, BOB := 50, Contract := 955], 1000,
            [BOBS.(withdrawn := 5, end := 1000, status := Cancelled), CAROLS])
      && Outstanding(t) == 1000 && Surplus(t) == -45
  {
    hide Apply, At;
    var a0 := [Invoke({}, DoInitialize(ADMIN, TOKEN))];
    RunLast(s, [], a0[0]);
    assert [] + a0 == a0;
    Started(s);
    RunLast(s, a0, OPEN_BOBS);
    BobsOpened(Run(s, a0));
    var a2 := a0 + [OPEN_BOBS];
    RunLast(s, a2, OPEN_CAROLS);
    CarolsOpened(Run(s, a2));
    var a3 := a2 + [OPEN_CAROLS];
    RunLast(s, a3, AdvanceTime(50));
    HalfTimeReached(Run(s, a3));
    var a4 := a3 + [AdvanceTime(50)];
    RunLast(s, a4, BOB_WITHDRAWS);
    HalfWithdrawn(Run(s, a4));
    var a5 := a4 + [BOB_WITHDRAWS];
    RunLast(s, a5, STRETCH_BOBS);
    Stretched(Run(s, a5));
    var a6 := a5 + [STRETCH_BOBS];
    RunLast(s, a6, CANCEL_BOBS);
    BobsCancelled(Run(s, a6));
    CarolsOwed(Run(s, StretchedAndCancelled()));
  }

  // ---- Batches against the cap and the start shorthand -----------------------

  lemma BatchOfOne(s: State, request: StreamRequest)
    requires s == Deployed(map[ALICE := 100], 10).(admin := Some(ADMIN), token := Some(TOKEN), supplyCap := s.supplyCap)
    requires request == StreamRequest(BOB, 100, 0, 20)
    ensures
      var batch := CreateStreamBatch(s, {ALICE}, ALICE, [request]);
      && batch.Done?
      && 0 in batch.state.streams && batch.state.streams[0] == Stream(ALICE, BOB, 100, 0, 0, 20, Active)
      && batch.state.totalSupply == 0
  {
    assert [request][1..] == [];
    assert ValidateBatch([request], 10, 0) == Ok(100) by {
      assert ValidateBatch([], 10, 100) == Ok(100);
    }
    assert BalanceOf(s.balances, ALICE) == 100;
    assert CreateStreamBatch(s, {ALICE}, ALICE, [request]).Done?;
    BatchOpens(s, {ALICE}, ALICE, [request]);
    assert [request][0] == request;
  }

  /** Under a cap of 1 a single creation of 100 is refused and a batch of it is not. */
  lemma BatchIgnoresCap(s: State, request: StreamRequest)
    requires s == Deployed(map[ALICE := 100], 10).(admin := Some(ADMIN), token := Some(TOKEN), supplyCap := 1)
    requires request == StreamRequest(BOB, 100, 0, 20)
    ensures WellFormed(s)
    ensures CreateStream(s, {ALICE}, ALICE, request) == Reject(SupplyCapExceeded)
    ensures CreateStreamBatch(s, {ALICE}, ALICE, [request]).Done?
    ensures CreateStreamBatch(s, {ALICE}, ALICE, [request]).state.totalSupply == 0
  {
    BatchOfOne(s, request);
  }

  /** "Start now" in a batch at time 10 means "started at time 0": half of a stream
      that ends at 20 has vested the moment it is created, where a single creation
      vests nothing yet. */
  lemma BatchIgnoresStartNow(s: State, request: StreamRequest)
    requires s == Deployed(map[ALICE := 100], 10).(admin := Some(ADMIN), token := Some(TOKEN))
    requires request == StreamRequest(BOB, 100, 0, 20)
    ensures
      var single, batch := CreateStream(s, {ALICE}, ALICE, request), CreateStreamBatch(s, {ALICE}, ALICE, [request]);
      && single.Done? && Vested(single.state.streams[0], 10) == Ok(0)
      && batch.Done? && 0 in batch.state.streams && Vested(batch.state.streams[0], 10) == Ok(50)
  {
    BatchOfOne(s, request);
  }

  // ---- Tracked supply out of range --------------------------------------------

  const FIRST: Stream := Stream(ALICE, BOB, I128_MAX, 0, 0, 1, Active)
  const SECOND: Stream := Stream(BOB, ALICE, I128_MAX, 0, 1, 2, Active)

  const ALICE_BATCH := Invoke({ALICE}, DoCreateStreamBatch(ALICE, [StreamRequest(BOB, I128_MAX, 0, 1)]))
  const BOB_BATCH := Invoke({BOB}, DoCreateStreamBatch(BOB, [StreamRequest(ALICE, I128_MAX, 1, 2)]))
  const ALICE_WITHDRAWS := Invoke({ALICE}, DoWithdraw(1, ALICE))

  lemma EverythingBatched(s: State, action: Action, payer: Address, request: StreamRequest, now: UInt64,
                          supply: Int128, streams: seq<Stream>)
    requires At(s, now, map[payer := I128_MAX], supply, streams) && |streams| <= 1
    requires payer != Contract && request.totalAmount == I128_MAX
    requires RequestFault(request, now) == None
    requires action == Invoke({payer}, DoCreateStreamBatch(payer, [request]))
    ensures At(Step(s, action), now, map[Contract := I128_MAX], supply, streams + [NewStream(payer, request)])
  {
    assert ValidateBatch([request], now, 0) == Ok(I128_MAX) by {
      assert [request][1..] == [];
      assert ValidateBatch([], now, I128_MAX) == Ok(I128_MAX);
    }
    assert BalanceOf(s.balances, payer) == I128_MAX && BalanceOf(s.balances, Contract) == 0;
    assert CreateStreamBatch(s, {payer}, payer, [request]).Done?;
    BatchOpens(s, {payer}, payer, [request]);
    assert SumAmounts([request]) == I128_MAX;
    TransferMovesExactly(s.balances, payer, Contract, I128_MAX);
    assert [request][0] == request;
  }

  lemma FirstPaid(s: State)
    requires At(s, 1, map[Contract := I128_MAX], 0, [FIRST])
    ensures At(Step(s, BOB_WITHDRAWS), 1, map[BOB := I128_MAX], -I128_MAX,
               [FIRST.(withdrawn := I128_MAX, status := Completed)])
  {
    assert s.streams[0] == FIRST;
    assert Vested(FIRST, 1) == Ok(I128_MAX);
    assert BalanceOf(s.balances, BOB) == 0 && BalanceOf(s.balances, Contract) == I128_MAX;
    TransferMovesExactly(s.balances, Contract, BOB, I128_MAX);
  }

  function TwoBatches(): seq<Action> {
    [Invoke({}, DoInitialize(ADMIN, TOKEN))] + [ALICE_BATCH] + [AdvanceTime(1)] + [BOB_WITHDRAWS] + [BOB_BATCH]
    + [AdvanceTime(2)]
  }

  lemma {:induction false} Later(s: State, now: UInt64, to: UInt64, balances: Ledger, supply: Int128,
                                 streams: seq<Stream>)
    requires At(s, now, balances, supply, streams) && now <= to
    ensures At(Step(s, AdvanceTime(to)), to, balances, supply, streams)
  {
  }

  lemma Initialized(s: State)
    requires s == Deployed(map[ALICE := I128_MAX], 0)
    ensures At(Step(s, Invoke({}, DoInitialize(ADMIN, TOKEN))), 0, map[ALICE := I128_MAX], 0, [])
  {
  }

  lemma NoBatchInWithdrawal(t: State)
    ensures Total(Batched, t, [ALICE_WITHDRAWS]) == 0
  {
    assert [ALICE_WITHDRAWS][..0] == [];
  }

  lemma SecondPaid(t: State)
    requires WellFormed(t)
    requires At(t, 2, map[Contract := I128_MAX], -I128_MAX,
                [FIRST.(withdrawn := I128_MAX, status := Completed), SECOND])
    ensures Drift(t) == -2 * I128_MAX
    ensures Drift(Step(t, ALICE_WITHDRAWS)) == 0
    ensures !TrackedExactly(t, [ALICE_WITHDRAWS])
  {
    assert t.streams[0].status == Completed && t.streams[1] == SECOND;
    assert HeldBelow(t.streams, 1) == HeldBelow(t.streams, 0) + 0;
    assert HeldBelow(t.streams, 2) == HeldBelow(t.streams, 1) + I128_MAX;
    assert Vested(SECOND, 2) == Ok(I128_MAX);
    assert BalanceOf(t.balances, ALICE) == 0 && BalanceOf(t.balances, Contract) == I128_MAX;
    var next := Step(t, ALICE_WITHDRAWS);
    assert Withdraw(t, {ALICE}, 1, ALICE).Done?;
    WithdrawRewrites(t, {ALICE}, 1, ALICE);
    RewriteOutstanding(t, next, 1);
    AccruedFull(SECOND, 2);
    assert next.totalSupply == 0 && Outstanding(next) == 0;
    RunLast(t, [], ALICE_WITHDRAWS);
    assert [] + [ALICE_WITHDRAWS] == [ALICE_WITHDRAWS];
    NoBatchInWithdrawal(t);
  }

  /** With every token of the ledger batched twice, the second payout takes the
      tracked supply below the 128-bit range: it is reset to zero, and from then on
      it is not the escrow sum less the batches any more. */
  lemma TwoBatchesResetSupply(s: State)
    requires s == Deployed(map[ALICE := I128_MAX], 0)
    ensures
      var t := Run(s, TwoBatches());
      && WellFormed(t) && Drift(t) == -2 * I128_MAX
      && Drift(Step(t, ALICE_WITHDRAWS)) == 0
      && !TrackedExactly(t, [ALICE_WITHDRAWS])
  {
    hide Apply, At;
    var a1 := [Invoke({}, DoInitialize(ADMIN, TOKEN))];
    RunLast(s, [], a1[0]);
    assert [] + a1 == a1;
    Initialized(s);
    RunLast(s, a1, ALICE_BATCH);
    EverythingBatched(Run(s, a1), ALICE_BATCH, ALICE, StreamRequest(BOB, I128_MAX, 0, 1), 0, 0, []);
    assert [] + [NewStream(ALICE, StreamRequest(BOB, I128_MAX, 0, 1))] == [FIRST];
    var a2 := a1 + [ALICE_BATCH];
    RunLast(s, a2, AdvanceTime(1));
    Later(Run(s, a2), 0, 1, map[Contract := I128_MAX], 0, [FIRST]);
    var a3 := a2 + [AdvanceTime(1)];
    RunLast(s, a3, BOB_WITHDRAWS);
    FirstPaid(Run(s, a3));
    var a4 := a3 + [BOB_WITHDRAWS];
    var paid := FIRST.(withdrawn := I128_MAX, status := Completed);
    RunLast(s, a4, BOB_BATCH);
    EverythingBatched(Run(s, a4), BOB_BATCH, BOB, StreamRequest(ALICE, I128_MAX, 1, 2), 1, -I128_MAX, [paid]);
    assert [paid] + [NewStream(BOB, StreamRequest(ALICE, I128_MAX, 1, 2))] == [paid, SECOND];
    var a5 := a4 + [BOB_BATCH];
    RunLast(s, a5, AdvanceTime(2));
    Later(Run(s, a5), 1, 2, map[Contract := I128_MAX], -I128_MAX, [paid, SECOND]);
    DeployedWellFormed(s.balances, 0);
    RunWellFormed(s, TwoBatches());
    SecondPaid(Run(s, TwoBatches()));
  }
}
