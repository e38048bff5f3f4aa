/** Runs in which no stream has been paid more than has vested, what breaks that,
    and what it guarantees. */
module Solvency {
  import opened Arithmetic
  import opened Entrypoints
  import opened Escrow
  import opened Machine
  import opened Runs
  import opened StreamTable
  import opened Token
  import opened Types
  import opened Vesting
  import opened Wrappers

  ghost predicate Solvent(s: State) {
    forall id: UInt64 | id in s.streams ::
      Sound(s.streams[id]) && s.streams[id].withdrawn <= Accrued(s.streams[id], s.now)
  }

  // An extension the contract accepts.
  predicate Extends(s: State, action: Action) {
    && action.Invoke? && action.call.DoExtendStream?
    && Authorized(action.auth, action.call.sender)
    && action.call.id in s.streams
    && s.streams[action.call.id].sender == action.call.sender
    && s.streams[action.call.id].status == Active
    && s.streams[action.call.id].end < action.call.newEnd
  }

  // What a sender can compute before stretching a stream: whether its withdrawals
  // keep to the new, slower rate. Nothing is divided.
  predicate Affordable(stream: Stream, newEnd: UInt64, now: UInt64) {
    if now <= stream.start then stream.withdrawn <= 0
    else if newEnd <= now then stream.withdrawn <= stream.total
    else stream.withdrawn * (newEnd - stream.start) <= stream.total * (now - stream.start)
  }

  predicate HonestExtension(s: State, action: Action) {
    Extends(s, action) ==> Affordable(s.streams[action.call.id], action.call.newEnd, s.now)
  }

  lemma ExtendSucceedsIff(s: State, auth: set<Address>, id: UInt64, sender: Address, newEnd: UInt64)
    ensures ExtendStream(s, auth, id, sender, newEnd).Done? <==>
            Extends(s, Invoke(auth, DoExtendStream(id, sender, newEnd)))
  {
  }

  lemma QuotientDecides(w: int, product: int, duration: int)
    requires 0 < duration
    ensures w * duration <= product <==> w <= product / duration
  {
    QuotientBounds(product, duration);
    if w <= product / duration {
      MulMonotone(w, product / duration, duration);
    } else {
      MulMonotone(product / duration + 1, w, duration);
    }
  }

  /** The guard decides whether the stretched stream will have vested what was withdrawn. */
  lemma AffordableIff(stream: Stream, newEnd: UInt64, now: UInt64)
    requires Sound(stream) && stream.end < newEnd
    ensures Affordable(stream, newEnd, now) <==> stream.withdrawn <= Accrued(stream.(end := newEnd), now)
  {
    AccruedFull(stream.(end := newEnd), now);
    if stream.start < now < newEnd {
      QuotientDecides(stream.withdrawn, stream.total * (now - stream.start), newEnd - stream.start);
    }
  }

  /** It is automatic before a stream starts and before its first withdrawal. */
  lemma UntouchedStreamsExtendHonestly(s: State, auth: set<Address>, id: UInt64, sender: Address, newEnd: UInt64)
    requires WellFormed(s) && Solvent(s) && id in s.streams
    requires s.now <= s.streams[id].start || s.streams[id].withdrawn == 0
    ensures HonestExtension(s, Invoke(auth, DoExtendStream(id, sender, newEnd)))
  {
    var stream := s.streams[id];
    AccruedFull(stream, s.now);
    if stream.start < s.now {
      MulMonotone(0, s.now - stream.start, stream.total);
    }
  }

  lemma NewStreamsSolvent(s: State, auth: set<Address>, call: Call)
    requires WellFormed(s) && Solvent(s) && Succeeds(s, Invoke(auth, call))
    requires call.DoCreateStream? || call.DoCreateStreamBatch?
    ensures Solvent(Apply(s, auth, call).state)
  {
    var t := Apply(s, auth, call).state;
    StepWellFormed(s, Invoke(auth, call));
    if call.DoCreateStreamBatch? {
      BatchOpens(s, auth, call.sender, call.requests);
    }
    forall id: UInt64 | id in t.streams ensures t.streams[id].withdrawn <= Accrued(t.streams[id], s.now) {
      AccruedFull(t.streams[id], s.now);
    }
  }

  lemma RewriteSolventIff(s: State, t: State, id: UInt64)
    requires WellFormed(s) && Solvent(s) && Rewrites(s, t, id) && Sound(t.streams[id])
    ensures Solvent(t) <==> t.streams[id].withdrawn <= Accrued(t.streams[id], s.now)
  {
  }

  lemma ExtendSolventIff(s: State, auth: set<Address>, id: UInt64, sender: Address, newEnd: UInt64)
    requires WellFormed(s) && Solvent(s) && ExtendStream(s, auth, id, sender, newEnd).Done?
    ensures Solvent(ExtendStream(s, auth, id, sender, newEnd).state) <==>
            HonestExtension(s, Invoke(auth, DoExtendStream(id, sender, newEnd)))
  {
    ExtendRewrites(s, auth, id, sender, newEnd);
    RewriteSolventIff(s, ExtendStream(s, auth, id, sender, newEnd).state, id);
    AffordableIff(s.streams[id], newEnd, s.now);
  }

  lemma TopUpSolvent(s: State, auth: set<Address>, id: UInt64, sender: Address, amount: Int128)
    requires WellFormed(s) && Solvent(s) && TopUp(s, auth, id, sender, amount).Done?
    ensures Solvent(TopUp(s, auth, id, sender, amount).state)
  {
    var t := TopUp(s, auth, id, sender, amount).state;
    TopUpRewrites(s, auth, id, sender, amount);
    AccruedGrowsWithTotal(s.streams[id], t.streams[id].total, s.now);
    RewriteSolventIff(s, t, id);
  }

  lemma WithdrawSolvent(s: State, t: State, id: UInt64, value: Value)
    requires WellFormed(s) && Solvent(s) && id in s.streams && WithdrawEffect(s, t, id, value)
    ensures Solvent(t)
  {
    RewriteSolventIff(s, t, id);
  }

  lemma CancelSolvent(s: State, t: State, id: UInt64, caller: Address)
    requires WellFormed(s) && Solvent(s) && id in s.streams && CancelEffect(s, t, id, caller)
    ensures Solvent(t)
  {
    RewriteSolventIff(s, t, id);
  }

  lemma CallSolventIff(s: State, auth: set<Address>, call: Call)
    requires WellFormed(s) && Solvent(s) && Succeeds(s, Invoke(auth, call)) && !IsAdminCall(call)
    ensures Solvent(Apply(s, auth, call).state) <==> HonestExtension(s, Invoke(auth, call))
  {
    hide CreateStream, CreateStreamBatch, TopUp, ExtendStream, Withdraw, Cancel, Solvent;
    var done := Apply(s, auth, call);
    match call {
      case DoTopUp(id, sender, amount) => TopUpSolvent(s, auth, id, sender, amount);
      case DoExtendStream(id, sender, newEnd) => ExtendSolventIff(s, auth, id, sender, newEnd);
      case DoWithdraw(id, recipient) =>
        WithdrawRewrites(s, auth, id, recipient);
        WithdrawSolvent(s, done.state, id, done.value);
      case DoCancel(id, caller) =>
        CancelRewrites(s, auth, id, caller);
        CancelSolvent(s, done.state, id, caller);
      case _ => NewStreamsSolvent(s, auth, call);
    }
  }

  lemma StepSolventIff(s: State, action: Action)
    requires WellFormed(s) && Solvent(s)
    ensures Solvent(Step(s, action)) <==> HonestExtension(s, action)
  {
    match action
    case AdvanceTime(to) =>
      if to >= s.now {
        forall id: UInt64 | id in s.streams ensures s.streams[id].withdrawn <= Accrued(s.streams[id], to) {
          AccruedGrowsWithTime(s.streams[id], s.now, to);
        }
      }
    case OutsideTransfer(_, _, _) =>
    case Invoke(auth, call) =>
      if IsAdminCall(call) {
        AdminCallLeavesMoney(s, auth, call);
      } else if Succeeds(s, action) {
        CallSolventIff(s, auth, call);
      } else if call.DoExtendStream? {
        ExtendSucceedsIff(s, auth, call.id, call.sender, call.newEnd);
      }
  }

  ghost predicate SolventThroughout(s: State, actions: seq<Action>)
    decreases |actions|
  {
    (actions == [] || SolventThroughout(s, actions[..|actions| - 1])) && Solvent(Run(s, actions))
  }

  /** A run stays solvent exactly when every extension in it is honest. */
  lemma {:induction false} SolventRunIff(s: State, actions: seq<Action>)
    requires WellFormed(s) && Solvent(s)
    ensures SolventThroughout(s, actions) <==> Throughout(HonestExtension, s, actions)
    decreases |actions|
  {
    hide Apply;
    if actions != [] {
      var earlier := actions[..|actions| - 1];
      SolventRunIff(s, earlier);
      RunWellFormed(s, earlier);
      if SolventThroughout(s, earlier) {
        StepSolventIff(Run(s, earlier), actions[|actions| - 1]);
      }
    }
  }

  // ---- What solvent runs keep ------------------------------------------------

  lemma WithdrawIssued(s: State, t: State, id: UInt64, value: Value)
    requires WellFormed(s) && id in s.streams && WithdrawEffect(s, t, id, value)
    ensures Issued(t.balances) == Issued(s.balances)
  {
    var stream := s.streams[id];
    TransferMovesExactly(s.balances, Contract, stream.recipient, Accrued(stream, s.now) - stream.withdrawn);
  }

  lemma {:induction false} PayOutIssued(ledger: Ledger, to: Address, amount: Int128)
    requires PayOut(ledger, to, amount).Some?
    ensures Issued(PayOut(ledger, to, amount).value) == Issued(ledger)
  {
    if amount > 0 {
      TransferMovesExactly(ledger, Contract, to, amount);
    }
  }

  lemma CancelIssued(s: State, t: State, id: UInt64, caller: Address)
    requires WellFormed(s) && id in s.streams && CancelEffect(s, t, id, caller)
    ensures Issued(t.balances) == Issued(s.balances)
  {
    var stream := s.streams[id];
    var accrued := Accrued(stream, s.now);
    PayOutIssued(s.balances, stream.recipient, accrued - stream.withdrawn);
    PayOutIssued(PayOut(s.balances, stream.recipient, accrued - stream.withdrawn).value,
                 stream.sender, stream.total - accrued);
  }

  lemma CallIssued(s: State, auth: set<Address>, call: Call)
    requires WellFormed(s) && Succeeds(s, Invoke(auth, call)) && !IsAdminCall(call)
    ensures Issued(Apply(s, auth, call).state.balances) == Issued(s.balances)
  {
    hide CreateStreamBatch, Withdraw, Cancel;
    var done := Apply(s, auth, call);
    match call {
      case DoCreateStream(sender, request) =>
        TransferMovesExactly(s.balances, sender, Contract, request.totalAmount);
      case DoCreateStreamBatch(sender, requests) =>
        BatchOpens(s, auth, sender, requests);
        TransferMovesExactly(s.balances, sender, Contract, SumAmounts(requests));
      case DoTopUp(id, sender, amount) => TransferMovesExactly(s.balances, sender, Contract, amount);
      case DoExtendStream(_, _, _) =>
      case DoWithdraw(id, recipient) =>
        WithdrawRewrites(s, auth, id, recipient);
        WithdrawIssued(s, done.state, id, done.value);
      case DoCancel(id, caller) =>
        CancelRewrites(s, auth, id, caller);
        CancelIssued(s, done.state, id, caller);
    }
  }

  lemma StepIssued(s: State, action: Action)
    requires WellFormed(s)
    ensures Issued(Step(s, action).balances) == Issued(s.balances)
  {
    match action
    case AdvanceTime(_) =>
    case OutsideTransfer(payer, payee, amount) =>
      if payer != Contract && Transfer(s.balances, payer, payee, amount).Some? {
        TransferMovesExactly(s.balances, payer, payee, amount);
      }
    case Invoke(auth, call) =>
      if IsAdminCall(call) {
        AdminCallLeavesMoney(s, auth, call);
      } else if Succeeds(s, action) {
        CallIssued(s, auth, call);
      }
  }

  // Solvent, with all escrow backed by tokens the contract has.
  ghost predicate Funded(s: State) {
    WellFormed(s) && Solvent(s) && Surplus(s) >= 0 && Issued(s.balances) <= I128_MAX
  }

  lemma NothingOverpaid(s: State, action: Action)
    requires WellFormed(s) && Solvent(s)
    ensures Overpaid(s, action) == 0 && SelfPaid(s, action) >= 0
  {
    if Succeeds(s, action) && action.call.DoCancel? {
      CancelRewrites(s, action.auth, action.call.id, action.call.caller);
    }
  }

  lemma StepFunded(s: State, action: Action)
    requires Funded(s) && HonestExtension(s, action)
    ensures Funded(Step(s, action)) && Surplus(s) <= Surplus(Step(s, action))
  {
    hide Apply;
    StepWellFormed(s, action);
    StepSolventIff(s, action);
    StepSurplus(s, action);
    StepIssued(s, action);
    NothingOverpaid(s, action);
  }

  /** A run of honest extensions keeps every claim backed from any funded state on,
      and the unclaimed surplus never shrinks. */
  lemma {:induction false} RunFunded(s: State, actions: seq<Action>)
    requires Funded(s) && Throughout(HonestExtension, s, actions)
    ensures Funded(Run(s, actions)) && Surplus(s) <= Surplus(Run(s, actions))
    decreases |actions|
  {
    hide Apply;
    if actions != [] {
      RunFunded(s, actions[..|actions| - 1]);
      StepFunded(Run(s, actions[..|actions| - 1]), actions[|actions| - 1]);
    }
  }

  lemma {:induction false} DeployedFunded(balances: Ledger, now: UInt64)
    requires Issued(balances) <= I128_MAX
    ensures Funded(Deployed(balances, now))
  {
  }

  /** From deployment on, as long as what is issued fits an `i128`, every honest run
      leaves every claim backed and the tokens the contract began with untouched. */
  lemma {:induction false} FundedFromDeployment(balances: Ledger, now: UInt64, actions: seq<Action>)
    requires Issued(balances) <= I128_MAX
    requires Throughout(HonestExtension, Deployed(balances, now), actions)
    ensures
      var t := Run(Deployed(balances, now), actions);
      && Funded(t)
      && Outstanding(t) + BalanceOf(balances, Contract) <= BalanceOf(t.balances, Contract)
  {
    hide Apply;
    DeployedFunded(balances, now);
    RunFunded(Deployed(balances, now), actions);
  }

  // ---- Success where everything issued fits ------------------------------------

  /** When no more than an `i128` is issued, the contract's own balance is all that
      can stand in the way of a withdrawal with something to pay. */
  lemma WithdrawNeedsOnlyBalance(s: State, auth: set<Address>, id: UInt64, recipient: Address)
    requires WellFormed(s) && Issued(s.balances) <= I128_MAX
    ensures Withdraw(s, auth, id, recipient).Done? <==>
            && Authorized(auth, recipient)
            && id in s.streams
            && s.streams[id].recipient == recipient
            && s.streams[id].status == Active
            && !Overflows(s.streams[id], s.now)
            && 0 < Accrued(s.streams[id], s.now) - s.streams[id].withdrawn <= BalanceOf(s.balances, Contract)
  {
    WithdrawIs(s, auth, id, recipient);
    if recipient != Contract {
      PairWithinIssued(s.balances, Contract, recipient);
    }
  }

  /** The same for a cancellation: the contract must have the sender's refund and,
      unless the recipient is the contract itself, the recipient's share with it. */
  lemma CancelNeedsOnlyBalance(s: State, auth: set<Address>, id: UInt64, caller: Address)
    requires WellFormed(s) && Issued(s.balances) <= I128_MAX
    ensures Cancel(s, auth, id, caller).Done? <==>
            && Authorized(auth, caller)
            && id in s.streams
            && (caller == s.streams[id].sender || caller == s.streams[id].recipient)
            && s.streams[id].status != Cancelled
            && !Overflows(s.streams[id], s.now)
            && var stream := s.streams[id];
               var share := Positive(Accrued(stream, s.now) - stream.withdrawn);
               var refund := stream.total - Accrued(stream, s.now);
               if stream.recipient == Contract
               then share <= BalanceOf(s.balances, Contract) && refund <= BalanceOf(s.balances, Contract)
               else share + refund <= BalanceOf(s.balances, Contract)
  {
    CanCancelIff(s, auth, id, caller);
    if id in s.streams {
      var stream := s.streams[id];
      AccruedFull(stream, s.now);
      PairWithinIssued(s.balances, Contract, stream.sender);
      if stream.recipient != Contract {
        PairWithinIssued(s.balances, Contract, stream.recipient);
      }
    }
  }

  // ---- Guarantees in a funded state ------------------------------------------

  lemma {:induction false} PayOutSucceeds(ledger: Ledger, to: Address, amount: Int128)
    requires Issued(ledger) <= I128_MAX && amount <= BalanceOf(ledger, Contract)
    ensures PayOut(ledger, to, amount).Some?
  {
    if amount > 0 {
      TransferSucceedsIff(ledger, Contract, to, amount);
    }
  }

  lemma ClaimIsBacked(s: State, id: UInt64)
    requires Funded(s) && id in s.streams
    ensures Held(s.streams[id]) <= BalanceOf(s.balances, Contract)
  {
    HeldWithinOutstanding(s, id, s.counter);
  }

  /** No withdrawal fails for lack of tokens: it succeeds exactly when the caller
      is the stream's recipient, the stream is active, its arithmetic fits and
      something new has vested. */
  lemma WithdrawSucceedsIff(s: State, auth: set<Address>, id: UInt64, recipient: Address)
    requires Funded(s)
    ensures Withdraw(s, auth, id, recipient).Done? <==>
            && Authorized(auth, recipient)
            && id in s.streams
            && s.streams[id].recipient == recipient
            && s.streams[id].status == Active
            && Vested(s.streams[id], s.now).Ok?
            && s.streams[id].withdrawn < Accrued(s.streams[id], s.now)
    ensures Withdraw(s, auth, id, recipient) != Failed(TransferTrap)
  {
    if id in s.streams {
      var stream := s.streams[id];
      VestedRefinesAccrued(stream, s.now);
      AccruedFull(stream, s.now);
      if stream.status == Active && stream.withdrawn < Accrued(stream, s.now) {
        ClaimIsBacked(s, id);
        TransferSucceedsIff(s.balances, Contract, recipient, Accrued(stream, s.now) - stream.withdrawn);
      }
    }
  }

  lemma {:induction false} BothPayOutsSucceed(ledger: Ledger, stream: Stream, recipientPaid: Int128,
                                              senderRefund: Int128)
    requires Issued(ledger) <= I128_MAX && 0 <= recipientPaid && 0 <= senderRefund
    requires recipientPaid + senderRefund <= BalanceOf(ledger, Contract)
    ensures PayOut(ledger, stream.recipient, recipientPaid).Some?
    ensures PayOut(PayOut(ledger, stream.recipient, recipientPaid).value, stream.sender, senderRefund).Some?
  {
    PayOutSucceeds(ledger, stream.recipient, recipientPaid);
    PayOutMoves(ledger, stream.recipient, recipientPaid);
    PayOutIssued(ledger, stream.recipient, recipientPaid);
    PayOutSucceeds(PayOut(ledger, stream.recipient, recipientPaid).value, stream.sender, senderRefund);
  }

  /** No cancellation fails for lack of tokens either: both payouts go through
      whenever a party may cancel at all. */
  lemma CancelSucceedsIff(s: State, auth: set<Address>, id: UInt64, caller: Address)
    requires Funded(s)
    ensures Cancel(s, auth, id, caller).Done? <==>
            && Authorized(auth, caller)
            && id in s.streams
            && (caller == s.streams[id].sender || caller == s.streams[id].recipient)
            && s.streams[id].status != Cancelled
            && Vested(s.streams[id], s.now).Ok?
    ensures Cancel(s, auth, id, caller) != Failed(TransferTrap)
  {
    if id in s.streams && s.streams[id].status != Cancelled {
      var stream := s.streams[id];
      var accrued := Accrued(stream, s.now);
      VestedRefinesAccrued(stream, s.now);
      UnvestedComplementsVested(stream, s.now);
      AccruedFull(stream, s.now);
      ClaimIsBacked(s, id);
      BothPayOutsSucceed(s.balances, stream, accrued - stream.withdrawn, stream.total - accrued);
    }
  }

  /** The documented split at cancellation. The two amounts that really move, the
      positive ones, add up to the unpaid escrow, and `withdrawn` does not fall,
      exactly when no more had been withdrawn than has vested. */
  lemma CancelDistributesEscrowIff(s: State, auth: set<Address>, id: UInt64, caller: Address)
    requires WellFormed(s) && Cancel(s, auth, id, caller).Done?
    ensures
      var t := Cancel(s, auth, id, caller).state;
      var stream := s.streams[id];
      var cancelled := t.events[|s.events|];
      && |t.events| == |s.events| + 1 && cancelled.StreamCancelled?
      && PaidOut(s.balances, t.balances, stream, cancelled.recipientPaid, cancelled.senderRefund)
      && (Positive(cancelled.recipientPaid) + Positive(cancelled.senderRefund) == stream.total - stream.withdrawn
          <==> stream.withdrawn <= Accrued(stream, s.now))
      && (stream.withdrawn <= t.streams[id].withdrawn <==> stream.withdrawn <= Accrued(stream, s.now))
  {
    CancelRewrites(s, auth, id, caller);
  }

  // ---- When `withdrawn` falls --------------------------------------------------

  /** In any well-formed state, solvent or not, a step lowers the `withdrawn` of a
      stream exactly when it is a cancellation of that stream that overpays. */
  lemma StepWithdrawnFallsIff(s: State, action: Action, id: UInt64)
    requires WellFormed(s) && id in s.streams
    ensures id in Step(s, action).streams
    ensures Step(s, action).streams[id].withdrawn < s.streams[id].withdrawn <==>
            Target(action) == Some(id) && Overpaid(s, action) > 0
  {
    hide Withdraw, Cancel;
    StepEvolves(s, action, id);
    if Succeeds(s, action) && Target(action) == Some(id) {
      match action.call {
        case DoTopUp(_, _, _) =>
        case DoExtendStream(_, _, _) =>
        case DoWithdraw(_, recipient) => WithdrawRewrites(s, action.auth, id, recipient);
        case DoCancel(_, caller) => CancelRewrites(s, action.auth, id, caller);
      }
    }
  }

  /** When that can happen is known before the call: a party cancels a stream from
      which more has been withdrawn than has vested, and the contract still holds
      the refund. */
  lemma OverpaysIff(s: State, auth: set<Address>, id: UInt64, caller: Address)
    requires WellFormed(s) && Issued(s.balances) <= I128_MAX
    ensures Overpaid(s, Invoke(auth, DoCancel(id, caller))) > 0 <==>
            && Authorized(auth, caller)
            && id in s.streams
            && (caller == s.streams[id].sender || caller == s.streams[id].recipient)
            && s.streams[id].status != Cancelled
            && Vested(s.streams[id], s.now).Ok?
            && Accrued(s.streams[id], s.now) < s.streams[id].withdrawn
            && s.streams[id].total - Accrued(s.streams[id], s.now) <= BalanceOf(s.balances, Contract)
  {
    if id in s.streams {
      var stream := s.streams[id];
      var accrued := Accrued(stream, s.now);
      VestedRefinesAccrued(stream, s.now);
      UnvestedComplementsVested(stream, s.now);
      AccruedFull(stream, s.now);
      if accrued < stream.withdrawn {
        TransferSucceedsIff(s.balances, Contract, stream.sender, stream.total - accrued);
      }
    }
  }

  lemma {:induction false} SelfPayKeepsLedger(ledger: Ledger, amount: Int128)
    requires 0 < amount && Issued(ledger) <= I128_MAX
    ensures PayOut(ledger, Contract, amount).Some? <==> amount <= BalanceOf(ledger, Contract)
    ensures
      var paid := PayOut(ledger, Contract, amount);
      paid.Some? ==> paid.value == ledger[Contract := BalanceOf(ledger, Contract)]
  {
    TransferSucceedsIff(ledger, Contract, Contract, amount);
  }

  /** Likewise for a cancellation that pays the contract itself: the sender makes it,
      the contract is the recipient and is due something, and each share fits what
      the contract holds. */
  lemma SelfPaysIff(s: State, auth: set<Address>, id: UInt64, caller: Address)
    requires WellFormed(s) && Issued(s.balances) <= I128_MAX
    ensures SelfPaid(s, Invoke(auth, DoCancel(id, caller))) > 0 <==>
            && Authorized(auth, caller)
            && id in s.streams
            && caller == s.streams[id].sender
            && s.streams[id].recipient == Contract
            && s.streams[id].status != Cancelled
            && Vested(s.streams[id], s.now).Ok?
            && s.streams[id].withdrawn < Accrued(s.streams[id], s.now)
            && Accrued(s.streams[id], s.now) - s.streams[id].withdrawn <= BalanceOf(s.balances, Contract)
            && s.streams[id].total - Accrued(s.streams[id], s.now) <= BalanceOf(s.balances, Contract)
  {
    if id in s.streams && s.streams[id].recipient == Contract {
      var stream := s.streams[id];
      var due := Accrued(stream, s.now) - stream.withdrawn;
      var refund := stream.total - Accrued(stream, s.now);
      VestedRefinesAccrued(stream, s.now);
      UnvestedComplementsVested(stream, s.now);
      AccruedFull(stream, s.now);
      if 0 < due {
        SelfPayKeepsLedger(s.balances, due);
        TransferSucceedsIff(s.balances, Contract, stream.sender, refund);
      }
    }
  }

  // ---- When the escrow stops being backed ----------------------------------------

  // A party cancels a stream that is overdrawn by more than the surplus. Everything
  // is known before the call.
  predicate Uncovers(s: State, action: Action) {
    && action.Invoke? && action.call.DoCancel?
    && Authorized(action.auth, action.call.caller)
    && action.call.id in s.streams
    && var stream := s.streams[action.call.id];
    && (action.call.caller == stream.sender || action.call.caller == stream.recipient)
    && stream.status != Cancelled
    && Sound(stream) && Vested(stream, s.now).Ok?
    && Surplus(s) < stream.withdrawn - Accrued(stream, s.now)
    && stream.total - Accrued(stream, s.now) <= BalanceOf(s.balances, Contract)
  }

  /** A backed escrow stops being backed in exactly one way. */
  lemma StepUncoversIff(s: State, action: Action)
    requires WellFormed(s) && Surplus(s) >= 0 && Issued(s.balances) <= I128_MAX
    ensures Surplus(Step(s, action)) < 0 <==> Uncovers(s, action)
    ensures Covered(s, action) <==> !Uncovers(s, action)
  {
    hide Apply, Surplus, Gift, SelfPaid;
    StepSurplus(s, action);
    GiftNonNegative(s, action);
    if action.Invoke? && action.call.DoCancel? {
      OverpaysIff(s, action.auth, action.call.id, action.call.caller);
    }
  }

  predicate LeavesCovered(s: State, action: Action) {
    !Uncovers(s, action)
  }

  lemma {:induction false} RunIssued(s: State, actions: seq<Action>)
    requires WellFormed(s)
    ensures Issued(Run(s, actions).balances) == Issued(s.balances)
    decreases |actions|
  {
    hide Apply;
    if actions != [] {
      var earlier := actions[..|actions| - 1];
      RunIssued(s, earlier);
      RunWellFormed(s, earlier);
      StepIssued(Run(s, earlier), actions[|actions| - 1]);
    }
  }

  /** "The contract never holds less than the sum of its active streams' balances":
      from a backed state on, exactly when no such cancellation is made. */
  lemma {:induction false} EscrowBackedUnlessUncovered(s: State, actions: seq<Action>)
    requires WellFormed(s) && Surplus(s) >= 0 && Issued(s.balances) <= I128_MAX
    ensures EscrowBacked(s, actions) <==> Throughout(LeavesCovered, s, actions)
    decreases |actions|
  {
    hide Apply, Uncovers, Covered;
    if actions != [] {
      var earlier := actions[..|actions| - 1];
      EscrowBackedUnlessUncovered(s, earlier);
      RunWellFormed(s, earlier);
      RunIssued(s, earlier);
      if EscrowBacked(s, earlier) {
        StepUncoversIff(Run(s, earlier), actions[|actions| - 1]);
      }
    }
  }

  // ---- When `withdrawn` falls, over runs -----------------------------------------

  // The step is no overpaying cancellation of stream `id`.
  function Spares(id: UInt64): (State, Action) -> bool {
    (s: State, action: Action) => !(Target(action) == Some(id) && Overpaid(s, action) > 0)
  }

  // No step of the run lowers the stream's `withdrawn`.
  ghost predicate WithdrawnNeverFalls(s: State, actions: seq<Action>, id: UInt64)
    decreases |actions|
  {
    actions == [] ||
    var earlier := actions[..|actions| - 1];
    var before, after := Run(s, earlier).streams, Run(s, actions).streams;
    && WithdrawnNeverFalls(s, earlier, id)
    && id in before && id in after && before[id].withdrawn <= after[id].withdrawn
  }

  /** "withdrawn only ever increases" holds of a run exactly when no step overpays on
      the stream; its extensions may have been honest or not. */
  lemma {:induction false} WithdrawnNeverFallsIff(s: State, actions: seq<Action>, id: UInt64)
    requires WellFormed(s) && id in s.streams
    ensures WithdrawnNeverFalls(s, actions, id) <==> Throughout(Spares(id), s, actions)
    decreases |actions|
  {
    hide Apply, Overpaid;
    if actions != [] {
      var earlier := actions[..|actions| - 1];
      WithdrawnNeverFallsIff(s, earlier, id);
      RunWellFormed(s, earlier);
      RunEvolves(s, earlier, id);
      StepWithdrawnFallsIff(Run(s, earlier), actions[|actions| - 1], id);
    }
  }

  /** In particular it holds of every honest run. */
  lemma {:induction false} HonestRunsNeverLowerWithdrawn(s: State, actions: seq<Action>, id: UInt64)
    requires WellFormed(s) && Solvent(s) && Throughout(HonestExtension, s, actions) && id in s.streams
    ensures WithdrawnNeverFalls(s, actions, id)
    decreases |actions|
  {
    hide Apply, Overpaid;
    if actions != [] {
      var earlier := actions[..|actions| - 1];
      HonestRunsNeverLowerWithdrawn(s, earlier, id);
      RunWellFormed(s, earlier);
      RunEvolves(s, earlier, id);
      SolventRunIff(s, earlier);
      NothingOverpaid(Run(s, earlier), actions[|actions| - 1]);
      StepWithdrawnFallsIff(Run(s, earlier), actions[|actions| - 1], id);
    }
  }

  /** Basis-point views over a run: in every state of an honest run no stream shows
      a larger share withdrawn than elapsed, and both views fit their type. */
  lemma {:induction false} RunBasisPoints(s: State, actions: seq<Action>, id: UInt64)
    requires WellFormed(s) && Solvent(s) && Throughout(HonestExtension, s, actions)
    requires id in Run(s, actions).streams
    ensures
      var stream, now := Run(s, actions).streams[id], Run(s, actions).now;
      && ProgressBps(stream, now) <= 10_000
      && (PercentWithdrawn(stream).Ok? ==> PercentWithdrawn(stream).value <= ProgressBps(stream, now))
  {
    hide Apply;
    RunWellFormed(s, actions);
    SolventRunIff(s, actions);
    BasisPointsAgree(Run(s, actions).streams[id], Run(s, actions).now);
  }
}
