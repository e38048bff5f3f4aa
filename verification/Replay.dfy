/** An indexer that sees nothing but the event log. It checks every event against
    what it already knows and ignores one that does not fit. */
module Replay {
  import opened Arithmetic
  import opened Machine
  import opened StreamTable
  import opened Token
  import opened Types
  import opened Vesting
  import opened Wrappers

  datatype Entry = Entry(sender: Address, recipient: Address, total: int, withdrawn: int, status: Status)

  // The administrator and the cap, once an event has named them, and the pending
  // transfer with its time.
  datatype Office = Office(admin: Option<Address>, pending: Option<(Address, UInt64)>, cap: Option<Int128>)

  // Streams by id, the ends of those that have been extended, the office, and how
  // many events did not fit.
  datatype Index = Index(entries: map<UInt64, Entry>, ends: map<UInt64, UInt64>, office: Office, ignored: nat)

  // What is known is the value, or nothing is known.
  predicate Fits<T(==)>(known: Option<T>, value: T) {
    known == None || known == Some(value)
  }

  function Ignore(index: Index): Index {
    index.(ignored := index.ignored + 1)
  }

  function Observe(index: Index, event: Event): Index {
    var entries, ends := index.entries, index.ends;
    match event
    case Created(id, sender, recipient, total) =>
      if id in entries then Ignore(index)
      else index.(entries := entries[id := Entry(sender, recipient, total, 0, Active)])
    case ToppedUp(id, sender, amount, newTotal) =>
      if id in entries && entries[id].sender == sender && entries[id].status == Active
         && newTotal == entries[id].total + amount
      then index.(entries := entries[id := entries[id].(total := newTotal)])
      else Ignore(index)
    case Extended(id, sender, oldEnd, newEnd) =>
      if id in entries && entries[id].sender == sender && entries[id].status == Active
         && (id in ends ==> ends[id] == oldEnd) && oldEnd < newEnd
      then index.(ends := ends[id := newEnd])
      else Ignore(index)
    case Withdrawn(id, recipient, amount) =>
      if id in entries && entries[id].recipient == recipient && entries[id].status == Active && amount > 0
      then
        var withdrawn := entries[id].withdrawn + amount;
        var status := if withdrawn >= entries[id].total then Completed else Active;
        index.(entries := entries[id := entries[id].(withdrawn := withdrawn, status := status)])
      else Ignore(index)
    case StreamCancelled(id, caller, senderRefund, recipientPaid) =>
      if id in entries && caller in {entries[id].sender, entries[id].recipient} && entries[id].status != Cancelled
         && senderRefund + recipientPaid == entries[id].total - entries[id].withdrawn
      then
        var withdrawn := entries[id].withdrawn + recipientPaid;
        index.(entries := entries[id := entries[id].(withdrawn := withdrawn, status := Cancelled)])
      else Ignore(index)
    case AdminScheduled(admin, pending, executeAfter) =>
      if Fits(index.office.admin, admin)
      then index.(office := index.office.(admin := Some(admin), pending := Some((pending, executeAfter))))
      else Ignore(index)
    case AdminTransfer(previous, next) =>
      if Fits(index.office.admin, previous) && index.office.pending.Some? && index.office.pending.value.0 == next
      then index.(office := index.office.(admin := Some(next), pending := None))
      else Ignore(index)
    case AdminCancelled(admin) =>
      if Fits(index.office.admin, admin) && index.office.pending.Some?
      then index.(office := index.office.(admin := Some(admin), pending := None))
      else Ignore(index)
    case AdminSet(previous, next) =>
      if Fits(index.office.admin, previous) then index.(office := index.office.(admin := Some(next)))
      else Ignore(index)
    case CapAdmin(admin, oldCap, newCap) =>
      if Fits(index.office.admin, admin) && Fits(index.office.cap, oldCap)
      then index.(office := index.office.(admin := Some(admin), cap := Some(newCap)))
      else Ignore(index)
  }

  function Indexed(events: seq<Event>): Index
    decreases |events|
  {
    if events == [] then Index(map[], map[], Office(None, None, None), 0)
    else Observe(Indexed(events[..|events| - 1]), events[|events| - 1])
  }

  function EntryOf(stream: Stream): Entry {
    Entry(stream.sender, stream.recipient, stream.total, stream.withdrawn, stream.status)
  }

  function Entries(streams: map<UInt64, Stream>): map<UInt64, Entry> {
    map id | id in streams :: EntryOf(streams[id])
  }

  ghost predicate OfficeAgrees(s: State, office: Office) {
    && (office.admin.Some? ==> office.admin == s.admin)
    && (office.cap.Some? ==> office.cap == Some(s.supplyCap))
    && match office.pending
       case None => s.pendingAdmin == None && s.executeAfter == None
       case Some((account, time)) => s.pendingAdmin == Some(account) && s.executeAfter == Some(time)
  }

  predicate SameOffice(s: State, t: State) {
    && s.admin == t.admin && s.supplyCap == t.supplyCap
    && s.pendingAdmin == t.pendingAdmin && s.executeAfter == t.executeAfter
  }

  ghost predicate IndexAgrees(s: State) {
    var index := Indexed(s.events);
    && index.ignored == 0
    && OfficeAgrees(s, index.office)
    && index.entries == Entries(s.streams)
    && (forall id: UInt64 | id in index.ends :: id in s.streams && index.ends[id] == s.streams[id].end)
  }

  lemma {:induction false} IndexedAppend(events: seq<Event>, event: Event)
    ensures Indexed(events + [event]) == Observe(Indexed(events), event)
  {
    assert (events + [event])[..|events|] == events;
  }

  lemma {:induction false} EntriesUpdate(streams: map<UInt64, Stream>, id: UInt64, stream: Stream)
    ensures Entries(streams[id := stream]) == Entries(streams)[id := EntryOf(stream)]
  {
  }

  // The log gains a creation and the table a stream.
  lemma CreationAgrees(s: State, t: State, id: UInt64, stream: Stream)
    requires IndexAgrees(s) && id !in s.streams && SameOffice(s, t)
    requires stream.withdrawn == 0 && stream.status == Active
    requires t.streams == s.streams[id := stream]
    requires t.events == s.events + [Created(id, stream.sender, stream.recipient, stream.total)]
    ensures IndexAgrees(t)
  {
    IndexedAppend(s.events, Created(id, stream.sender, stream.recipient, stream.total));
    EntriesUpdate(s.streams, id, stream);
  }

  lemma {:induction false} OpeningAgrees(s: State, sender: Address, requests: seq<StreamRequest>, first: UInt64)
    requires first + |requests| <= U64_MAX && IndexAgrees(s)
    requires forall id: UInt64 | first <= id :: id !in s.streams
    ensures IndexAgrees(OpenAll(s, sender, requests, first))
    decreases |requests|
  {
    hide IndexAgrees;
    if requests != [] {
      var event := Created(first, sender, requests[0].recipient, requests[0].totalAmount);
      var stream := NewStream(sender, requests[0]);
      var added := Publish(WriteStream(s, first, stream), event);
      CreationAgrees(s, added, first, stream);
      OpeningAgrees(added, sender, requests[1..], first + 1);
    }
  }

  // The log gains one event and the table one rewritten stream.
  lemma RewriteAgrees(s: State, t: State, id: UInt64, event: Event)
    requires IndexAgrees(s) && Rewrites(s, t, id) && t.events == s.events + [event]
    requires
      var index, after := Indexed(s.events), Observe(Indexed(s.events), event);
      && after.ignored == 0 && after.office == index.office
      && after.entries == index.entries[id := EntryOf(t.streams[id])]
      && ((after.ends == index.ends && t.streams[id].end == s.streams[id].end)
          || after.ends == index.ends[id := t.streams[id].end])
    ensures IndexAgrees(t)
  {
    IndexedAppend(s.events, event);
    EntriesUpdate(s.streams, id, t.streams[id]);
  }

  lemma CreateAgrees(s: State, auth: set<Address>, sender: Address, request: StreamRequest)
    requires WellFormed(s) && IndexAgrees(s) && CreateStream(s, auth, sender, request).Done?
    ensures IndexAgrees(CreateStream(s, auth, sender, request).state)
  {
    var t := CreateStream(s, auth, sender, request).state;
    CreationAgrees(s, t, s.counter, t.streams[s.counter]);
  }

  lemma {:induction false} BatchAgrees(s: State, auth: set<Address>, sender: Address, requests: Requests)
    requires WellFormed(s) && IndexAgrees(s) && CreateStreamBatch(s, auth, sender, requests).Done?
    ensures IndexAgrees(CreateStreamBatch(s, auth, sender, requests).state)
  {
    BatchOpens(s, auth, sender, requests);
    var t := CreateStreamBatch(s, auth, sender, requests).state;
    OpeningAgrees(s.(balances := t.balances), sender, requests, s.counter);
  }

  lemma TopUpAgrees(s: State, auth: set<Address>, id: UInt64, sender: Address, amount: Int128)
    requires WellFormed(s) && IndexAgrees(s) && TopUp(s, auth, id, sender, amount).Done?
    ensures IndexAgrees(TopUp(s, auth, id, sender, amount).state)
  {
    var t := TopUp(s, auth, id, sender, amount).state;
    TopUpRewrites(s, auth, id, sender, amount);
    RewriteAgrees(s, t, id, ToppedUp(id, sender, amount, t.streams[id].total));
  }

  lemma ExtendAgrees(s: State, auth: set<Address>, id: UInt64, sender: Address, newEnd: UInt64)
    requires WellFormed(s) && IndexAgrees(s) && ExtendStream(s, auth, id, sender, newEnd).Done?
    ensures IndexAgrees(ExtendStream(s, auth, id, sender, newEnd).state)
  {
    var t := ExtendStream(s, auth, id, sender, newEnd).state;
    ExtendRewrites(s, auth, id, sender, newEnd);
    assert Entries(s.streams)[id] == EntryOf(t.streams[id]);
    RewriteAgrees(s, t, id, Extended(id, sender, s.streams[id].end, newEnd));
  }

  lemma WithdrawAgrees(s: State, t: State, id: UInt64, value: Value)
    requires WellFormed(s) && IndexAgrees(s) && id in s.streams && WithdrawEffect(s, t, id, value)
    ensures IndexAgrees(t)
  {
    hide OfficeAgrees, ReduceSupply, Transfer;
    var stream := s.streams[id];
    AccruedFull(stream, s.now);
    RewriteAgrees(s, t, id, Withdrawn(id, stream.recipient, Accrued(stream, s.now) - stream.withdrawn));
  }

  lemma CancelAgrees(s: State, t: State, id: UInt64, caller: Address)
    requires WellFormed(s) && IndexAgrees(s) && id in s.streams && CancelEffect(s, t, id, caller)
    requires caller == s.streams[id].sender || caller == s.streams[id].recipient
    ensures IndexAgrees(t)
  {
    hide OfficeAgrees, ReduceSupply, PaysBoth;
    var stream := s.streams[id];
    var accrued := Accrued(stream, s.now);
    RewriteAgrees(s, t, id, StreamCancelled(id, caller, stream.total - accrued, accrued - stream.withdrawn));
  }

  lemma CallAgrees(s: State, auth: set<Address>, call: Call)
    requires WellFormed(s) && IndexAgrees(s) && Succeeds(s, Invoke(auth, call)) && !IsAdminCall(call)
    ensures IndexAgrees(Apply(s, auth, call).state)
  {
    hide CreateStream, CreateStreamBatch, TopUp, ExtendStream, Withdraw, Cancel, IndexAgrees;
    var done := Apply(s, auth, call);
    match call {
      case DoCreateStream(sender, request) => CreateAgrees(s, auth, sender, request);
      case DoCreateStreamBatch(sender, requests) => BatchAgrees(s, auth, sender, requests);
      case DoTopUp(id, sender, amount) => TopUpAgrees(s, auth, id, sender, amount);
      case DoExtendStream(id, sender, newEnd) => ExtendAgrees(s, auth, id, sender, newEnd);
      case DoWithdraw(id, recipient) =>
        WithdrawRewrites(s, auth, id, recipient);
        WithdrawAgrees(s, done.state, id, done.value);
      case DoCancel(id, caller) =>
        CancelRewrites(s, auth, id, caller);
        CancelledByParty(s, auth, id, caller);
        CancelAgrees(s, done.state, id, caller);
    }
  }

  // The log gains an event about the office and the table stays as it is.
  lemma OfficeEventAgrees(s: State, t: State, event: Event)
    requires IndexAgrees(s) && t.streams == s.streams && t.events == s.events + [event]
    requires
      var index, after := Indexed(s.events), Observe(Indexed(s.events), event);
      after == index.(office := after.office) && OfficeAgrees(t, after.office)
    ensures IndexAgrees(t)
  {
    IndexedAppend(s.events, event);
  }

  lemma ScheduleAgrees(s: State, auth: set<Address>, admin: Address, newAdmin: Address)
    requires IndexAgrees(s) && ScheduleAdminTransfer(s, auth, admin, newAdmin).Done?
    ensures IndexAgrees(ScheduleAdminTransfer(s, auth, admin, newAdmin).state)
  {
    var t := ScheduleAdminTransfer(s, auth, admin, newAdmin).state;
    OfficeEventAgrees(s, t, AdminScheduled(admin, newAdmin, t.executeAfter.value));
  }

  lemma ExecuteAgrees(s: State)
    requires IndexAgrees(s) && ExecuteAdminTransfer(s).Done?
    ensures IndexAgrees(ExecuteAdminTransfer(s).state)
  {
    OfficeEventAgrees(s, ExecuteAdminTransfer(s).state, AdminTransfer(s.admin.value, s.pendingAdmin.value));
  }

  lemma RevokeAgrees(s: State, auth: set<Address>, admin: Address)
    requires IndexAgrees(s) && CancelAdminTransfer(s, auth, admin).Done?
    ensures IndexAgrees(CancelAdminTransfer(s, auth, admin).state)
  {
    OfficeEventAgrees(s, CancelAdminTransfer(s, auth, admin).state, AdminCancelled(admin));
  }

  lemma SetAdminAgrees(s: State, auth: set<Address>, newAdmin: Address)
    requires IndexAgrees(s) && SetAdmin(s, auth, newAdmin).Done?
    ensures IndexAgrees(SetAdmin(s, auth, newAdmin).state)
  {
    OfficeEventAgrees(s, SetAdmin(s, auth, newAdmin).state, AdminSet(s.admin.value, newAdmin));
  }

  lemma SetSupplyCapAgrees(s: State, auth: set<Address>, newCap: Int128)
    requires IndexAgrees(s) && SetSupplyCap(s, auth, newCap).Done?
    ensures IndexAgrees(SetSupplyCap(s, auth, newCap).state)
  {
    OfficeEventAgrees(s, SetSupplyCap(s, auth, newCap).state, CapAdmin(s.admin.value, s.supplyCap, newCap));
  }

  // Initialization is silent: nothing can have been announced before it.
  lemma InitializeAgrees(s: State, admin: Address, token: Address)
    requires WellFormed(s) && IndexAgrees(s) && Initialize(s, admin, token).Done?
    ensures IndexAgrees(Initialize(s, admin, token).state)
  {
  }

  lemma AdminCallAgrees(s: State, auth: set<Address>, call: Call)
    requires WellFormed(s) && IndexAgrees(s) && IsAdminCall(call) && Succeeds(s, Invoke(auth, call))
    ensures IndexAgrees(Apply(s, auth, call).state)
  {
    hide Initialize, ScheduleAdminTransfer, ExecuteAdminTransfer, CancelAdminTransfer, SetAdmin, SetSupplyCap;
    hide IndexAgrees;
    match call {
      case DoInitialize(admin, token) => InitializeAgrees(s, admin, token);
      case DoScheduleAdminTransfer(admin, newAdmin) => ScheduleAgrees(s, auth, admin, newAdmin);
      case DoExecuteAdminTransfer => ExecuteAgrees(s);
      case DoCancelAdminTransfer(admin) => RevokeAgrees(s, auth, admin);
      case DoSetAdmin(newAdmin) => SetAdminAgrees(s, auth, newAdmin);
      case DoSetSupplyCap(newCap) => SetSupplyCapAgrees(s, auth, newCap);
    }
  }

  lemma StepAgrees(s: State, action: Action)
    requires WellFormed(s) && IndexAgrees(s)
    ensures IndexAgrees(Step(s, action))
  {
    if Succeeds(s, action) {
      if IsAdminCall(action.call) {
        AdminCallAgrees(s, action.auth, action.call);
      } else {
        CallAgrees(s, action.auth, action.call);
      }
    }
  }

  /** After every run, folding the log rebuilds every stream's parties, total,
      withdrawn amount and status, the current end of every stream it saw extended,
      and the pending administrator with its time; and no event was one the checks
      had to ignore. */
  lemma {:induction false} LogRebuildsTable(s: State, actions: seq<Action>)
    requires WellFormed(s) && IndexAgrees(s)
    ensures IndexAgrees(Run(s, actions))
    decreases |actions|
  {
    hide Apply, IndexAgrees;
    if actions != [] {
      var earlier := actions[..|actions| - 1];
      LogRebuildsTable(s, earlier);
      RunWellFormed(s, earlier);
      StepAgrees(Run(s, earlier), actions[|actions| - 1]);
    }
  }

  lemma DeployedAgrees(balances: Ledger, now: UInt64)
    ensures IndexAgrees(Deployed(balances, now))
  {
  }

  /** From deployment on, the log alone determines all of this. */
  lemma {:induction false} LogRebuildsFromDeployment(balances: Ledger, now: UInt64, actions: seq<Action>)
    ensures
      var t := Run(Deployed(balances, now), actions);
      var index := Indexed(t.events);
      && index.ignored == 0
      && index.entries == Entries(t.streams)
      && OfficeAgrees(t, index.office)
      && (forall id: UInt64 | id in index.ends :: id in t.streams && index.ends[id] == t.streams[id].end)
  {
    hide Apply;
    DeployedWellFormed(balances, now);
    DeployedAgrees(balances, now);
    LogRebuildsTable(Deployed(balances, now), actions);
  }
}
