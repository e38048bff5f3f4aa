/** One batch call against the same requests created one by one. */
module Batch {
  import opened Arithmetic
  import opened Machine
  import opened StreamTable
  import opened Token
  import opened Types
  import opened Vesting
  import opened Wrappers

  // `create_stream` on each request in order, undone altogether if one fails.
  function CreateEach(s: State, auth: set<Address>, sender: Address, requests: seq<StreamRequest>,
                      ids: seq<UInt64>): Outcome
    decreases |requests|
  {
    if requests == [] then Done(s, StreamIds(ids))
    else
      match CreateStream(s, auth, sender, requests[0])
      case Failed(fault) => Failed(fault)
      case Done(next, value) => CreateEach(next, auth, sender, requests[1..], ids + [value.id])
  }

  // What `create_stream` makes of a request before validating it.
  function Normalize(requests: seq<StreamRequest>, now: UInt64): (normalized: seq<StreamRequest>)
    ensures |normalized| == |requests|
  {
    seq(|requests|, i requires 0 <= i < |requests| =>
      requests[i].(startTime := NormalizeStartTime(now, requests[i].startTime)))
  }

  // No request uses the "start now" shorthand, or it means the same anyway.
  predicate StartsExplicit(requests: seq<StreamRequest>, now: UInt64) {
    now == START_NOW || forall i | 0 <= i < |requests| :: requests[i].startTime != START_NOW
  }

  // What it takes, cap aside, to open all the requests.
  ghost predicate CanOpen(s: State, auth: set<Address>, sender: Address, requests: seq<StreamRequest>) {
    && s.admin.Some? && Authorized(auth, sender)
    && AllValid(requests, s.now)
    && SumAmounts(requests) <= BalanceOf(s.balances, sender)
    && BalanceOf(s.balances, Contract) + SumAmounts(requests) <= I128_MAX
    && s.counter + |requests| <= U64_MAX
  }

  function Fund(ledger: Ledger, sender: Address, amount: Int128): Ledger
    requires 0 <= amount <= BalanceOf(ledger, sender) && BalanceOf(ledger, Contract) + amount <= I128_MAX
  {
    ledger[sender := BalanceOf(ledger, sender) - amount][Contract := BalanceOf(ledger, Contract) + amount]
  }

  lemma {:induction false} FundIsTransfer(ledger: Ledger, sender: Address, amount: Int128)
    requires sender != Contract && amount >= 0
    ensures Transfer(ledger, sender, Contract, amount) ==
            if amount <= BalanceOf(ledger, sender) && BalanceOf(ledger, Contract) + amount <= I128_MAX
            then Some(Fund(ledger, sender, amount)) else None
  {
  }

  lemma {:induction false} FundTwice(ledger: Ledger, sender: Address, first: Int128, second: Int128)
    requires sender != Contract && 0 <= first && 0 <= second
    requires first + second <= BalanceOf(ledger, sender)
    requires BalanceOf(ledger, Contract) + first + second <= I128_MAX
    ensures
      var once := Fund(ledger, sender, first);
      && second <= BalanceOf(once, sender) && BalanceOf(once, Contract) + second <= I128_MAX
      && Fund(once, sender, second) == Fund(ledger, sender, first + second)
  {
  }

  // ---- The batch -----------------------------------------------------------

  function Opened(s: State, sender: Address, requests: seq<StreamRequest>): State
    requires 0 <= SumAmounts(requests) <= BalanceOf(s.balances, sender)
    requires BalanceOf(s.balances, Contract) + SumAmounts(requests) <= I128_MAX
    requires s.counter + |requests| <= U64_MAX
  {
    OpenAll(s.(balances := Fund(s.balances, sender, SumAmounts(requests))), sender, requests, s.counter)
      .(counter := s.counter + |requests|)
  }

  lemma {:induction false} BatchDoneIff(s: State, auth: set<Address>, sender: Address, requests: Requests)
    requires requests != []
    ensures CreateStreamBatch(s, auth, sender, requests).Done? <==> CanOpen(s, auth, sender, requests)
    ensures CanOpen(s, auth, sender, requests) ==>
            && 0 <= SumAmounts(requests)
            && CreateStreamBatch(s, auth, sender, requests) ==
               Done(Opened(s, sender, requests), StreamIds(ConsecutiveIds(s.counter, |requests|)))
  {
    ValidateBatchIff(requests, s.now, 0);
    if Authorized(auth, sender) && AllValid(requests, s.now) && SumAmounts(requests) <= I128_MAX {
      FundIsTransfer(s.balances, sender, SumAmounts(requests));
    }
  }

  // ---- One by one ----------------------------------------------------------

  // Opening reads and writes only the table and the log.
  lemma {:induction false} OpenAllFrame(s: State, t: State, sender: Address, requests: seq<StreamRequest>,
                                        first: UInt64)
    requires first + |requests| <= U64_MAX
    requires s.streams == t.streams && s.events == t.events
    ensures
      var opened' := OpenAll(s, sender, requests, first);
      OpenAll(t, sender, requests, first) == t.(streams := opened'.streams, events := opened'.events)
    decreases |requests|
  {
    if requests != [] {
      var stream := NewStream(sender, requests[0]);
      var event := Created(first, sender, requests[0].recipient, requests[0].totalAmount);
      OpenAllFrame(Publish(WriteStream(s, first, stream), event), Publish(WriteStream(t, first, stream), event),
                   sender, requests[1..], first + 1);
    }
  }

  lemma CreateOneIff(s: State, auth: set<Address>, sender: Address, request: StreamRequest)
    ensures
      var normalized := request.(startTime := NormalizeStartTime(s.now, request.startTime));
      var amount := request.totalAmount;
      CreateStream(s, auth, sender, request).Done? <==>
        && CanOpen(s, auth, sender, [normalized])
        && s.totalSupply + amount <= s.supplyCap
    ensures CreateStream(s, auth, sender, request).Done? ==>
      var normalized := request.(startTime := NormalizeStartTime(s.now, request.startTime));
      var amount := request.totalAmount;
      && 0 <= amount <= BalanceOf(s.balances, sender) && BalanceOf(s.balances, Contract) + amount <= I128_MAX
      && CreateStream(s, auth, sender, request).state ==
         Publish(WriteStream(s.(balances := Fund(s.balances, sender, amount), counter := s.counter + 1,
                                totalSupply := s.totalSupply + amount),
                             s.counter, NewStream(sender, normalized)),
                 Created(s.counter, sender, request.recipient, amount))
  {
    var normalized := request.(startTime := NormalizeStartTime(s.now, request.startTime));
    assert SumAmounts([normalized]) == request.totalAmount;
    assert AllValid([normalized], s.now) <==> RequestFault(normalized, s.now) == None;
    if Authorized(auth, sender) && RequestFault(normalized, s.now) == None {
      FundIsTransfer(s.balances, sender, request.totalAmount);
    }
  }

  lemma {:induction false} SumsNonNegative(requests: seq<StreamRequest>, now: UInt64)
    requires AllValid(requests, now)
    ensures SumAmounts(requests) >= |requests|
  {
    ValidateBatchIff(requests, now, 0);
  }

  // A valid list of requests splits into its first and the rest.
  lemma {:induction false} CanOpenSplits(s: State, t: State, auth: set<Address>, sender: Address,
                                         requests: seq<StreamRequest>)
    requires requests != []
    requires t.admin == s.admin && t.now == s.now
    requires CanOpen(s, auth, sender, requests[..1]) ==>
               && t.counter == s.counter + 1
               && BalanceOf(t.balances, sender) == BalanceOf(s.balances, sender) - requests[0].totalAmount
               && BalanceOf(t.balances, Contract) == BalanceOf(s.balances, Contract) + requests[0].totalAmount
    ensures CanOpen(s, auth, sender, requests) <==>
            CanOpen(s, auth, sender, requests[..1]) && CanOpen(t, auth, sender, requests[1..])
  {
    var rest := requests[1..];
    assert requests[..1] == [requests[0]];
    assert SumAmounts(requests[..1]) == requests[0].totalAmount;
    assert AllValid(requests, s.now) <==> AllValid(requests[..1], s.now) && AllValid(rest, s.now) by {
      assert forall i | 0 <= i < |rest| :: rest[i] == requests[i + 1];
    }
    if AllValid(requests, s.now) {
      SumsNonNegative(rest, s.now);
    }
  }

  lemma {:induction false} NormalizeSplits(requests: seq<StreamRequest>, now: UInt64)
    requires requests != []
    ensures Normalize(requests, now)[1..] == Normalize(requests[1..], now)
    ensures Normalize(requests, now)[..1] ==
            [requests[0].(startTime := NormalizeStartTime(now, requests[0].startTime))]
  {
  }

  lemma {:induction false} NormalizeKeepsAmounts(requests: seq<StreamRequest>, now: UInt64)
    ensures SumAmounts(Normalize(requests, now)) == SumAmounts(requests)
    decreases |requests|
  {
    if requests != [] {
      NormalizeSplits(requests, now);
      NormalizeKeepsAmounts(requests[1..], now);
    }
  }

  lemma {:induction false} CanOpenPrefix(s: State, auth: set<Address>, sender: Address, requests: seq<StreamRequest>)
    requires requests != [] && CanOpen(s, auth, sender, requests)
    ensures CanOpen(s, auth, sender, requests[..1])
    ensures AllValid(requests[1..], s.now)
  {
    var rest := requests[1..];
    assert requests[..1] == [requests[0]];
    assert SumAmounts(requests[..1]) == requests[0].totalAmount;
    assert forall i | 0 <= i < |rest| :: rest[i] == requests[i + 1];
    SumsNonNegative(rest, s.now);
  }

  lemma {:induction false} EachDoneIff(s: State, auth: set<Address>, sender: Address,
                                       requests: seq<StreamRequest>, ids: seq<UInt64>)
    requires requests != []
    ensures CreateEach(s, auth, sender, requests, ids).Done? <==>
            CanOpen(s, auth, sender, Normalize(requests, s.now)) && s.totalSupply + SumAmounts(requests) <= s.supplyCap
    decreases |requests|
  {
    var normalized := Normalize(requests, s.now);
    NormalizeSplits(requests, s.now);
    NormalizeKeepsAmounts(requests, s.now);
    CreateOneIff(s, auth, sender, requests[0]);
    var first := CreateStream(s, auth, sender, requests[0]);
    if |requests| == 1 {
      assert normalized[..1] == normalized;
      assert SumAmounts(requests[1..]) == 0;
    } else {
      if first.Done? {
        CanOpenSplits(s, first.state, auth, sender, normalized);
        EachDoneIff(first.state, auth, sender, requests[1..], ids + [first.value.id]);
      } else if CanOpen(s, auth, sender, normalized) {
        CanOpenPrefix(s, auth, sender, normalized);
        SumsNonNegative(normalized[1..], s.now);
      }
    }
  }

  // The state after opening one stream on its own.
  function OpenedOne(s: State, sender: Address, request: StreamRequest): State
    requires 0 <= request.totalAmount <= BalanceOf(s.balances, sender)
    requires BalanceOf(s.balances, Contract) + request.totalAmount <= I128_MAX
    requires s.counter < U64_MAX && s.totalSupply + request.totalAmount <= I128_MAX
  {
    Publish(WriteStream(s.(balances := Fund(s.balances, sender, request.totalAmount), counter := s.counter + 1,
                           totalSupply := s.totalSupply + request.totalAmount),
                        s.counter, NewStream(sender, request)),
            Created(s.counter, sender, request.recipient, request.totalAmount))
  }

  lemma {:induction false} OpenedSplits(s: State, sender: Address, requests: seq<StreamRequest>)
    requires requests != [] && sender != Contract
    requires 0 <= requests[0].totalAmount && 0 <= SumAmounts(requests[1..])
    requires SumAmounts(requests) <= BalanceOf(s.balances, sender)
    requires BalanceOf(s.balances, Contract) + SumAmounts(requests) <= I128_MAX
    requires s.counter + |requests| <= U64_MAX && s.totalSupply + requests[0].totalAmount <= I128_MAX
    ensures
      var t := OpenedOne(s, sender, requests[0]);
      && SumAmounts(requests[1..]) <= BalanceOf(t.balances, sender)
      && BalanceOf(t.balances, Contract) + SumAmounts(requests[1..]) <= I128_MAX
      && Opened(t, sender, requests[1..]) == Opened(s, sender, requests).(totalSupply := t.totalSupply)
  {
    hide Fund;
    var rest := requests[1..];
    var t := OpenedOne(s, sender, requests[0]);
    FundTwice(s.balances, sender, requests[0].totalAmount, SumAmounts(rest));
    var funded := s.(balances := Fund(s.balances, sender, SumAmounts(requests)));
    var one := Publish(WriteStream(funded, s.counter, NewStream(sender, requests[0])),
                       Created(s.counter, sender, requests[0].recipient, requests[0].totalAmount));
    OpenAllFrame(funded, s, sender, requests, s.counter);
    OpenAllFrame(one, t.(balances := funded.balances), sender, rest, t.counter);
    OpenAllFrame(one, one, sender, rest, t.counter);
  }

  lemma OpenedOneFields(s: State, sender: Address, request: StreamRequest)
    requires 0 <= request.totalAmount <= BalanceOf(s.balances, sender)
    requires BalanceOf(s.balances, Contract) + request.totalAmount <= I128_MAX
    requires s.counter < U64_MAX && s.totalSupply + request.totalAmount <= I128_MAX
    ensures
      var t := OpenedOne(s, sender, request);
      && t.counter == s.counter + 1 && t.now == s.now && t.supplyCap == s.supplyCap
      && t.totalSupply == s.totalSupply + request.totalAmount
      && Contract in t.balances && sender in t.balances
  {
  }

  lemma FirstOpens(s: State, auth: set<Address>, sender: Address, request: StreamRequest)
    requires CreateStream(s, auth, sender, request).Done?
    ensures
      var normalized := request.(startTime := NormalizeStartTime(s.now, request.startTime));
      && 0 <= request.totalAmount <= BalanceOf(s.balances, sender)
      && BalanceOf(s.balances, Contract) + request.totalAmount <= I128_MAX
      && s.counter < U64_MAX && s.totalSupply + request.totalAmount <= I128_MAX
      && CreateStream(s, auth, sender, request) == Done(OpenedOne(s, sender, normalized), StreamId(s.counter))
  {
    CreateOneIff(s, auth, sender, request);
  }

  lemma OpenedNothing(s: State, sender: Address)
    requires Contract in s.balances && sender in s.balances && sender != Contract
    ensures Opened(s, sender, []) == s
  {
    assert Fund(s.balances, sender, 0) == s.balances;
  }

  lemma {:induction false} EachOpens(s: State, auth: set<Address>, sender: Address,
                                     requests: seq<StreamRequest>, ids: seq<UInt64>)
    requires requests != [] && CreateEach(s, auth, sender, requests, ids).Done?
    ensures
      var normalized := Normalize(requests, s.now);
      && CanOpen(s, auth, sender, normalized) && 0 <= SumAmounts(normalized) == SumAmounts(requests)
      && s.totalSupply + SumAmounts(requests) <= s.supplyCap
      && CreateEach(s, auth, sender, requests, ids) ==
         Done(Opened(s, sender, normalized).(totalSupply := s.totalSupply + SumAmounts(requests)),
              StreamIds(ids + ConsecutiveIds(s.counter, |requests|)))
    decreases |requests|
  {
    hide CreateStream, Opened, OpenedOne, Fund;
    var normalized := Normalize(requests, s.now);
    var rest := requests[1..];
    EachDoneIff(s, auth, sender, requests, ids);
    NormalizeSplits(requests, s.now);
    NormalizeKeepsAmounts(requests, s.now);
    CanOpenPrefix(s, auth, sender, normalized);
    SumsNonNegative(normalized, s.now);
    SumsNonNegative(normalized[1..], s.now);
    FirstOpens(s, auth, sender, requests[0]);
    OpenedSplits(s, sender, normalized);
    var t := OpenedOne(s, sender, normalized[0]);
    OpenedOneFields(s, sender, normalized[0]);
    if rest == [] {
      OpenedNothing(t, sender);
      assert ConsecutiveIds(s.counter, 1) == [s.counter];
      assert normalized[1..] == [];
    } else {
      EachOpens(t, auth, sender, rest, ids + [s.counter]);
      assert ids + [s.counter] + ConsecutiveIds(t.counter, |rest|) == ids + ConsecutiveIds(s.counter, |requests|);
    }
  }

  // ---- The comparison --------------------------------------------------------

  lemma {:induction false} NormalizeKeepsValidity(requests: seq<StreamRequest>, now: UInt64)
    ensures AllValid(requests, now) <==> AllValid(Normalize(requests, now), now)
  {
    var normalized := Normalize(requests, now);
    assert forall i | 0 <= i < |requests| ::
        RequestFault(requests[i], now) == None <==> RequestFault(normalized[i], now) == None;
  }

  lemma {:induction false} SameEvents(s: State, sender: Address, requests: seq<StreamRequest>, now: UInt64,
                                      first: UInt64, t: State)
    requires first + |requests| <= U64_MAX && s.events == t.events
    ensures OpenAll(s, sender, requests, first).events == OpenAll(t, sender, Normalize(requests, now), first).events
    decreases |requests|
  {
    if requests != [] {
      var normalized := Normalize(requests, now);
      NormalizeSplits(requests, now);
      var event := Created(first, sender, requests[0].recipient, requests[0].totalAmount);
      SameEvents(Publish(WriteStream(s, first, NewStream(sender, requests[0])), event), sender, requests[1..], now,
                 first + 1, Publish(WriteStream(t, first, NewStream(sender, normalized[0])), event));
    }
  }

  // Two ways to open the requests that differ in nothing but this: where a request
  // asks for a start of zero, the batch stores zero and the single creation `now`.
  ghost predicate SameButStarts(batch: map<UInt64, Stream>, each: map<UInt64, Stream>, requests: seq<StreamRequest>,
                                now: UInt64, first: UInt64)
    requires first + |requests| <= U64_MAX
  {
    && batch.Keys == each.Keys
    && (forall id: UInt64 | id in batch && id < first :: each[id] == batch[id])
    && (forall i | 0 <= i < |requests| ::
          var id: UInt64 := first + i;
          && id in batch && batch[id].start == requests[i].startTime
          && each[id] == batch[id].(start := if requests[i].startTime == 0 then now else requests[i].startTime))
  }

  lemma {:induction false} OpeningsDifferByStarts(s: State, a: State, b: State, sender: Address,
                                                  requests: seq<StreamRequest>, now: UInt64, first: UInt64)
    requires first + |requests| <= U64_MAX
    requires forall id: UInt64 | id in s.streams :: id < first
    requires Opens(s, a, sender, requests, first) && Opens(s, b, sender, Normalize(requests, now), first)
    ensures SameButStarts(a.streams, b.streams, requests, now, first)
  {
    var normalized := Normalize(requests, now);
    assert a.streams.Keys == b.streams.Keys;
    forall i | 0 <= i < |requests|
      ensures
        var id: UInt64 := first + i;
        && id in a.streams && a.streams[id].start == requests[i].startTime
        && b.streams[id] ==
           a.streams[id].(start := if requests[i].startTime == 0 then now else requests[i].startTime)
    {
      var id: UInt64 := first + i;
      assert requests[id - first] == requests[i] && normalized[id - first] == normalized[i];
    }
  }

  lemma {:induction false} StartsDecide(batch: map<UInt64, Stream>, each: map<UInt64, Stream>,
                                        requests: seq<StreamRequest>, now: UInt64, first: UInt64)
    requires first + |requests| <= U64_MAX && SameButStarts(batch, each, requests, now, first)
    requires forall id: UInt64 | id in batch :: id < first + |requests|
    ensures batch == each <==> StartsExplicit(requests, now)
  {
    if StartsExplicit(requests, now) {
      forall id: UInt64 | id in batch ensures each[id] == batch[id] {
        if id >= first {
          var i := id - first;
          assert requests[i].startTime == 0 ==> now == 0;
        }
      }
    } else {
      var i :| 0 <= i < |requests| && requests[i].startTime == START_NOW;
      var id: UInt64 := first + i;
      assert each[id].start != batch[id].start;
    }
  }

  /** Opening the requests as they are and as `create_stream` normalizes them gives
      streams that differ at most in their starts, and not even in those exactly when
      no request uses the shorthand. */
  lemma {:induction false} SameStreamsIff(s: State, sender: Address, requests: seq<StreamRequest>, now: UInt64)
    requires s.counter + |requests| <= U64_MAX
    requires forall id: UInt64 | id in s.streams :: id < s.counter
    ensures
      var batch := OpenAll(s, sender, requests, s.counter).streams;
      var each := OpenAll(s, sender, Normalize(requests, now), s.counter).streams;
      && SameButStarts(batch, each, requests, now, s.counter)
      && (batch == each <==> StartsExplicit(requests, now))
  {
    hide SameButStarts, StartsExplicit, OpenAll, Normalize;
    var a := OpenAll(s, sender, requests, s.counter);
    var b := OpenAll(s, sender, Normalize(requests, now), s.counter);
    OpenAllOpens(s, sender, requests, s.counter);
    OpenAllOpens(s, sender, Normalize(requests, now), s.counter);
    OpeningsDifferByStarts(s, a, b, sender, requests, now, s.counter);
    StartsDecide(a.streams, b.streams, requests, now, s.counter);
  }

  /** A batch succeeds exactly when creating its requests one by one does, except
      that only the latter obeys the cap. Ids, counter, balances and events agree;
      the tracked supply differs by exactly the aggregate amount; and the streams
      agree exactly when no request relies on the "start now" shorthand. */
  lemma {:induction false} BatchRefinesIteration(s: State, auth: set<Address>, sender: Address, requests: Requests)
    requires WellFormed(s) && requests != []
    ensures CreateEach(s, auth, sender, requests, []).Done? <==>
            && CreateStreamBatch(s, auth, sender, requests).Done?
            && s.totalSupply + SumAmounts(requests) <= s.supplyCap
    ensures CreateEach(s, auth, sender, requests, []).Done? ==>
      var each, batch := CreateEach(s, auth, sender, requests, []), CreateStreamBatch(s, auth, sender, requests);
      && each.value == batch.value
      && each.state == batch.state.(totalSupply := each.state.totalSupply, streams := each.state.streams)
      && each.state.totalSupply == batch.state.totalSupply + SumAmounts(requests)
      && (each.state.streams == batch.state.streams <==> StartsExplicit(requests, s.now))
      && s.counter + |requests| <= U64_MAX
      && SameButStarts(batch.state.streams, each.state.streams, requests, s.now, s.counter)
  {
    hide SameButStarts, StartsExplicit;
    var normalized := Normalize(requests, s.now);
    NormalizeKeepsValidity(requests, s.now);
    NormalizeKeepsAmounts(requests, s.now);
    BatchDoneIff(s, auth, sender, requests);
    EachDoneIff(s, auth, sender, requests, []);
    if CreateEach(s, auth, sender, requests, []).Done? {
      EachOpens(s, auth, sender, requests, []);
      SumsNonNegative(requests, s.now);
      var funded := s.(balances := Fund(s.balances, sender, SumAmounts(requests)));
      SameEvents(funded, sender, requests, s.now, s.counter, funded);
      SameStreamsIff(funded, sender, requests, s.now);
      OpenAllOpens(funded, sender, requests, s.counter);
      OpenAllOpens(funded, sender, normalized, s.counter);
      assert [] + ConsecutiveIds(s.counter, |requests|) == ConsecutiveIds(s.counter, |requests|);
    }
  }
}
