/** Input normalization and the linear vesting arithmetic. */
module Vesting {
  import opened Arithmetic
  import opened Types
  import opened Wrappers

  function NormalizeStartTime(now: UInt64, startTime: UInt64): UInt64 {
    if startTime == START_NOW then now else startTime
  }

  function ClampToWindow(start: UInt64, end: UInt64, now: UInt64): UInt64 {
    if now <= start then start
    else if now >= end then end
    else now
  }

  // ---- The contract's functions -------------------------------------------

  function Vested(stream: Stream, now: UInt64): Result<Int128, Error> {
    if now <= stream.start then Ok(0)
    else if now >= stream.end then Ok(stream.total)
    else
      var elapsed := now - stream.start;
      var duration := stream.end - stream.start;
      match Checked(stream.total * elapsed)
      case None => Err(Overflow)
      case Some(numerator) =>
        match Checked(TruncDiv(numerator, duration))
        case None => Err(Overflow)
        case Some(result) => Ok(result)
  }

  function Unvested(stream: Stream, now: UInt64): Result<Int128, Error> {
    match Vested(stream, now)
    case Err(e) => Err(e)
    case Ok(vested) =>
      match Checked(stream.total - vested)
      case None => Err(Overflow)
      case Some(rest) => Ok(rest)
  }

  function Withdrawable(stream: Stream, now: UInt64): Result<Int128, Error> {
    match Vested(stream, now)
    case Err(e) => Err(e)
    case Ok(vested) =>
      match Checked(vested - stream.withdrawn)
      case None => Err(Overflow)
      case Some(available) => Ok(if available > 0 then available else 0)
  }

  // `end - start` is an unsigned subtraction, which needs an ordered window.
  function Elapsed(stream: Stream, now: UInt64): UInt64
    requires stream.start <= stream.end
  {
    ClampToWindow(stream.start, stream.end, now) - stream.start
  }

  // The final `as u32` keeps the low 32 bits.
  function ProgressBps(stream: Stream, now: UInt64): UInt32 {
    if now <= stream.start then 0
    else if now >= stream.end then 10_000
    else ((now - stream.start) * 10_000 / (stream.end - stream.start)) % (U32_MAX + 1)
  }

  function PercentWithdrawn(stream: Stream): Result<UInt32, Error> {
    if stream.total <= 0 then Ok(0)
    else
      match Checked(stream.withdrawn * 10_000)
      case None => Err(Overflow)
      case Some(scaled) => Ok(TruncDiv(scaled, stream.total) % (U32_MAX + 1))
  }

  function Summary(stream: Stream, now: UInt64): Result<StreamSummary, Error> {
    match Vested(stream, now)
    case Err(e) => Err(e)
    case Ok(vested) =>
      match Withdrawable(stream, now)
      case Err(e) => Err(e)
      case Ok(available) =>
        Ok(StreamSummary(stream.total, vested, stream.withdrawn, available,
                         ProgressBps(stream, now), stream.status))
  }

  // ---- The mathematical reference ------------------------------------------

  // Streams the contract stores have a positive total and a proper window.
  predicate Sound(stream: Stream) {
    stream.total >= 1 && stream.start < stream.end
  }

  /** What has vested, in unbounded arithmetic and one formula: the total scaled
      by the clamped share of the window, rounded down. */
  function Accrued(stream: Stream, now: UInt64): int
    requires Sound(stream)
  {
    stream.total * Elapsed(stream, now) / (stream.end - stream.start)
  }

  // The product of the interpolation leaves the 128-bit range.
  predicate Overflows(stream: Stream, now: UInt64) {
    stream.start < now < stream.end && stream.total * (now - stream.start) > I128_MAX
  }

  // ---- Laws ----------------------------------------------------------------

  lemma AccruedRemainder(stream: Stream, now: UInt64)
    requires Sound(stream)
    ensures
      var duration := stream.end - stream.start;
      0 <= stream.total * Elapsed(stream, now) - Accrued(stream, now) * duration < duration
  {
    var duration := stream.end - stream.start;
    var product := stream.total * Elapsed(stream, now);
    assert product == (product / duration) * duration + product % duration;
  }

  // Part of a window gives less than everything, and all of it gives everything.
  lemma ShareOfWindow(total: int, elapsed: int, duration: int)
    requires 1 <= total && 0 <= elapsed <= duration && 0 < duration
    ensures 0 <= total * elapsed / duration <= total
    ensures total * elapsed / duration == total <==> elapsed == duration
    ensures elapsed == 0 ==> total * elapsed / duration == 0
  {
    MulMonotone(0, elapsed, total);
    DivMonotone(0, total * elapsed, duration);
    DivIsFloor(total * duration, duration, total);
    if elapsed < duration {
      MulMonotone(elapsed, duration - 1, total);
      QuotientBounds(total * elapsed, duration);
      if total * elapsed / duration >= total {
        MulMonotone(total, total * elapsed / duration, duration);
      }
    }
  }

  lemma AccruedFull(stream: Stream, now: UInt64)
    requires Sound(stream)
    ensures 0 <= Accrued(stream, now) <= stream.total
    ensures Accrued(stream, now) == stream.total <==> now >= stream.end
    ensures now <= stream.start ==> Accrued(stream, now) == 0
  {
    ShareOfWindow(stream.total, Elapsed(stream, now), stream.end - stream.start);
  }

  // Vesting never runs backwards while time goes on ...
  lemma AccruedGrowsWithTime(stream: Stream, now: UInt64, later: UInt64)
    requires Sound(stream) && now <= later
    ensures Accrued(stream, now) <= Accrued(stream, later)
  {
    MulMonotone(Elapsed(stream, now), Elapsed(stream, later), stream.total);
    DivMonotone(stream.total * Elapsed(stream, now), stream.total * Elapsed(stream, later),
                stream.end - stream.start);
  }

  // ... a top-up never takes anything away ...
  lemma AccruedGrowsWithTotal(stream: Stream, total: Int128, now: UInt64)
    requires Sound(stream) && stream.total <= total
    ensures Accrued(stream, now) <= Accrued(stream.(total := total), now)
  {
    MulMonotone(stream.total, total, Elapsed(stream, now));
    DivMonotone(stream.total * Elapsed(stream, now), total * Elapsed(stream, now),
                stream.end - stream.start);
  }

  // ... but a later end can only lower it.
  lemma AccruedShrinksWithEnd(stream: Stream, end: UInt64, now: UInt64)
    requires Sound(stream) && stream.end <= end
    ensures Accrued(stream.(end := end), now) <= Accrued(stream, now)
  {
    AccruedFull(stream, now);
    AccruedFull(stream.(end := end), now);
    if stream.start < now < stream.end {
      DivAntitone(stream.total * (now - stream.start), stream.end - stream.start, end - stream.start);
    }
  }

  /** The three branches with checked arithmetic compute the one formula exactly,
      and fail in exactly one situation. */
  lemma VestedRefinesAccrued(stream: Stream, now: UInt64)
    requires Sound(stream)
    ensures Vested(stream, now) == if Overflows(stream, now) then Err(Overflow) else Ok(Accrued(stream, now))
  {
    AccruedFull(stream, now);
    if stream.start < now < stream.end {
      var product, duration := stream.total * (now - stream.start), stream.end - stream.start;
      MulMonotone(0, now - stream.start, stream.total);
      assert Elapsed(stream, now) == now - stream.start;
      assert TruncDiv(product, duration) == Accrued(stream, now);
    }
  }

  /** The two views partition the total, and the second never adds a failure. */
  lemma UnvestedComplementsVested(stream: Stream, now: UInt64)
    requires Sound(stream)
    ensures Unvested(stream, now).Ok? <==> Vested(stream, now).Ok?
    ensures Vested(stream, now).Ok? ==>
            Vested(stream, now).value + Unvested(stream, now).value == stream.total
  {
    VestedRefinesAccrued(stream, now);
    AccruedFull(stream, now);
  }

  predicate NeverOverflows(stream: Stream) {
    forall now: UInt64 :: Vested(stream, now).Ok?
  }

  /** A stream is safe from overflow at every time exactly when its largest
      intermediate product fits; any total up to 2^63 is safe in any window. */
  lemma OverflowFreeIff(stream: Stream)
    requires Sound(stream)
    ensures NeverOverflows(stream) <==> stream.total * (stream.end - stream.start - 1) <= I128_MAX
    ensures stream.total <= 0x8000_0000_0000_0000 ==> NeverOverflows(stream)
  {
    var widest := stream.end - stream.start - 1;
    var last: UInt64 := stream.end - 1;
    VestedRefinesAccrued(stream, last);
    if stream.total * widest <= I128_MAX {
      forall now: UInt64 ensures Vested(stream, now).Ok? {
        VestedRefinesAccrued(stream, now);
        if stream.start < now < stream.end {
          MulMonotone(now - stream.start, widest, stream.total);
        }
      }
    } else {
      assert stream.start < last < stream.end;
      assert !Vested(stream, last).Ok?;
    }
    if stream.total <= 0x8000_0000_0000_0000 {
      MulMonotone(stream.total, 0x8000_0000_0000_0000, widest);
      assert 0x8000_0000_0000_0000 * widest <= I128_MAX;
    }
  }

  // ---- Splitting one stream into several -----------------------------------

  function SumOf(amounts: seq<Int128>): int {
    if amounts == [] then 0 else SumOf(amounts[..|amounts| - 1]) + amounts[|amounts| - 1]
  }

  predicate AllPositive(amounts: seq<Int128>) {
    forall i | 0 <= i < |amounts| :: amounts[i] >= 1
  }

  // The summed accrual of several streams that share the window of `stream`.
  function SplitAccrued(stream: Stream, amounts: seq<Int128>, now: UInt64): int
    requires stream.start < stream.end && AllPositive(amounts)
    decreases |amounts|
  {
    if amounts == [] then 0
    else SplitAccrued(stream, amounts[..|amounts| - 1], now)
         + Accrued(stream.(total := amounts[|amounts| - 1]), now)
  }

  lemma {:induction false} SplitIgnoresTotal(a: Stream, b: Stream, amounts: seq<Int128>, now: UInt64)
    requires a.start < a.end && b == a.(total := b.total)
    requires AllPositive(amounts)
    decreases |amounts|
    ensures SplitAccrued(a, amounts, now) == SplitAccrued(b, amounts, now)
  {
    if amounts != [] {
      SplitIgnoresTotal(a, b, amounts[..|amounts| - 1], now);
    }
  }

  lemma {:induction false} SumAtLeastLength(amounts: seq<Int128>)
    requires AllPositive(amounts)
    ensures SumOf(amounts) >= |amounts|
  {
    if amounts != [] {
      SumAtLeastLength(amounts[..|amounts| - 1]);
    }
  }

  /** Cutting a stream into k streams over the same window loses at most k - 1
      units to rounding, at every time. */
  lemma {:induction false} SplittingBound(stream: Stream, amounts: seq<Int128>, now: UInt64)
    requires Sound(stream)
    requires |amounts| >= 1 && AllPositive(amounts)
    requires stream.total == SumOf(amounts)
    ensures SplitAccrued(stream, amounts, now) <= Accrued(stream, now)
    ensures Accrued(stream, now) <= SplitAccrued(stream, amounts, now) + |amounts| - 1
    decreases |amounts|
  {
    var front, last := amounts[..|amounts| - 1], amounts[|amounts| - 1];
    if front == [] {
      assert stream.(total := last) == stream;
    } else {
      SumAtLeastLength(front);
      var rest := stream.(total := stream.total - last);
      SplittingBound(rest, front, now);
      SplitIgnoresTotal(stream, rest, front, now);
      var elapsed := Elapsed(stream, now);
      assert stream.total * elapsed == rest.total * elapsed + last * elapsed;
      FloorOfSum(rest.total * elapsed, last * elapsed, stream.end - stream.start);
    }
  }

  /** What a top-up of `amount` adds to the vested sum: its own accrual, or one more. */
  lemma TopUpAccrual(stream: Stream, amount: Int128, now: UInt64)
    requires Sound(stream) && 1 <= amount && stream.total + amount <= I128_MAX
    ensures
      var gain := Accrued(stream.(total := stream.total + amount), now) - Accrued(stream, now);
      var own := Accrued(stream.(total := amount), now);
      own <= gain <= own + 1
  {
    var elapsed := Elapsed(stream, now);
    assert (stream.total + amount) * elapsed == stream.total * elapsed + amount * elapsed;
    FloorOfSum(stream.total * elapsed, amount * elapsed, stream.end - stream.start);
  }

  // ---- Basis-point views -----------------------------------------------------

  lemma ProgressIsExact(stream: Stream, now: UInt64)
    requires stream.start < stream.end
    ensures ProgressBps(stream, now) == Elapsed(stream, now) * 10_000 / (stream.end - stream.start) <= 10_000
  {
    var elapsed: int, duration: int := Elapsed(stream, now), stream.end - stream.start;
    DivMonotone(0, elapsed * 10_000, duration);
    DivMonotone(elapsed * 10_000, duration * 10_000, duration);
    DivIsFloor(duration * 10_000, duration, 10_000);
  }

  lemma PercentIsExact(stream: Stream)
    requires 0 <= stream.withdrawn <= stream.total && 0 < stream.total
    ensures PercentWithdrawn(stream) ==
            if stream.withdrawn * 10_000 <= I128_MAX then Ok(stream.withdrawn * 10_000 / stream.total)
            else Err(Overflow)
    ensures stream.withdrawn * 10_000 / stream.total <= 10_000
  {
    var w: int, total: int := stream.withdrawn, stream.total;
    DivMonotone(0, w * 10_000, total);
    DivMonotone(w * 10_000, 10_000 * total, total);
    DivIsFloor(10_000 * total, total, 10_000);
  }

  lemma ShareBelowProgress(w: int, total: int, accrued: int, elapsed: int, duration: int)
    requires total > 0 && duration > 0
    requires w <= accrued && accrued * duration <= total * elapsed
    ensures w * 10_000 / total <= elapsed * 10_000 / duration
  {
    var share := w * 10_000 / total;
    assert share * total <= w * 10_000;
    MulMonotone(share * total, w * 10_000, duration);
    MulMonotone(w, accrued, duration);
    assert (share * duration) * total == share * total * duration;
    assert w * 10_000 * duration == (w * duration) * 10_000;
    assert (elapsed * 10_000) * total == (total * elapsed) * 10_000;
    if share * duration > elapsed * 10_000 {
      MulMonotone(elapsed * 10_000 + 1, share * duration, total);
    }
    DivMonotone(share * duration, elapsed * 10_000, duration);
    DivIsFloor(share * duration, duration, share);
  }

  /** Neither cast loses anything, progress stays within 10 000, and a stream
      that has paid out no more than has vested never shows a larger share
      withdrawn than elapsed. */
  lemma BasisPointsAgree(stream: Stream, now: UInt64)
    requires Sound(stream) && 0 <= stream.withdrawn <= Accrued(stream, now)
    ensures ProgressBps(stream, now) == Elapsed(stream, now) * 10_000 / (stream.end - stream.start) <= 10_000
    ensures PercentWithdrawn(stream).Ok? <==> stream.withdrawn * 10_000 <= I128_MAX
    ensures PercentWithdrawn(stream).Ok? ==>
            PercentWithdrawn(stream).value == stream.withdrawn * 10_000 / stream.total
            <= ProgressBps(stream, now)
  {
    ProgressIsExact(stream, now);
    AccruedRemainder(stream, now);
    AccruedFull(stream, now);
    PercentIsExact(stream);
    ShareBelowProgress(stream.withdrawn, stream.total, Accrued(stream, now),
                       Elapsed(stream, now), stream.end - stream.start);
  }

  lemma RoundingGap(share: int, progress: int, w: int, total: int, elapsed: int, duration: int)
    requires total >= 10_000 && duration > 0
    requires progress * duration <= elapsed * 10_000
    requires total * elapsed < w * duration + duration
    requires w * 10_000 < share * total + total
    ensures progress < share + 2
  {
    var area := total * duration;
    MulMonotone(progress * duration, elapsed * 10_000, total);
    assert progress * area == progress * duration * total;
    assert total * elapsed * 10_000 < (w * duration + duration) * 10_000;
    assert (w * duration + duration) * 10_000 == (w * 10_000 + 10_000) * duration;
    MulMonotone(w * 10_000 + 10_000, share * total + 2 * total, duration);
    assert (share + 2) * area == (share * total + 2 * total) * duration;
    if progress >= share + 2 {
      MulMonotone(share + 2, progress, area);
    }
  }

  /** Straight after a withdrawal the two views of a stream of at least 10 000
      units are at most one basis point apart. */
  lemma BasisPointsMeetAfterWithdrawal(stream: Stream, now: UInt64)
    requires Sound(stream) && stream.total >= 10_000
    requires stream.withdrawn == Accrued(stream, now)
    requires PercentWithdrawn(stream).Ok?
    ensures PercentWithdrawn(stream).value <= ProgressBps(stream, now) <= PercentWithdrawn(stream).value + 1
  {
    AccruedFull(stream, now);
    BasisPointsAgree(stream, now);
    AccruedRemainder(stream, now);
    ProgressIsExact(stream, now);
    PercentIsExact(stream);
    var w: int, total: int := stream.withdrawn, stream.total;
    var elapsed: int, duration: int := Elapsed(stream, now), stream.end - stream.start;
    QuotientBounds(w * 10_000, total);
    QuotientBounds(elapsed * 10_000, duration);
    RoundingGap(w * 10_000 / total, elapsed * 10_000 / duration, w, total, elapsed, duration);
  }

  // ---- The bundled views -----------------------------------------------------

  /** Every field of the summary: what it shows is the stream, what has vested, and
      the part of that not yet withdrawn, which a stretched stream may not have. */
  lemma SummaryIsExact(stream: Stream, now: UInt64)
    requires Sound(stream) && 0 <= stream.withdrawn <= stream.total
    ensures
      var due := if stream.withdrawn < Accrued(stream, now) then Accrued(stream, now) - stream.withdrawn else 0;
      && Withdrawable(stream, now) == (if Overflows(stream, now) then Err(Overflow) else Ok(due))
      && (Summary(stream, now) == Err(Overflow) <==> Overflows(stream, now))
      && (Summary(stream, now).Ok? <==> !Overflows(stream, now))
      && (Summary(stream, now).Ok? ==>
            var summary := Summary(stream, now).value;
            && summary.total == stream.total
            && summary.vested == Accrued(stream, now)
            && summary.withdrawn == stream.withdrawn
            && summary.withdrawable == due
            && summary.progressBps == Elapsed(stream, now) * 10_000 / (stream.end - stream.start)
            && summary.status == stream.status)
  {
    VestedRefinesAccrued(stream, now);
    AccruedFull(stream, now);
    ProgressIsExact(stream, now);
  }

  /** Elapsed time is counted from the start and stops at the end. */
  lemma ElapsedIsClamped(stream: Stream, now: UInt64)
    requires stream.start < stream.end
    ensures 0 <= Elapsed(stream, now) <= stream.end - stream.start
    ensures Elapsed(stream, now) == 0 <==> now <= stream.start
    ensures Elapsed(stream, now) == stream.end - stream.start <==> stream.end <= now
    ensures stream.start <= now <= stream.end ==> stream.start + Elapsed(stream, now) == now
  {
  }
}
