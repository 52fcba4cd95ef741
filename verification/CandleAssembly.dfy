/** Engine.on_candle: a stream of duplicated, late and partly updated five-minute
    candles becomes a bounded, strictly ordered buffer of closed bars. */
module CandleAssembly {
  import opened Basics
  import opened CandleBuffers
  import opened CandleSpec

  /** A field of an incoming candle: float() may refuse it. */
  datatype Field = Unparsable | Parsed(price: Price)

  datatype RawCandle = RawCandle(time: Option<int>, open: Field, high: Field, low: Field, close: Field)

  /** The bar a raw candle stands for, or None when it is dropped. A NaN close is
      kept: the guard only asks whether the close is at most zero. */
  function ReadBar(c: RawCandle): Option<Bar> {
    if c.time == None then None
    else if c.open.Unparsable? || c.high.Unparsable? || c.low.Unparsable? || c.close.Unparsable? then None
    else if c.close.price.Num? && c.close.price.x <= 0.0 then None
    else Some(Bar(c.open.price, c.high.price, c.low.price, c.close.price, c.time.value))
  }

  /** The candles that are kept: a time, four numbers, and no close at or below zero. */
  predicate IsReadable(c: RawCandle) {
    && c.time.Some? && c.open.Parsed? && c.high.Parsed? && c.low.Parsed? && c.close.Parsed?
    && (c.close.price == NaN || c.close.price.x > 0.0)
  }

  /** The bar has the candle's own values, each under its own name. */
  predicate Carries(b: Bar, c: RawCandle)
    requires IsReadable(c)
  {
    && b.time == c.time.value && b.open == c.open.price && b.high == c.high.price && b.low == c.low.price
    && b.close == c.close.price
  }

  /** The stream goes on by one event, which carries the candle and the clock reading. */
  ghost predicate Accepts(before: seq<Event>, after: seq<Event>, c: RawCandle, now: int)
    requires IsReadable(c)
  {
    && |after| == |before| + 1 && before <= after
    && Carries(after[|before|].bar, c) && after[|before|].now == now
  }

  /** How many of the first n steps are gaps, and the widest of them. */
  ghost function GapStats(times: seq<int>, n: nat): (nat, int)
    requires n < |times|
  {
    if n == 0 then (0, 0) else
      var (count, widest) := GapStats(times, n - 1);
      var delta := times[n] - times[n - 1];
      if delta > MAX_STEP_MS then (count + 1, if delta > widest then delta else widest) else (count, widest)
  }

  lemma {:induction false} GapStatsMeaning(times: seq<int>, n: nat)
    requires n < |times|
    ensures GapStats(times, n).0 > 0 <==> exists i | 0 <= i < n :: times[i + 1] - times[i] > MAX_STEP_MS
  {
    if n > 0 {
      GapStatsMeaning(times, n - 1);
      assert times[(n - 1) + 1] == times[n];
    }
  }

  method BackfillGapStats(times: seq<int>) returns (gapCount: nat, maxGap: int)
    ensures (gapCount, maxGap) == if |times| < 2 then (0, 0) else GapStats(times, |times| - 1)
    ensures gapCount > 0 <==> HasGap(times)
  {
    gapCount, maxGap := 0, 0;
    if |times| < 2 {
      return;
    }
    var k := 0;
    while k < |times| - 1
      invariant 0 <= k <= |times| - 1
      invariant (gapCount, maxGap) == GapStats(times, k)
    {
      var delta := times[k + 1] - times[k];
      if delta > MAX_STEP_MS {
        gapCount := gapCount + 1;
        if delta > maxGap {
          maxGap := delta;
        }
      }
      k := k + 1;
    }
    GapStatsMeaning(times, k);
  }

  /** sorted(keys): repeatedly inserts a key behind all smaller ones. */
  method SortKeys(keys: set<int>) returns (times: seq<int>)
    ensures times == SortedTimes(keys)
  {
    times := [];
    var rest := keys;
    while rest != {}
      invariant rest <= keys && IsSortOf(times, keys - rest)
      decreases rest
    {
      assert exists t :: t in rest by { var x := Any(rest); assert x in rest; }
      var t :| t in rest;
      var k := 0;
      while k < |times| && times[k] < t
        invariant 0 <= k <= |times|
        invariant forall i | 0 <= i < k :: times[i] < t
      {
        k := k + 1;
      }
      SortInsert(times, keys - rest, k, t);
      assert keys - rest + {t} == keys - (rest - {t});
      times, rest := times[..k] + [t] + times[k..], rest - {t};
    }
    assert keys - rest == keys;
    SortUnique(times, SortedTimes(keys), keys);
  }

  lemma InsertOrdered(r: seq<int>, k: nat, t: int)
    requires k <= |r| && (forall i, j | 0 <= i < j < |r| :: r[i] < r[j])
    requires (forall i | 0 <= i < k :: r[i] < t) && (k < |r| ==> t < r[k])
    ensures var r' := r[..k] + [t] + r[k..]; forall i, j | 0 <= i < j < |r'| :: r'[i] < r'[j]
  {
    assert forall i | k <= i < |r| :: t < r[i];
  }

  lemma SortInsert(r: seq<int>, s: set<int>, k: nat, t: int)
    requires IsSortOf(r, s) && t !in s && k <= |r|
    requires forall i | 0 <= i < k :: r[i] < t
    requires k < |r| ==> t <= r[k]
    ensures IsSortOf(r[..k] + [t] + r[k..], s + {t})
  {
    if k < |r| { var x := r[k]; assert x in s; }
    InsertOrdered(r, k, t);
    assert r == r[..k] + r[k..];
    var r' := r[..k] + [t] + r[k..];
    forall x | x in s + {t} ensures x in r' {
      if x != t { assert x in r; }
    }
    forall i | 0 <= i < |r'| ensures r'[i] in s + {t} {
      assert i != k ==> r'[i] == r[if i < k then i else i - 1];
    }
  }

  /** max(values, key=time). */
  method Latest(book: map<int, Bar>) returns (bar: Bar)
    requires book.Keys != {}
    ensures bar == book[Newest(book.Keys)]
  {
    var times := SortKeys(book.Keys);
    var top := Newest(book.Keys);
    assert top in times;
    bar := book[times[|times| - 1]];
  }

  ghost function LastTime(closed: seq<Bar>): Option<int> {
    if closed == [] then None else Some(closed[|closed| - 1].time)
  }

  /** Each processed bar is a closed bar, and they come in strictly increasing time. */
  ghost predicate FromClosed(processed: seq<Bar>, closed: seq<Bar>) {
    && Increasing(processed)
    && (forall i | 0 <= i < |processed| :: processed[i] in closed)
  }

  class Engine {
    // configuration
    const warmupBars: int
    const backfillBars: int
    const ignoreTimeWindow: bool
    // state
    const buf: CandleBuffer
    var backfillMode: bool
    var backfillByTime: map<int, Bar>
    var backfillRetriesLeft: int
    var backfillRetryDeadline: Option<int>
    var backfillWaitDeadline: Option<int>
    var currentForming: Option<Bar>
    var currentFormingT: Option<int>
    var lastClosedT: Option<int>
    var acceptedBars: nat
    var warmupDone: bool
    // everything accepted so far, and the bars handed on to processing
    ghost var stream: seq<Event>
    ghost var processed: seq<Bar>

    constructor (maxlen: nat, warmupBars: int, backfillBars: int, ignoreTimeWindow: bool)
      ensures Valid() && fresh(buf)
      ensures stream == [] && processed == []
      ensures buf.maxlen == maxlen && this.warmupBars == warmupBars && this.backfillBars == backfillBars
      ensures this.ignoreTimeWindow == ignoreTimeWindow
    {
      this.warmupBars, this.backfillBars, this.ignoreTimeWindow := warmupBars, backfillBars, ignoreTimeWindow;
      buf := new CandleBuffer(maxlen);
      backfillMode := true;
      backfillByTime := map[];
      backfillRetriesLeft := 1;
      backfillRetryDeadline, backfillWaitDeadline := None, None;
      currentForming, currentFormingT, lastClosedT := None, None, None;
      acceptedBars, warmupDone := 0, false;
      stream, processed := [], [];
    }

    /** The smaller of the two configured counts, one alone when only it is set, and
        never below 2. */
    function BackfillTarget(): (n: int)
      ensures n >= 2 && (n == 2 || n == warmupBars || n == backfillBars)
      ensures (warmupBars >= 2 ==> n <= warmupBars) && (backfillBars >= 2 ==> n <= backfillBars)
      ensures n == 2 ==> 0 < warmupBars <= 2 || 0 < backfillBars <= 2 || (warmupBars <= 0 && backfillBars <= 0)
    {
      var warmup := if warmupBars > 0 then warmupBars else 0;
      var backfill := if backfillBars > 0 then backfillBars else 0;
      var wanted := if warmup != 0 then warmup else backfill;
      var desired := if backfill != 0 then (if wanted < backfill then wanted else backfill) else warmup;
      if desired < 2 then 2 else desired
    }

    ghost function Phase(): Phase
      reads this`stream
    {
      PhaseOf(stream, BackfillTarget())
    }

    /** The fields say exactly what the stream's phase says. */
    ghost predicate Valid()
      reads this, buf
    {
      ValidFor(Phase())
    }

    ghost predicate ValidFor(p: Phase)
      reads this, buf
    {
      && buf.Valid()
      && match p
         case Collecting(book, wait, seenReady) =>
           && backfillMode && backfillByTime == book && backfillWaitDeadline == wait
           && backfillRetriesLeft == (if seenReady then 0 else 1)
           && (backfillRetryDeadline == None <==> backfillRetriesLeft == 1)
           && buf.bars == [] && currentForming == None && currentFormingT == None && lastClosedT == None
           && acceptedBars == 0 && !warmupDone && processed == []
         case Live(closed, forming, newest, seeded) =>
           && !backfillMode
           && buf.bars == LastN(closed, buf.maxlen)
           && currentForming == Some(forming) && currentFormingT == Some(newest)
           && lastClosedT == LastTime(closed)
           && |closed| == seeded + acceptedBars
           && (warmupDone <==> acceptedBars > 0 && |buf.bars| >= warmupBars)
           && Orderly(closed, forming, newest) && FromClosed(processed, closed)
           && (processed != [] ==> |processed| < acceptedBars)
    }

    method AppendAll(seeded: seq<Bar>)
      requires buf.Valid() && buf.bars == []
      modifies buf
      ensures buf.Valid() && buf.bars == LastN(seeded, buf.maxlen)
    {
      var k := 0;
      while k < |seeded|
        invariant 0 <= k <= |seeded|
        invariant buf.Valid()
        invariant buf.bars == LastN(seeded[..k], buf.maxlen)
      {
        assert seeded[..k + 1] == seeded[..k] + [seeded[k]];
        LastNAppend(seeded[..k], seeded[k], buf.maxlen, buf.maxlen);
        buf.Append(seeded[k]);
        k := k + 1;
      }
      assert seeded[..k] == seeded;
    }

    /** _seed_backfill: the sorted backfill bars without the current one fill the buffer. */
    method SeedBackfill(current: Bar)
      requires buf.Valid() && lastClosedT == None && buf.bars == []
      requires current.time in backfillByTime
      modifies this`lastClosedT, buf
      ensures buf.Valid()
      ensures var seeded := Pick(backfillByTime, SortedTimes(backfillByTime.Keys - {current.time}));
        buf.bars == LastN(seeded, buf.maxlen) && lastClosedT == LastTime(seeded)
    {
      var times := SortKeys(backfillByTime.Keys - {current.time});
      var seeded := Pick(backfillByTime, times);
      AppendAll(seeded);
      if |seeded| > 0 {
        lastClosedT := Some(seeded[|seeded| - 1].time);
      }
    }

    /** Decides whether the update just collected ends backfill. The retry deadline
        is 10 minutes ahead, but it postpones one update only: the retry is used up
        when it is set, and without a retry left the deadline is not looked at. */
    method BackfillDecision(t: int, now: int, ghost seen: bool) returns (finish: bool)
      requires backfillRetriesLeft == (if seen then 0 else 1)
      requires backfillRetryDeadline == None <==> backfillRetriesLeft == 1
      modifies this`backfillWaitDeadline, this`backfillRetryDeadline, this`backfillRetriesLeft
      ensures var wait := old(backfillWaitDeadline);
        var arms := t >= now - NEAR_LIVE_MS && wait == None;
        var ready := !arms && (|backfillByTime.Keys| >= BackfillTarget() || (wait.Some? && t >= wait.value));
        && finish == (ready && (!HasGap(SortedTimes(backfillByTime.Keys)) || seen))
        && backfillWaitDeadline == (if arms then Some(t + WAIT_MS) else wait)
        && (!finish ==> backfillRetriesLeft == if seen || ready then 0 else 1)
        && (backfillRetryDeadline == None <==> backfillRetriesLeft == 1)
    {
      if t >= now - NEAR_LIVE_MS && backfillWaitDeadline == None {
        backfillWaitDeadline := Some(t + WAIT_MS);
        return false;
      }
      var enoughBackfill := |backfillByTime.Keys| >= BackfillTarget();
      var deadlineReached := backfillWaitDeadline.Some? && t >= backfillWaitDeadline.value;
      if !(enoughBackfill || deadlineReached) {
        return false;
      }
      var times := SortKeys(backfillByTime.Keys);
      var gapCount, _ := BackfillGapStats(times);
      if gapCount > 0 && backfillRetriesLeft > 0 {
        if backfillRetryDeadline == None {
          backfillRetryDeadline := Some(t + WAIT_MS);
          backfillRetriesLeft := backfillRetriesLeft - 1;
        }
        if t < (if backfillRetryDeadline.Some? then backfillRetryDeadline.value else 0) {
          return false;
        }
      }
      return true;
    }

    /** Leaves backfill: the newest bar forms, all older ones are closed. */
    method FinishBackfill(ghost p: Phase)
      requires buf.Valid() && buf.bars == [] && lastClosedT == None
      requires acceptedBars == 0 && !warmupDone && processed == []
      requires backfillByTime.Keys != {} && p == StartLive(backfillByTime)
      requires Orderly(p.closed, p.forming, p.newest)
      modifies this, buf
      ensures ValidFor(p) && stream == old(stream) && processed == []
    {
      var latest := Latest(backfillByTime);
      assert latest == p.forming && latest.time == p.newest;
      assert p.closed == Pick(backfillByTime, SortedTimes(backfillByTime.Keys - {latest.time}));
      backfillMode := false;
      SeedBackfill(latest);
      assert buf.bars == LastN(p.closed, buf.maxlen) && lastClosedT == LastTime(p.closed);
      backfillByTime := map[];
      backfillWaitDeadline := None;
      currentForming := Some(latest);
      currentFormingT := Some(latest.time);
    }

    /** Collects the bar and decides, from the phase before to the phase after. */
    method Collect(bar: Bar, now: int, ghost before: Phase, ghost after: Phase)
      requires ValidFor(before) && before.Collecting? && after == Next(before, Event(bar, now), BackfillTarget())
      requires after.Live? ==> Orderly(after.closed, after.forming, after.newest)
      modifies this, buf
      ensures ValidFor(after) && processed == [] && stream == old(stream)
    {
      backfillByTime := backfillByTime[bar.time := bar];
      var finish := BackfillDecision(bar.time, now, before.seenReady);
      if finish {
        FinishBackfill(after);
      }
    }

    /** The backfill branch: collect, wait for live data once, retry a gap once. */
    method OnBackfill(bar: Bar, now: int)
      requires Valid() && backfillMode
      modifies this, buf
      ensures Valid() && processed == []
      ensures stream == old(stream) + [Event(bar, now)]
    {
      ghost var e := Event(bar, now);
      ghost var before := Phase();
      PhaseSnoc(stream, e, BackfillTarget());
      stream := stream + [e];
      if Phase().Live? {
        PhaseOrderly(stream, BackfillTarget());
      }
      Collect(bar, now, before, Phase());
    }

    /** After backfill. A forming bar always exists here, so the branch of the
        program that would start one is never taken. */
    method OnLive(bar: Bar, now: int, isToday: int -> bool, inSignalWindow: int -> bool) returns (handed: Option<Bar>)
      requires Valid() && !backfillMode
      modifies this, buf
      ensures Valid()
      ensures stream == old(stream) + [Event(bar, now)]
      ensures handed == (var f := old(Phase()).forming;
        if bar.time > old(Phase()).newest && old(warmupDone) && (ignoreTimeWindow || (isToday(f.time) && inSignalWindow(f.time)))
        then Some(f) else None)
      ensures processed == if handed == None then old(processed) else old(processed) + [handed.value]
      ensures bar.time >= old(Phase()).newest ==> currentForming == Some(bar)
    {
      ghost var e := Event(bar, now);
      ghost var before := Phase();
      PhaseSnoc(stream, e, BackfillTarget());
      stream := stream + [e];
      PhaseOrderly(stream, BackfillTarget());
      var t := bar.time;
      assert currentForming.Some? && currentFormingT.Some?;
      if lastClosedT.Some? && t <= lastClosedT.value {
        return None;
      }
      if t < currentFormingT.value {
        return None;
      }
      if t == currentFormingT.value {
        currentForming := Some(bar);
        assert Phase() == before.(forming := bar);
        return None;
      }
      var finished := currentForming.value;
      FromClosedGrows(processed, before.closed, finished);
      var warm := CloseForming(bar, before, Phase());
      handed := HandOn(finished, warm, isToday, inSignalWindow, Phase());
    }

    /** Hands a closed bar on, after warmup and within the time window; the bar that
        completes the warmup is not processed. */
    method HandOn(finished: Bar, warm: bool, isToday: int -> bool, inSignalWindow: int -> bool, ghost p: Phase) returns (handed: Option<Bar>)
      requires ValidFor(p) && p.Live? && FromClosed(processed + [finished], p.closed)
      requires warm ==> |processed| + 1 < acceptedBars
      modifies this`processed
      ensures ValidFor(p)
      ensures handed == if warm && (ignoreTimeWindow || (isToday(finished.time) && inSignalWindow(finished.time)))
                        then Some(finished) else None
      ensures processed == if handed == None then old(processed) else old(processed) + [handed.value]
    {
      if !warm {
        return None;
      }
      if !ignoreTimeWindow {
        if !isToday(finished.time) {
          return None;
        }
        if !inSignalWindow(finished.time) {
          return None;
        }
      }
      processed := processed + [finished];
      return Some(finished);
    }

    /** Closes the forming bar, starts the next one and advances the warmup; warm tells
        whether the warmup had been done before. */
    method CloseForming(bar: Bar, ghost before: Phase, ghost after: Phase) returns (warm: bool)
      requires ValidFor(before) && before.Live? && bar.time > before.newest
      requires after == Live(before.closed + [before.forming], bar, bar.time, before.seeded)
      requires Orderly(after.closed, after.forming, after.newest)
      modifies this, buf
      ensures ValidFor(after) && warm == old(warmupDone) && acceptedBars == old(acceptedBars) + 1
      ensures warm ==> processed == [] || |processed| + 1 < acceptedBars
      ensures warm ==> acceptedBars > 1
      ensures stream == old(stream) && processed == old(processed)
    {
      CloseBar(currentForming.value, before.closed);
      FromClosedKeeps(processed, before.closed, currentForming.value);
      currentForming := Some(bar);
      currentFormingT := Some(bar.time);
      warm := warmupDone;
      if !warmupDone && |buf.bars| >= warmupBars {
        warmupDone := true;
      }
    }

    method CloseBar(finished: Bar, ghost closed: seq<Bar>)
      requires buf.Valid() && buf.bars == LastN(closed, buf.maxlen)
      modifies this`acceptedBars, this`lastClosedT, buf
      ensures buf.Valid() && buf.bars == LastN(closed + [finished], buf.maxlen)
      ensures |buf.bars| >= old(|buf.bars|)
      ensures acceptedBars == old(acceptedBars) + 1 && lastClosedT == LastTime(closed + [finished])
    {
      LastNAppend(closed, finished, buf.maxlen, buf.maxlen);
      buf.Append(finished);
      acceptedBars := acceptedBars + 1;
      lastClosedT := Some(finished.time);
    }

    /** One candle off the stream; the result is the bar handed to processing, if any. */
    method OnCandle(c: RawCandle, now: int, isToday: int -> bool, inSignalWindow: int -> bool) returns (handed: Option<Bar>)
      requires Valid()
      modifies this, buf
      ensures Valid()
      ensures !IsReadable(c) ==> unchanged(this) && unchanged(buf)
      ensures IsReadable(c) ==> Accepts(old(stream), stream, c, now)
      ensures IsReadable(c) && old(Phase()).Live? && c.time.value >= old(Phase()).newest ==>
        currentForming.Some? && Carries(currentForming.value, c)
      ensures processed == if handed == None then old(processed) else old(processed) + [handed.value]
      ensures handed.Some? <==>
        && IsReadable(c) && old(Phase()).Live? && c.time.value > old(Phase()).newest
        && old(warmupDone) && (ignoreTimeWindow || (var f := old(Phase()).forming; isToday(f.time) && inSignalWindow(f.time)))
      ensures handed.Some? ==> handed.value == old(Phase()).forming
      ensures processed != [] ==> |processed| <= acceptedBars - 1
    {
      handed := None;
      var read := ReadBar(c);
      if read == None {
        return;
      }
      if backfillMode {
        OnBackfill(read.value, now);
      } else {
        handed := OnLive(read.value, now, isToday, inSignalWindow);
      }
    }
  }

  lemma FromClosedKeeps(processed: seq<Bar>, closed: seq<Bar>, bar: Bar)
    requires FromClosed(processed, closed)
    ensures FromClosed(processed, closed + [bar])
  {
  }

  lemma FromClosedGrows(processed: seq<Bar>, closed: seq<Bar>, bar: Bar)
    requires FromClosed(processed, closed) && forall i | 0 <= i < |closed| :: closed[i].time < bar.time
    ensures FromClosed(processed + [bar], closed + [bar])
  {
    forall i | 0 <= i < |processed| ensures processed[i].time < bar.time {
      assert processed[i] in closed;
    }
  }
}
