/** What a stream of candle updates means, stated over the whole stream and
    without any engine state: the last accepted update of every bar time, the
    closed bars in time order, and the point at which backfill ends. */
module CandleSpec {
  import opened Basics
  import opened CandleBuffers

  const MINUTE_MS: int := 60 * 1000
  const NEAR_LIVE_MS: int := 20 * MINUTE_MS
  const WAIT_MS: int := 10 * MINUTE_MS
  // 5 minutes * 1.2
  const MAX_STEP_MS: int := 6 * MINUTE_MS

  /** A candle that passed the field checks, with the clock reading at its arrival. */
  datatype Event = Event(bar: Bar, now: int)

  predicate NearLive(e: Event) {
    e.bar.time >= e.now - NEAR_LIVE_MS
  }

  // ----- sets of times in order -----

  ghost predicate IsSortOf(r: seq<int>, s: set<int>) {
    && (forall i | 0 <= i < |r| :: r[i] in s)
    && (forall t | t in s :: t in r)
    && (forall i, j | 0 <= i < j < |r| :: r[i] < r[j])
  }

  ghost predicate Increasing(h: seq<Bar>) {
    forall i, j | 0 <= i < j < |h| :: h[i].time < h[j].time
  }

  /** A set of times can be put in increasing order in one way only. */
  lemma {:induction false} SortUnique(a: seq<int>, b: seq<int>, s: set<int>)
    requires IsSortOf(a, s) && IsSortOf(b, s)
    ensures a == b
  {
    if |a| > 0 { var x := a[0]; assert x in s; assert x in b; }
    if |b| > 0 { var x := b[0]; assert x in s; assert x in a; }
    if |a| > 0 {
      assert a[0] == b[0];
      SortTail(a, s);
      SortTail(b, s);
      SortUnique(a[1..], b[1..], s - {a[0]});
    }
  }

  lemma SortTail(a: seq<int>, s: set<int>)
    requires IsSortOf(a, s) && |a| > 0
    ensures IsSortOf(a[1..], s - {a[0]})
  {
    forall t | t in s - {a[0]} ensures t in a[1..] {
      assert t in a;
    }
  }

  lemma {:induction false} SortExists(s: set<int>)
    ensures exists r :: IsSortOf(r, s)
  {
    if s == {} {
      assert IsSortOf([], s);
    } else {
      var m := Newest(s);
      SortExists(s - {m});
      var r :| IsSortOf(r, s - {m});
      SortSnoc(r, s - {m}, m);
      assert s - {m} + {m} == s;
    }
  }

  ghost function Newest(s: set<int>): (m: int)
    requires s != {}
    ensures m in s && forall x | x in s :: x <= m
  {
    var a := Any(s);
    assert forall x | x in s :: x == a || x in s - {a};
    if s - {a} == {} then a
    else
      var n := Newest(s - {a});
      if a <= n then n else a
  }

  lemma SortSnoc(r: seq<int>, s: set<int>, m: int)
    requires IsSortOf(r, s) && forall t | t in s :: t < m
    ensures IsSortOf(r + [m], s + {m})
  {
    forall i, j | 0 <= i < j < |r| + 1 ensures (r + [m])[i] < (r + [m])[j] {
      if j == |r| { var x := r[i]; assert x in s; }
    }
    forall t | t in s + {m} ensures t in r + [m] {
      assert t == m || t in r;
    }
  }

  /** sorted() of a set of keys. */
  ghost function SortedTimes(s: set<int>): (r: seq<int>)
    ensures IsSortOf(r, s)
  {
    SortExists(s);
    var r :| IsSortOf(r, s);
    r
  }

  /** Adding a time above all others appends it. */
  lemma SortedTimesSnoc(s: set<int>, m: int)
    requires forall t | t in s :: t < m
    ensures SortedTimes(s + {m}) == SortedTimes(s) + [m]
  {
    SortSnoc(SortedTimes(s), s, m);
    SortUnique(SortedTimes(s + {m}), SortedTimes(s) + [m], s + {m});
  }

  function Pick(m: map<int, Bar>, times: seq<int>): (r: seq<Bar>)
    requires forall i | 0 <= i < |times| :: times[i] in m
  {
    seq(|times|, i requires 0 <= i < |times| => m[times[i]])
  }

  /** More than 6 minutes between two neighbouring times. */
  predicate HasGap(times: seq<int>) {
    exists i | 0 <= i < |times| - 1 :: times[i + 1] - times[i] > MAX_STEP_MS
  }

  // ----- the book of last accepted updates -----

  /** The newest time seen. */
  ghost function MaxTime(s: seq<Event>): int
    requires s != []
  {
    var n := |s| - 1;
    if n == 0 || s[n].bar.time >= MaxTime(s[..n]) then s[n].bar.time else MaxTime(s[..n])
  }

  lemma {:induction false} MaxTimeIsMax(s: seq<Event>)
    requires s != []
    ensures forall i | 0 <= i < |s| :: s[i].bar.time <= MaxTime(s)
    ensures exists i :: 0 <= i < |s| && s[i].bar.time == MaxTime(s)
  {
    var n := |s| - 1;
    if n > 0 {
      MaxTimeIsMax(s[..n]);
      assert forall i | 0 <= i < n :: s[i] == s[..n][i];
      var i :| 0 <= i < n && s[..n][i].bar.time == MaxTime(s[..n]);
      assert s[i].bar.time == MaxTime(s[..n]);
    }
    assert MaxTime(s) == s[n].bar.time || (n > 0 && MaxTime(s) == MaxTime(s[..n]));
  }

  /** Whether update i still counts: everything does during backfill (the first b
      updates); afterwards only an update at or above every earlier time. */
  ghost predicate Accepted(s: seq<Event>, b: nat, i: nat)
    requires i < |s|
  {
    i < b || forall j | 0 <= j < i :: s[j].bar.time <= s[i].bar.time
  }

  ghost function Book(s: seq<Event>, b: nat): map<int, Bar> {
    if s == [] then map[]
    else
      var n := |s| - 1;
      var m := Book(s[..n], b);
      if Accepted(s, b, n) then m[s[n].bar.time := s[n].bar] else m
  }

  /** Update i is the last accepted one of its time. */
  ghost predicate LastAccepted(s: seq<Event>, b: nat, i: nat) {
    && i < |s| && Accepted(s, b, i)
    && forall k | i < k < |s| && Accepted(s, b, k) :: s[k].bar.time != s[i].bar.time
  }

  lemma AcceptedPrefix(s: seq<Event>, b: nat, n: nat, i: nat)
    requires i < n <= |s|
    ensures Accepted(s[..n], b, i) == Accepted(s, b, i)
  {
    forall j | 0 <= j <= i ensures s[..n][j] == s[j] {
    }
  }

  /** Time t has x as its last accepted update. */
  ghost predicate HasLast(s: seq<Event>, b: nat, t: int, x: Bar) {
    exists i: nat :: LastAccepted(s, b, i) && s[i].bar.time == t && s[i].bar == x
  }

  /** An update that is dropped, or is about another time, keeps what was last. */
  lemma LastAcceptedStays(s: seq<Event>, b: nat, i: nat)
    requires 0 < |s| && i < |s| - 1
    requires !(Accepted(s, b, |s| - 1) && s[|s| - 1].bar.time == s[i].bar.time)
    ensures LastAccepted(s, b, i) == LastAccepted(s[..|s| - 1], b, i)
  {
    var n := |s| - 1;
    var s' := s[..n];
    AcceptedPrefix(s, b, n, i);
    if LastAccepted(s, b, i) {
      forall k: nat | i < k < n && Accepted(s', b, k) ensures s'[k].bar.time != s'[i].bar.time {
        AcceptedPrefix(s, b, n, k);
        assert s[k].bar.time != s[i].bar.time;
      }
    }
    if LastAccepted(s', b, i) {
      forall k: nat | i < k < |s| && Accepted(s, b, k) ensures s[k].bar.time != s[i].bar.time {
        if k < n {
          AcceptedPrefix(s, b, n, k);
          assert s'[k].bar.time != s'[i].bar.time;
        }
      }
    }
  }

  lemma HasLastStays(s: seq<Event>, b: nat, t: int, x: Bar)
    requires s != [] && !(Accepted(s, b, |s| - 1) && s[|s| - 1].bar.time == t)
    ensures HasLast(s, b, t, x) == HasLast(s[..|s| - 1], b, t, x)
  {
    var n := |s| - 1;
    var s' := s[..n];
    if HasLast(s', b, t, x) {
      var i: nat :| LastAccepted(s', b, i) && s'[i].bar.time == t && s'[i].bar == x;
      LastAcceptedStays(s, b, i);
      assert s[i] == s'[i];
    }
    if HasLast(s, b, t, x) {
      var i: nat :| LastAccepted(s, b, i) && s[i].bar.time == t && s[i].bar == x;
      LastAcceptedStays(s, b, i);
      assert s[i] == s'[i];
    }
  }

  lemma HasLastNew(s: seq<Event>, b: nat, t: int, x: Bar)
    requires s != [] && Accepted(s, b, |s| - 1) && s[|s| - 1].bar.time == t
    ensures HasLast(s, b, t, x) <==> x == s[|s| - 1].bar
  {
    assert LastAccepted(s, b, |s| - 1);
  }

  /** The book holds, for each time, exactly the last accepted update of that time. */
  lemma {:induction false} BookIsLastAccepted(s: seq<Event>, b: nat, t: int, x: Bar)
    ensures (t in Book(s, b) && Book(s, b)[t] == x) <==> HasLast(s, b, t, x)
  {
    if s != [] {
      var n := |s| - 1;
      if Accepted(s, b, n) && s[n].bar.time == t {
        HasLastNew(s, b, t, x);
      } else {
        HasLastStays(s, b, t, x);
        BookIsLastAccepted(s[..n], b, t, x);
      }
    }
  }

  lemma {:induction false} BookBasics(s: seq<Event>, b: nat)
    ensures forall t | t in Book(s, b) :: Book(s, b)[t].time == t
    ensures s != [] ==> MaxTime(s) in Book(s, b)
    ensures s != [] ==> forall t | t in Book(s, b) :: t <= MaxTime(s)
    ensures s == [] ==> Book(s, b) == map[]
  {
    if s != [] {
      var n := |s| - 1;
      BookBasics(s[..n], b);
      MaxTimeIsMax(s);
      if n > 0 { MaxTimeIsMax(s[..n]); }
      assert forall j | 0 <= j < n :: s[..n][j] == s[j];
      if n > 0 && !(Accepted(s, b, n)) {
        assert MaxTime(s) == MaxTime(s[..n]);
      }
    }
  }

  /** One more update: the step form of the book. */
  lemma BookSnoc(s: seq<Event>, b: nat, e: Event)
    ensures var s' := s + [e];
      Book(s', b) == if |s| < b || s == [] || e.bar.time >= MaxTime(s)
                     then Book(s, b)[e.bar.time := e.bar] else Book(s, b)
    ensures MaxTime(s + [e]) == if s == [] || e.bar.time >= MaxTime(s) then e.bar.time else MaxTime(s)
  {
    var s' := s + [e];
    assert s'[..|s|] == s;
    if s != [] { MaxTimeIsMax(s); }
    assert forall j | 0 <= j < |s| :: s'[j] == s[j];
  }

  /** While all updates are accepted the bound b does not matter. */
  lemma {:induction false} BookBound(s: seq<Event>, b: nat, c: nat)
    requires |s| <= b && |s| <= c
    ensures Book(s, b) == Book(s, c)
  {
    if s != [] {
      BookBound(s[..|s| - 1], b, c);
    }
  }

  /** Closed bars after stream s whose first b updates were backfill. */
  ghost function History(s: seq<Event>, b: nat): seq<Bar>
    requires s != []
  {
    Pick(Book(s, b), SortedTimes(Book(s, b).Keys - {MaxTime(s)}))
  }

  ghost function Forming(s: seq<Event>, b: nat): Bar
    requires s != []
  {
    BookBasics(s, b);
    Book(s, b)[MaxTime(s)]
  }

  lemma PickMeaning(m: map<int, Bar>, keys: set<int>, x: Bar)
    requires keys <= m.Keys && forall t | t in m :: m[t].time == t
    ensures x in Pick(m, SortedTimes(keys)) <==> x.time in keys && m[x.time] == x
    ensures Increasing(Pick(m, SortedTimes(keys)))
  {
    var times := SortedTimes(keys);
    var h := Pick(m, times);
    forall i | 0 <= i < |h| ensures h[i].time == times[i] && times[i] in keys {
      assert times[i] in times;
    }
    if x.time in keys && m[x.time] == x {
      assert x.time in times;
      var i :| 0 <= i < |times| && times[i] == x.time;
      assert h[i] == x;
    }
  }

  /** The closed bars, told without the book: strictly increasing in time, and a
      bar is among them iff it is the last accepted update of a time below the
      newest time seen. */
  lemma HistoryMeaning(s: seq<Event>, b: nat, x: Bar)
    requires s != []
    ensures Increasing(History(s, b))
    ensures x in History(s, b) <==>
      x.time < MaxTime(s) && HasLast(s, b, x.time, x)
  {
    BookBasics(s, b);
    BookIsLastAccepted(s, b, x.time, x);
    PickMeaning(Book(s, b), Book(s, b).Keys - {MaxTime(s)}, x);
  }

  /** After backfill a further update closes the forming bar exactly when its time
      is new and largest; otherwise the closed bars stay as they were. */
  lemma HistoryGrows(s: seq<Event>, b: nat, e: Event)
    requires s != [] && b <= |s|
    ensures History(s + [e], b) == if e.bar.time > MaxTime(s) then History(s, b) + [Forming(s, b)] else History(s, b)
    ensures Forming(s + [e], b) == if e.bar.time >= MaxTime(s) then e.bar else Forming(s, b)
  {
    BookBasics(s, b);
    BookBasics(s + [e], b);
    BookSnoc(s, b, e);
    if e.bar.time > MaxTime(s) {
      PickCloses(Book(s, b), MaxTime(s), e.bar);
    } else {
      PickKeeps(Book(s, b), MaxTime(s), e.bar);
    }
  }

  lemma PickCloses(m: map<int, Bar>, top: int, x: Bar)
    requires top in m && top < x.time && forall t | t in m :: t <= top
    ensures Pick(m[x.time := x], SortedTimes(m[x.time := x].Keys - {x.time}))
         == Pick(m, SortedTimes(m.Keys - {top})) + [m[top]]
  {
    var m' := m[x.time := x];
    var keys := m.Keys - {top};
    assert m'.Keys - {x.time} == keys + {top};
    SortedTimesSnoc(keys, top);
    PickAgree(m, m', keys);
    PickSnoc(m', SortedTimes(keys), top);
  }

  lemma PickKeeps(m: map<int, Bar>, top: int, x: Bar)
    requires top in m && x.time <= top
    ensures x.time == top ==>
      Pick(m[x.time := x], SortedTimes(m[x.time := x].Keys - {top})) == Pick(m, SortedTimes(m.Keys - {top}))
  {
    var m' := m[x.time := x];
    if x.time == top {
      assert m'.Keys - {top} == m.Keys - {top};
      PickAgree(m, m', m.Keys - {top});
    }
  }

  lemma PickSnoc(m: map<int, Bar>, times: seq<int>, t: int)
    requires t in m && forall i | 0 <= i < |times| :: times[i] in m
    ensures Pick(m, times + [t]) == Pick(m, times) + [m[t]]
  {
  }

  lemma PickAgree(m: map<int, Bar>, m': map<int, Bar>, keys: set<int>)
    requires keys <= m.Keys && keys <= m'.Keys && forall t | t in keys :: m[t] == m'[t]
    ensures Pick(m, SortedTimes(keys)) == Pick(m', SortedTimes(keys))
  {
    var times := SortedTimes(keys);
    forall i | 0 <= i < |times| ensures m[times[i]] == m'[times[i]] {
      var t := times[i];
      assert t in keys;
    }
  }

  // ----- when backfill ends -----

  /** The deadline set by the first near-live update. */
  ghost function WaitDeadline(s: seq<Event>): Option<int> {
    if s == [] then None
    else
      var n := |s| - 1;
      if Arms(s) then Some(s[n].bar.time + WAIT_MS) else WaitDeadline(s[..n])
  }

  /** The last update of s is the first near-live one. */
  ghost predicate Arms(s: seq<Event>)
    requires s != []
    decreases s, 0
  {
    NearLive(s[|s| - 1]) && WaitDeadline(s[..|s| - 1]) == None
  }

  ghost function Times(s: seq<Event>): set<int> {
    set e | e in s :: e.bar.time
  }

  ghost predicate Enough(s: seq<Event>, target: int) {
    |Times(s)| >= target
  }

  ghost predicate Ready(s: seq<Event>, target: int)
    requires s != []
  {
    && !Arms(s)
    && (Enough(s, target)
        || (var d := WaitDeadline(s); d.Some? && s[|s| - 1].bar.time >= d.value))
  }

  /** Some update so far was ready. */
  ghost predicate SeenReady(s: seq<Event>, target: int) {
    s != [] && (Ready(s, target) || SeenReady(s[..|s| - 1], target))
  }

  /** The last update of s ends backfill: it is ready, and either the bars have no
      gap or an earlier update was ready too, which used up the single retry. */
  ghost predicate Completes(s: seq<Event>, target: int)
    requires s != []
  {
    Ready(s, target) && (!HasGap(SortedTimes(Times(s))) || SeenReady(s[..|s| - 1], target))
  }

  /** No update so far ended backfill. */
  ghost predicate InBackfill(s: seq<Event>, target: int) {
    s != [] ==> !Completes(s, target) && InBackfill(s[..|s| - 1], target)
  }

  /** What one more update does to the deadline, to readiness and to completion. */
  lemma BackfillStep(s: seq<Event>, e: Event, target: int)
    ensures var s' := s + [e];
      var arms := NearLive(e) && WaitDeadline(s) == None;
      && WaitDeadline(s') == (if arms then Some(e.bar.time + WAIT_MS) else WaitDeadline(s))
      && Ready(s', target) == (!arms && (Enough(s', target) || (WaitDeadline(s).Some? && e.bar.time >= WaitDeadline(s).value)))
      && SeenReady(s', target) == (Ready(s', target) || SeenReady(s, target))
      && Completes(s', target) == (Ready(s', target) && (!HasGap(SortedTimes(Times(s'))) || SeenReady(s, target)))
      && InBackfill(s', target) == (!Completes(s', target) && InBackfill(s, target))
  {
    assert (s + [e])[..|s|] == s;
  }

  lemma {:induction false} BookKeys(s: seq<Event>)
    ensures Book(s, |s|).Keys == Times(s)
  {
    if s != [] {
      var n := |s| - 1;
      BookKeys(s[..n]);
      BookBound(s[..n], n, |s|);
      assert s == s[..n] + [s[n]];
      assert Accepted(s, |s|, n);
    }
  }

  lemma SubsetSize(a: set<int>, b: set<int>)
    requires a <= b
    ensures |a| <= |b|
  {
    assert b == a + (b - a);
  }

  lemma EnoughIsKept(s: seq<Event>, target: int, i: nat, j: nat)
    requires i <= j <= |s| && Enough(s[..i], target)
    ensures Enough(s[..j], target)
  {
    assert s[..i] == s[..j][..i];
    forall e | e in s[..i] ensures e in s[..j] {
    }
    assert Times(s[..i]) <= Times(s[..j]);
    SubsetSize(Times(s[..i]), Times(s[..j]));
  }

  lemma {:induction false} ArmedStays(s: seq<Event>, i: nat, j: nat)
    requires 0 < i < j <= |s| && Arms(s[..i])
    ensures WaitDeadline(s[..j]).Some? && !Arms(s[..j])
    decreases j
  {
    assert s[..j][..j - 1] == s[..j - 1];
    if j - 1 > i {
      ArmedStays(s, i, j - 1);
    }
  }

  /** Once enough distinct bars are in, backfill ends within two further updates:
      at most one update is spent on noticing live data and at most one on the gap
      retry, whatever the times and the clock are. */
  lemma BackfillEndsSoon(s: seq<Event>, target: int, i: nat)
    requires 0 < i && i + 2 <= |s| && Enough(s[..i], target)
    ensures !InBackfill(s[..i + 2], target)
  {
    assert s[..i + 2][..i + 1] == s[..i + 1];
    assert s[..i + 1][..i] == s[..i];
    EnoughIsKept(s, target, i, i + 1);
    EnoughIsKept(s, target, i, i + 2);
    if Arms(s[..i]) {
      ArmedStays(s, i, i + 1);
      ArmedStays(s, i, i + 2);
    } else if Arms(s[..i + 1]) {
      ArmedStays(s, i + 1, i + 2);
    }
    if Arms(s[..i]) {
      assert Ready(s[..i + 1], target);
      assert SeenReady(s[..i + 1], target);
    } else {
      assert Ready(s[..i], target);
      assert SeenReady(s[..i], target) && SeenReady(s[..i + 1], target);
    }
    if Arms(s[..i + 2]) {
      assert Ready(s[..i + 1], target);
      assert Completes(s[..i + 1], target);
    } else {
      assert Completes(s[..i + 2], target);
    }
  }

  /** Both postponements do happen: here the second bar completes the target and
      announces live data, the third meets the gap, and backfill is still on. */
  lemma TwoPostponementsHappen(e0: Event, e1: Event, e2: Event)
    requires !NearLive(e0) && NearLive(e1)
    requires e0.bar.time + MAX_STEP_MS < e1.bar.time < e2.bar.time
    ensures Enough([e0, e1], 2) && InBackfill([e0, e1, e2], 2)
  {
    BackfillStep([], e0, 2);
    BackfillStep([e0], e1, 2);
    BackfillStep([e0, e1], e2, 2);
    assert [] + [e0] == [e0] && [e0] + [e1] == [e0, e1] && [e0, e1] + [e2] == [e0, e1, e2];
    TimesOfThree(e0, e1, e2);
    GapOfThree(e0.bar.time, e1.bar.time, e2.bar.time);
  }

  lemma TimesOfThree(e0: Event, e1: Event, e2: Event)
    ensures Times([e0]) == {e0.bar.time} && Times([e0, e1]) == {e0.bar.time, e1.bar.time}
    ensures Times([e0, e1, e2]) == {e0.bar.time, e1.bar.time, e2.bar.time}
  {
  }

  lemma GapOfThree(a: int, b: int, c: int)
    requires a + MAX_STEP_MS < b < c
    ensures HasGap(SortedTimes({a, b, c}))
  {
    assert IsSortOf([a, b, c], {a, b, c});
    SortUnique(SortedTimes({a, b, c}), [a, b, c], {a, b, c});
    assert HasGap([a, b, c]) by { assert [a, b, c][0 + 1] - [a, b, c][0] > MAX_STEP_MS; }
  }

  /** Two collected times are neighbours more than 360000 ms apart. */
  ghost predicate AreApart(times: set<int>, t: int, u: int) {
    t in times && u in times && u - t > 360000 && forall v | v in times :: !(t < v < u)
  }

  lemma GapIsApart(r: seq<int>, times: set<int>, i: nat)
    requires IsSortOf(r, times) && i < |r| - 1 && r[i + 1] - r[i] > 360000
    ensures AreApart(times, r[i], r[i + 1])
  {
    forall v | v in times ensures !(r[i] < v < r[i + 1]) {
      assert v in r;
      var j :| 0 <= j < |r| && r[j] == v;
      assert j <= i || j >= i + 1;
    }
  }

  lemma ApartIsGap(r: seq<int>, times: set<int>, t: int, u: int)
    requires IsSortOf(r, times) && AreApart(times, t, u)
    ensures HasGap(r)
  {
    assert t in r && u in r;
    var i :| 0 <= i < |r| && r[i] == t;
    var j :| 0 <= j < |r| && r[j] == u;
    var next := r[i + 1];
    assert next in times && t < next <= u;
  }

  /** A gap, told without sorting. */
  lemma GapMeaning(times: set<int>)
    ensures HasGap(SortedTimes(times)) <==> exists t, u :: AreApart(times, t, u)
  {
    var r := SortedTimes(times);
    if HasGap(r) {
      var i :| 0 <= i < |r| - 1 && r[i + 1] - r[i] > MAX_STEP_MS;
      GapIsApart(r, times, i);
    }
    if exists t, u :: AreApart(times, t, u) {
      var t, u :| AreApart(times, t, u);
      ApartIsGap(r, times, t, u);
    }
  }

  /** When an update ends backfill, in milliseconds and sets of times. The first update
      within 20 minutes of the clock announces live data; it ends nothing and sets a
      deadline 10 minutes ahead. Any other ends backfill when the target or the deadline
      is reached, unless there is a gap and the single retry is still left. */
  lemma BackfillEndsWhen(s: seq<Event>, e: Event, target: int)
    requires InBackfill(s, target)
    ensures var s' := s + [e];
      var announces := e.bar.time >= e.now - 1200000 && WaitDeadline(s) == None;
      var times := set i | 0 <= i < |s'| :: s'[i].bar.time;
      && (announces ==> WaitDeadline(s') == Some(e.bar.time + 600000))
      && (!announces ==> WaitDeadline(s') == WaitDeadline(s))
      && (!InBackfill(s', target) <==>
            && !announces && (|times| >= target || (WaitDeadline(s).Some? && e.bar.time >= WaitDeadline(s).value))
            && (SeenReady(s, target) || !exists t, u :: AreApart(times, t, u)))
  {
    var s' := s + [e];
    var times := set i | 0 <= i < |s'| :: s'[i].bar.time;
    BackfillStep(s, e, target);
    assert times == Times(s');
    GapMeaning(times);
  }

  // ----- the same told update by update -----

  /** Where assembly stands: collecting backfill, or live with closed bars, the
      forming bar, its time, and how many of the closed bars came from backfill. */
  datatype Phase =
    | Collecting(book: map<int, Bar>, wait: Option<int>, seenReady: bool)
    | Live(closed: seq<Bar>, forming: Bar, newest: int, seeded: nat)

  ghost function StartLive(book: map<int, Bar>): Phase
    requires book.Keys != {}
  {
    var top := Newest(book.Keys);
    var seeded := Pick(book, SortedTimes(book.Keys - {top}));
    Live(seeded, book[top], top, |seeded|)
  }

  ghost function Next(p: Phase, e: Event, target: int): Phase {
    match p
    case Collecting(book, wait, seenReady) =>
      var book' := book[e.bar.time := e.bar];
      var arms := NearLive(e) && wait == None;
      var ready := !arms && (|book'.Keys| >= target || (wait.Some? && e.bar.time >= wait.value));
      if ready && (!HasGap(SortedTimes(book'.Keys)) || seenReady) then assert e.bar.time in book'.Keys; StartLive(book')
      else Collecting(book', if arms then Some(e.bar.time + WAIT_MS) else wait, seenReady || ready)
    case Live(closed, forming, newest, seeded) =>
      if e.bar.time > newest then Live(closed + [forming], e.bar, e.bar.time, seeded)
      else if e.bar.time == newest then p.(forming := e.bar)
      else p
  }

  ghost function PhaseOf(s: seq<Event>, target: int): Phase {
    if s == [] then Collecting(map[], None, false)
    else Next(PhaseOf(s[..|s| - 1], target), s[|s| - 1], target)
  }

  /** The number of updates backfill takes. */
  ghost function BackfillLength(s: seq<Event>, target: int): nat {
    if s == [] || InBackfill(s[..|s| - 1], target) then |s| else BackfillLength(s[..|s| - 1], target)
  }

  lemma {:induction false} BackfillLengthMeaning(s: seq<Event>, target: int)
    requires !InBackfill(s, target)
    ensures var b := BackfillLength(s, target);
      0 < b <= |s| && Completes(s[..b], target) && InBackfill(s[..b - 1], target)
  {
    var n := |s| - 1;
    if InBackfill(s[..n], target) {
      assert s[..|s|] == s;
    } else {
      BackfillLengthMeaning(s[..n], target);
      var b := BackfillLength(s[..n], target);
      assert s[..n][..b] == s[..b] && s[..n][..b - 1] == s[..b - 1];
    }
  }

  /** What a stream that left backfill amounts to. */
  ghost function LivePhase(s: seq<Event>, b: nat): Phase
    requires s != [] && b <= |s|
  {
    Live(History(s, b), Forming(s, b), MaxTime(s), if b == 0 then 0 else |History(s[..b], b)|)
  }

  ghost function BackfillPhase(s: seq<Event>, target: int): Phase {
    Collecting(Book(s, |s|), WaitDeadline(s), SeenReady(s, target))
  }

  lemma BackfillPhaseStep(s: seq<Event>, e: Event, target: int)
    requires InBackfill(s, target)
    ensures Next(BackfillPhase(s, target), e, target) ==
      if InBackfill(s + [e], target) then BackfillPhase(s + [e], target) else LivePhase(s + [e], |s + [e]|)
  {
    BackfillStep(s, e, target);
    CollectStep(s, e);
    assert (s + [e])[..|s + [e]|] == s + [e];
  }

  lemma LivePhaseStep(s: seq<Event>, b: nat, e: Event, target: int)
    requires 0 < b <= |s|
    ensures Next(LivePhase(s, b), e, target) == LivePhase(s + [e], b)
  {
    HistoryGrows(s, b, e);
    BookSnoc(s, b, e);
    assert (s + [e])[..b] == s[..b];
  }

  lemma BackfillLengthStep(s: seq<Event>, e: Event, target: int)
    ensures var s' := s + [e];
      BackfillLength(s', target) == if InBackfill(s, target) then |s'| else BackfillLength(s, target)
  {
    assert (s + [e])[..|s|] == s;
  }

  lemma BackfillIsLeft(s: seq<Event>, e: Event, target: int)
    requires InBackfill(s + [e], target)
    ensures InBackfill(s, target)
  {
    assert (s + [e])[..|s|] == s;
  }

  /** The step form and the whole-stream form agree on every stream. */
  lemma {:induction false} PhaseMeaning(s: seq<Event>, target: int)
    ensures InBackfill(s, target) ==> PhaseOf(s, target) == BackfillPhase(s, target)
    ensures !InBackfill(s, target) ==>
      var b := BackfillLength(s, target);
      0 < b <= |s| && PhaseOf(s, target) == LivePhase(s, b)
  {
    if s != [] {
      var s', e := s[..|s| - 1], s[|s| - 1];
      assert s == s' + [e];
      PhaseMeaning(s', target);
      PhaseSnoc(s', e, target);
      BackfillLengthStep(s', e, target);
      if InBackfill(s', target) {
        BackfillPhaseStep(s', e, target);
      } else {
        if InBackfill(s' + [e], target) { BackfillIsLeft(s', e, target); }
        LivePhaseStep(s', BackfillLength(s', target), e, target);
      }
    }
  }

  lemma CollectStep(s: seq<Event>, e: Event)
    ensures var s' := s + [e];
      && Book(s', |s'|) == Book(s, |s|)[e.bar.time := e.bar]
      && Book(s', |s'|).Keys == Times(s') && Times(s') != {}
      && StartLive(Book(s', |s'|)) == Live(History(s', |s'|), Forming(s', |s'|), MaxTime(s'), |History(s', |s'|)|)
  {
    var s' := s + [e];
    BookSnoc(s, |s'|, e);
    BookBound(s, |s|, |s'|);
    BookKeys(s');
    BookBasics(s', |s'|);
  }

  /** Closed bars increase strictly and lie before the forming bar. */
  ghost predicate Orderly(closed: seq<Bar>, forming: Bar, newest: int) {
    && Increasing(closed) && forming.time == newest
    && (forall i | 0 <= i < |closed| :: closed[i].time < newest)
  }

  lemma PhaseSnoc(s: seq<Event>, e: Event, target: int)
    ensures PhaseOf(s + [e], target) == Next(PhaseOf(s, target), e, target)
  {
    assert (s + [e])[..|s|] == s;
  }

  lemma PhaseOrderly(s: seq<Event>, target: int)
    requires PhaseOf(s, target).Live?
    ensures var p := PhaseOf(s, target); Orderly(p.closed, p.forming, p.newest)
  {
    PhaseMeaning(s, target);
    var b := BackfillLength(s, target);
    BookBasics(s, b);
    var h := History(s, b);
    forall i | 0 <= i < |h| ensures h[i].time < MaxTime(s) {
      HistoryMeaning(s, b, h[i]);
    }
    HistoryMeaning(s, b, Forming(s, b));
  }
}
