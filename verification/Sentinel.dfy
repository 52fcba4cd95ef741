/** The market sentinel: Schmitt-trigger arming per threshold, cooldown per event
    key, and one heartbeat per time window. NaN is None. */
module Sentinel {
  import opened Basics

  datatype Params = Params(
    scoreThresholds: seq<int>, hysteresis: int,
    vrpMin: real, mrMax: real, vovCaution: real, vovHostile: real, vovHysteresis: real,
    cooldownRegimeChange: int, cooldownScoreCross: int, cooldownVrp: int, cooldownVov: int, cooldownMr: int)

  datatype Regime = Friendly | Caution | Hostile

  datatype MarketState = MarketState(regime: Regime, score: int)

  datatype Snapshot = Snapshot(vrp: Option<real>, vov: Option<real>, mr: Option<real>)

  datatype Event = RegimeChange | ScoreCross(threshold: int) | VrpBreak | VovSpike(hostile: bool) | MrBreak | Heartbeat

  /** The clock as the sentinel reads it: seconds, the local date and minute of the
      day, and whether the exchange is open. */
  datatype Clock = Clock(ts: real, date: int, minute: nat, inRth: bool)

  // ----- Schmitt triggers over whole runs -----

  function ArmStep(armed: bool, score: int, t: int, h: int): bool {
    if armed && score < t then false
    else if !armed && score >= t + h then true
    else armed
  }

  function ArmedAfter(scores: seq<int>, t: int, h: int): bool {
    scores == [] || ArmStep(ArmedAfter(scores[..|scores| - 1], t, h), scores[|scores| - 1], t, h)
  }

  predicate Decisive(score: int, t: int, h: int) {
    score < t || score >= t + h
  }

  /** Score i is the last one outside the band [t, t + h). */
  ghost predicate LastDecisive(scores: seq<int>, t: int, h: int, i: nat) {
    && i < |scores| && Decisive(scores[i], t, h)
    && forall j | i < j < |scores| :: !Decisive(scores[j], t, h)
  }

  /** The last score outside the band was at or above it, or there is none. */
  ghost predicate LastDecisiveIsHigh(scores: seq<int>, t: int, h: int) {
    forall i: nat | LastDecisive(scores, t, h, i) :: scores[i] >= t + h
  }

  lemma LastDecisiveSnoc(scores: seq<int>, t: int, h: int)
    requires scores != []
    ensures var n := |scores| - 1;
      LastDecisiveIsHigh(scores, t, h) == if Decisive(scores[n], t, h) then scores[n] >= t + h
                                          else LastDecisiveIsHigh(scores[..n], t, h)
  {
    var n := |scores| - 1;
    assert forall j | 0 <= j < n :: scores[..n][j] == scores[j];
    if Decisive(scores[n], t, h) {
      assert LastDecisive(scores, t, h, n);
    } else {
      forall i: nat | i < n ensures LastDecisive(scores, t, h, i) == LastDecisive(scores[..n], t, h, i) {
      }
    }
  }

  /** With a non-negative hysteresis a threshold is armed exactly when the last score
      outside its band was above the band. */
  lemma {:induction false} ArmedMeaning(scores: seq<int>, t: int, h: int)
    requires h >= 0
    ensures ArmedAfter(scores, t, h) == LastDecisiveIsHigh(scores, t, h)
  {
    if scores != [] {
      ArmedMeaning(scores[..|scores| - 1], t, h);
      LastDecisiveSnoc(scores, t, h);
    }
  }

  /** The closed form holds on all runs iff the hysteresis is not negative: with a
      negative one the same low score disarms and then rearms the threshold. */
  lemma ArmedMeaningIff(t: int, h: int)
    ensures (forall scores :: ArmedAfter(scores, t, h) == LastDecisiveIsHigh(scores, t, h)) <==> h >= 0
  {
    if h >= 0 {
      forall scores ensures ArmedAfter(scores, t, h) == LastDecisiveIsHigh(scores, t, h) {
        ArmedMeaning(scores, t, h);
      }
    } else {
      var scores := [t - 1];
      LastDecisiveSnoc(scores, t, h);
      assert scores[..0] == [];
      assert ArmedAfter(scores, t, h) != LastDecisiveIsHigh(scores, t, h);
    }
  }

  /** The armed thresholds are downward closed after every run. */
  lemma {:induction false} ArmedDownwardClosed(scores: seq<int>, low: int, high: int, h: int)
    requires h >= 0 && low <= high && ArmedAfter(scores, high, h)
    ensures ArmedAfter(scores, low, h)
  {
    if scores != [] {
      var before := scores[..|scores| - 1];
      if ArmedAfter(before, high, h) {
        ArmedDownwardClosed(before, low, high, h);
      }
    }
  }

  function VovStep(armed: bool, vov: Option<real>, level: real, hyst: real): bool {
    if armed && vov.Some? && vov.value > level then false
    else if !armed && vov.Some? && vov.value <= level - hyst then true
    else armed
  }

  function VovArmedAfter(vovs: seq<Option<real>>, level: real, hyst: real): bool {
    vovs == [] || VovStep(VovArmedAfter(vovs[..|vovs| - 1], level, hyst), vovs[|vovs| - 1], level, hyst)
  }

  /** A reading above the level, or at or below the level less the hysteresis. */
  predicate DecisiveVov(v: Option<real>, level: real, hyst: real) {
    v.Some? && (v.value > level || v.value <= level - hyst)
  }

  /** Reading i is the last decisive one. */
  ghost predicate LastDecisiveVov(vovs: seq<Option<real>>, level: real, hyst: real, i: nat) {
    && i < |vovs| && DecisiveVov(vovs[i], level, hyst)
    && forall j | i < j < |vovs| :: !DecisiveVov(vovs[j], level, hyst)
  }

  /** The last decisive reading was not above the level, or there was none. */
  ghost predicate LastVovIsLow(vovs: seq<Option<real>>, level: real, hyst: real) {
    forall i: nat | LastDecisiveVov(vovs, level, hyst, i) :: vovs[i].value <= level
  }

  lemma LastVovSnoc(vovs: seq<Option<real>>, level: real, hyst: real)
    requires vovs != []
    ensures var n := |vovs| - 1;
      LastVovIsLow(vovs, level, hyst) == if DecisiveVov(vovs[n], level, hyst) then vovs[n].value <= level
                                         else LastVovIsLow(vovs[..n], level, hyst)
  {
    var n := |vovs| - 1;
    assert forall j | 0 <= j < n :: vovs[..n][j] == vovs[j];
    if DecisiveVov(vovs[n], level, hyst) {
      assert LastDecisiveVov(vovs, level, hyst, n);
    } else {
      forall i: nat | i < n ensures LastDecisiveVov(vovs, level, hyst, i) == LastDecisiveVov(vovs[..n], level, hyst, i) {
      }
    }
  }

  /** With a hysteresis that is not negative a level is armed exactly when the last
      decisive reading was not above it; unknown readings decide nothing. */
  lemma {:induction false} VovArmedMeaning(vovs: seq<Option<real>>, level: real, hyst: real)
    requires hyst >= 0.0
    ensures VovArmedAfter(vovs, level, hyst) == LastVovIsLow(vovs, level, hyst)
  {
    if vovs != [] {
      VovArmedMeaning(vovs[..|vovs| - 1], level, hyst);
      LastVovSnoc(vovs, level, hyst);
    }
  }

  lemma {:induction false} HostileImpliesCautionRun(vovs: seq<Option<real>>, caution: real, hostile: real, hyst: real)
    requires caution < hostile && caution - hyst <= hostile && !VovArmedAfter(vovs, hostile, hyst)
    ensures !VovArmedAfter(vovs, caution, hyst)
  {
    if vovs != [] {
      var before := vovs[..|vovs| - 1];
      if !VovArmedAfter(before, hostile, hyst) {
        HostileImpliesCautionRun(before, caution, hostile, hyst);
      }
    }
  }

  ghost predicate Nested(vovs: seq<Option<real>>, caution: real, hostile: real, hyst: real) {
    !VovArmedAfter(vovs, hostile, hyst) ==> !VovArmedAfter(vovs, caution, hyst)
  }

  /** A disarmed hostile level implies a disarmed caution level on all runs, iff the
      caution level cannot rearm above the hostile one. */
  lemma HostileImpliesCaution(caution: real, hostile: real, hyst: real)
    requires caution < hostile
    ensures (forall vovs :: Nested(vovs, caution, hostile, hyst)) <==> caution - hyst <= hostile
  {
    if caution - hyst <= hostile {
      forall vovs ensures Nested(vovs, caution, hostile, hyst) {
        if !VovArmedAfter(vovs, hostile, hyst) {
          HostileImpliesCautionRun(vovs, caution, hostile, hyst);
        }
      }
    } else {
      var first, second := [Some(hostile)], [Some(hostile), Some(caution - hyst)];
      assert first[..0] == [] && second[..1] == first;
      assert VovArmedAfter([], hostile, hyst) && VovArmedAfter([], caution, hyst);
      assert VovArmedAfter(first, hostile, hyst) && !VovArmedAfter(first, caution, hyst);
      assert !VovArmedAfter(second, hostile, hyst) && VovArmedAfter(second, caution, hyst);
      assert !Nested(second, caution, hostile, hyst);
    }
  }

  // ----- one bar for all thresholds -----

  function Get(armed: map<int, bool>, t: int): bool {
    if t in armed then armed[t] else true
  }

  /** The thresholds are visited in the given order, duplicates included. */
  function ArmAll(armed: map<int, bool>, ts: seq<int>, score: int, h: int): map<int, bool> {
    if ts == [] then armed
    else
      var n := |ts| - 1;
      var m := ArmAll(armed, ts[..n], score, h);
      var next := ArmStep(Get(m, ts[n]), score, ts[n], h);
      if next == Get(m, ts[n]) then m else m[ts[n] := next]
  }

  function Crosses(armed: map<int, bool>, ts: seq<int>, score: int, h: int): seq<Event> {
    if ts == [] then []
    else
      var n := |ts| - 1;
      var m := ArmAll(armed, ts[..n], score, h);
      Crosses(armed, ts[..n], score, h) + if Get(m, ts[n]) && score < ts[n] then [ScoreCross(ts[n])] else []
  }

  /** With a non-negative hysteresis one bar moves every threshold by exactly one
      trigger step, and a cross fires exactly for those going from armed to disarmed. */
  lemma {:induction false} OneBar(armed: map<int, bool>, ts: seq<int>, score: int, h: int, t: int)
    requires h >= 0
    ensures Get(ArmAll(armed, ts, score, h), t) == if t in ts then ArmStep(Get(armed, t), score, t, h) else Get(armed, t)
    ensures ScoreCross(t) in Crosses(armed, ts, score, h) <==>
      t in ts && Get(armed, t) && !Get(ArmAll(armed, ts, score, h), t)
  {
    if ts != [] {
      var n := |ts| - 1;
      OneBar(armed, ts[..n], score, h, t);
      assert t in ts <==> t in ts[..n] || t == ts[n];
    }
  }

  /** No bar reports a threshold twice. */
  lemma {:induction false} CrossesDistinct(armed: map<int, bool>, ts: seq<int>, score: int, h: int)
    requires h >= 0
    ensures var es := Crosses(armed, ts, score, h); forall i, j | 0 <= i < j < |es| :: es[i] != es[j]
  {
    if ts != [] {
      var n := |ts| - 1;
      CrossesDistinct(armed, ts[..n], score, h);
      OneBar(armed, ts[..n], score, h, ts[n]);
      var before := Crosses(armed, ts[..n], score, h);
      if Get(ArmAll(armed, ts[..n], score, h), ts[n]) && score < ts[n] {
        assert ScoreCross(ts[n]) !in before;
      }
    }
  }

  /** The arming of all thresholds after a run of scores. */
  function ArmedMap(p: Params, scores: seq<int>): map<int, bool> {
    if scores == [] then map t | t in p.scoreThresholds :: true
    else ArmAll(ArmedMap(p, scores[..|scores| - 1]), SortDescending(p.scoreThresholds), scores[|scores| - 1], p.hysteresis)
  }

  lemma ArmedMapSnoc(p: Params, scores: seq<int>, score: int)
    ensures ArmedMap(p, scores + [score]) == ArmAll(ArmedMap(p, scores), SortDescending(p.scoreThresholds), score, p.hysteresis)
  {
    assert (scores + [score])[..|scores|] == scores;
  }

  /** After every run each configured threshold is armed exactly as its own trigger
      says, so by the closed form above. */
  lemma {:induction false} ArmedMapMeaning(p: Params, scores: seq<int>, t: int)
    requires p.hysteresis >= 0 && t in p.scoreThresholds
    ensures Get(ArmedMap(p, scores), t) == LastDecisiveIsHigh(scores, t, p.hysteresis)
    ensures Get(ArmedMap(p, scores), t) == ArmedAfter(scores, t, p.hysteresis)
  {
    ArmedMeaning(scores, t, p.hysteresis);
    if scores != [] {
      var before := scores[..|scores| - 1];
      ArmedMapMeaning(p, before, t);
      SortKeeps(p.scoreThresholds, t);
      OneBar(ArmedMap(p, before), SortDescending(p.scoreThresholds), scores[|scores| - 1], p.hysteresis, t);
    }
  }

  function InsertDescending(s: seq<int>, t: int): seq<int> {
    if s == [] || t >= s[0] then [t] + s else [s[0]] + InsertDescending(s[1..], t)
  }

  /** sorted(ts, reverse=True) */
  function SortDescending(ts: seq<int>): seq<int> {
    if ts == [] then [] else InsertDescending(SortDescending(ts[1..]), ts[0])
  }

  lemma {:induction false} InsertKeeps(s: seq<int>, t: int, x: int)
    ensures x in InsertDescending(s, t) <==> x == t || x in s
  {
    if s != [] && t < s[0] {
      InsertKeeps(s[1..], t, x);
      assert s == [s[0]] + s[1..];
    }
  }

  lemma {:induction false} SortKeeps(ts: seq<int>, x: int)
    ensures x in SortDescending(ts) <==> x in ts
  {
    if ts != [] {
      SortKeeps(ts[1..], x);
      InsertKeeps(SortDescending(ts[1..]), ts[0], x);
      assert ts == [ts[0]] + ts[1..];
    }
  }

  ghost predicate Descending(s: seq<int>) {
    forall i, j | 0 <= i <= j < |s| :: s[i] >= s[j]
  }

  lemma {:induction false} InsertSorts(s: seq<int>, t: int)
    requires Descending(s)
    ensures Descending(InsertDescending(s, t)) && multiset(InsertDescending(s, t)) == multiset(s) + multiset{t}
  {
    if s != [] && t < s[0] {
      InsertSorts(s[1..], t);
      var r := InsertDescending(s[1..], t);
      assert s == [s[0]] + s[1..];
      forall i | 0 <= i < |r| ensures s[0] >= r[i] {
        InsertKeeps(s[1..], t, r[i]);
        var x := r[i];
        assert x in r;
      }
    }
  }

  /** sorted() is a descending permutation. */
  lemma {:induction false} SortSorts(ts: seq<int>)
    ensures Descending(SortDescending(ts)) && multiset(SortDescending(ts)) == multiset(ts)
  {
    if ts != [] {
      SortSorts(ts[1..]);
      InsertSorts(SortDescending(ts[1..]), ts[0]);
      assert ts == [ts[0]] + ts[1..];
    }
  }

  // ----- cooldown over whole runs -----

  /** The key an event is limited by. The digits of the message name the threshold,
      so its sign does not show. */
  datatype Key = KRegime | KScore(digits: nat) | KVrp | KMr | KVov(hostile: bool) | KHeartbeat

  function KeyOf(e: Event): Key {
    match e
    case RegimeChange => KRegime
    case ScoreCross(t) => KScore(if t < 0 then -t else t)
    case VrpBreak => KVrp
    case VovSpike(hostile) => KVov(hostile)
    case MrBreak => KMr
    case Heartbeat => KHeartbeat
  }

  function CooldownOf(p: Params, k: Key): int {
    match k
    case KRegime => p.cooldownRegimeChange
    case KScore(_) => p.cooldownScoreCross
    case KVrp => p.cooldownVrp
    case KVov(_) => p.cooldownVov
    case KMr => p.cooldownMr
    case KHeartbeat => 0
  }

  predicate Cold(p: Params, last: map<Key, real>, k: Key, now: real) {
    k in last && CooldownOf(p, k) > 0 && now - last[k] < CooldownOf(p, k) as real
  }

  /** What a batch of events lets through, and the send times after it. */
  function Emitted(p: Params, last: map<Key, real>, events: seq<Event>, now: real): seq<Event> {
    if events == [] then []
    else
      var n := |events| - 1;
      Emitted(p, last, events[..n], now)
      + if Cold(p, SentTimes(p, last, events[..n], now), KeyOf(events[n]), now) then [] else [events[n]]
  }

  function SentTimes(p: Params, last: map<Key, real>, events: seq<Event>, now: real): map<Key, real> {
    if events == [] then last
    else
      var n := |events| - 1;
      var m := SentTimes(p, last, events[..n], now);
      if Cold(p, m, KeyOf(events[n]), now) then m else m[KeyOf(events[n]) := now]
  }

  /** A call of the cooldown filter; closed means the sentinel is off or out of hours. */
  datatype Batch = Batch(events: seq<Event>, now: real, open: bool)

  function LastSent(p: Params, run: seq<Batch>): map<Key, real> {
    if run == [] then map[]
    else
      var b := run[|run| - 1];
      var last := LastSent(p, run[..|run| - 1]);
      if b.open then SentTimes(p, last, b.events, b.now) else last
  }

  /** The times at which events of one key were let through by a batch. */
  function TimesIn(p: Params, last: map<Key, real>, events: seq<Event>, now: real, k: Key): seq<real> {
    if events == [] then []
    else
      var n := |events| - 1;
      TimesIn(p, last, events[..n], now, k)
      + if KeyOf(events[n]) == k && !Cold(p, SentTimes(p, last, events[..n], now), k, now) then [now] else []
  }

  /** All emission times of one key over a run. */
  function Emissions(p: Params, run: seq<Batch>, k: Key): seq<real> {
    if run == [] then []
    else
      var b := run[|run| - 1];
      Emissions(p, run[..|run| - 1], k)
      + if b.open then TimesIn(p, LastSent(p, run[..|run| - 1]), b.events, b.now, k) else []
  }

  ghost predicate Spaced(times: seq<real>, c: real) {
    forall i | 0 <= i < |times| - 1 :: times[i + 1] - times[i] >= c
  }

  /** The recorded send time of a key is its last emission. */
  ghost predicate Recorded(times: seq<real>, last: map<Key, real>, k: Key) {
    if times == [] then k !in last else k in last && last[k] == times[|times| - 1]
  }

  /** One event that is sent. */
  lemma SendOne(p: Params, times: seq<real>, last: map<Key, real>, sent: Key, now: real, k: Key)
    requires CooldownOf(p, k) > 0 && Spaced(times, CooldownOf(p, k) as real) && Recorded(times, last, k)
    requires !Cold(p, last, sent, now)
    ensures sent == k ==> Spaced(times + [now], CooldownOf(p, k) as real) && Recorded(times + [now], last[sent := now], k)
    ensures sent != k ==> Recorded(times, last[sent := now], k)
  {
  }

  lemma {:induction false} BatchSpaced(p: Params, last: map<Key, real>, events: seq<Event>, now: real, k: Key, before: seq<real>)
    requires CooldownOf(p, k) > 0 && Spaced(before, CooldownOf(p, k) as real) && Recorded(before, last, k)
    ensures var times := before + TimesIn(p, last, events, now, k);
      Spaced(times, CooldownOf(p, k) as real) && Recorded(times, SentTimes(p, last, events, now), k)
  {
    if events == [] {
      assert before + [] == before;
    } else {
      var n := |events| - 1;
      BatchSpaced(p, last, events[..n], now, k, before);
      var inBatch, m, sent := TimesIn(p, last, events[..n], now, k), SentTimes(p, last, events[..n], now), KeyOf(events[n]);
      assert before + (inBatch + []) == before + inBatch;
      assert before + (inBatch + [now]) == before + inBatch + [now];
      if !Cold(p, m, sent, now) {
        SendOne(p, before + inBatch, m, sent, now, k);
      }
    }
  }

  lemma {:induction false} RunSpaced(p: Params, run: seq<Batch>, k: Key)
    requires CooldownOf(p, k) > 0
    ensures Spaced(Emissions(p, run, k), CooldownOf(p, k) as real)
    ensures Recorded(Emissions(p, run, k), LastSent(p, run), k)
  {
    if run != [] {
      var before := run[..|run| - 1];
      var b := run[|run| - 1];
      RunSpaced(p, before, k);
      if b.open {
        BatchSpaced(p, LastSent(p, before), b.events, b.now, k, Emissions(p, before, k));
      } else {
        assert Emissions(p, run, k) == Emissions(p, before, k);
      }
    }
  }

  // ----- the events returned -----

  /** An event the filter let through, with the time it was stamped with. */
  datatype Sent = Sent(event: Event, at: real)

  function Stamped(events: seq<Event>, now: real): (r: seq<Sent>)
    ensures |r| == |events|
  {
    seq(|events|, i requires 0 <= i < |events| => Sent(events[i], now))
  }

  /** Everything a run of calls returns. */
  function AllSent(p: Params, run: seq<Batch>): seq<Sent> {
    if run == [] then []
    else
      var before, b := run[..|run| - 1], run[|run| - 1];
      AllSent(p, before) + if b.open then Stamped(Emitted(p, LastSent(p, before), b.events, b.now), b.now) else []
  }

  /** When events of one key were returned. */
  function TimesOf(sent: seq<Sent>, k: Key): seq<real> {
    if sent == [] then []
    else
      var n := |sent| - 1;
      TimesOf(sent[..n], k) + if KeyOf(sent[n].event) == k then [sent[n].at] else []
  }

  lemma {:induction false} TimesOfParts(a: seq<Sent>, b: seq<Sent>, k: Key)
    ensures TimesOf(a + b, k) == TimesOf(a, k) + TimesOf(b, k)
  {
    if b == [] {
      assert a + b == a;
    } else {
      var n := |b| - 1;
      TimesOfParts(a, b[..n], k);
      assert (a + b)[..|a + b| - 1] == a + b[..n];
    }
  }

  lemma {:induction false} EmittedTimes(p: Params, last: map<Key, real>, events: seq<Event>, now: real, k: Key)
    ensures TimesOf(Stamped(Emitted(p, last, events, now), now), k) == TimesIn(p, last, events, now, k)
  {
    if events != [] {
      var n := |events| - 1;
      var e, sent := events[n], Emitted(p, last, events[..n], now);
      EmittedTimes(p, last, events[..n], now, k);
      if !Cold(p, SentTimes(p, last, events[..n], now), KeyOf(e), now) {
        assert Stamped(sent + [e], now) == Stamped(sent, now) + [Sent(e, now)];
        TimesOfParts(Stamped(sent, now), [Sent(e, now)], k);
        assert TimesOf([Sent(e, now)], k) == if KeyOf(e) == k then [now] else [];
      } else {
        assert sent + [] == sent;
      }
    }
  }

  /** The emissions are the times of the events returned. */
  lemma {:induction false} SentIsEmissions(p: Params, run: seq<Batch>, k: Key)
    ensures TimesOf(AllSent(p, run), k) == Emissions(p, run, k)
  {
    if run != [] {
      var before, b := run[..|run| - 1], run[|run| - 1];
      SentIsEmissions(p, before, k);
      if b.open {
        EmittedTimes(p, LastSent(p, before), b.events, b.now, k);
        TimesOfParts(AllSent(p, before), Stamped(Emitted(p, LastSent(p, before), b.events, b.now), b.now), k);
      } else {
        assert AllSent(p, run) == AllSent(p, before);
      }
    }
  }

  lemma AllSentSnoc(p: Params, run: seq<Batch>, b: Batch)
    ensures AllSent(p, run + [b]) ==
      if b.open then AllSent(p, run) + Stamped(Emitted(p, LastSent(p, run), b.events, b.now), b.now) else AllSent(p, run)
  {
    assert (run + [b])[..|run|] == run;
    assert AllSent(p, run) + [] == AllSent(p, run);
  }

  function Span(n: nat, c: real): real {
    n as real * c
  }

  ghost predicate Apart(times: seq<real>, c: real, i: nat, j: nat) {
    i <= j < |times| ==> times[j] - times[i] >= Span(j - i, c)
  }

  lemma {:induction false} SpacedApart(times: seq<real>, c: real, i: nat, j: nat)
    requires Spaced(times, c)
    ensures Apart(times, c, i, j)
    decreases j
  {
    if i < j < |times| {
      SpacedApart(times, c, i, j - 1);
      assert times[(j - 1) + 1] - times[j - 1] >= c;
      assert Span(j - i, c) == Span(j - 1 - i, c) + c;
    }
  }

  /** However the clock jumps, the i-th and the j-th event returned of a key with a
      cooldown of c seconds are at least (j - i) * c apart. */
  lemma CooldownRateBound(p: Params, run: seq<Batch>, k: Key, i: nat, j: nat)
    requires CooldownOf(p, k) > 0
    ensures Apart(TimesOf(AllSent(p, run), k), CooldownOf(p, k) as real, i, j)
  {
    RunSpaced(p, run, k);
    SentIsEmissions(p, run, k);
    SpacedApart(Emissions(p, run, k), CooldownOf(p, k) as real, i, j);
  }

  /** So a window of w seconds holds at most w / c + 1 of them. */
  lemma RateBound(times: seq<real>, c: real, i: nat, j: nat, w: real)
    requires c > 0.0 && Spaced(times, c) && i <= j < |times|
    ensures times[j] - times[i] <= w ==> (j - i + 1) as real <= w / c + 1.0
  {
    SpacedApart(times, c, i, j);
    if times[j] - times[i] <= w {
      AtMost((j - i) as real, c, w);
    }
  }

  lemma AtMost(d: real, c: real, w: real)
    requires c > 0.0 && d * c <= w
    ensures d <= w / c
  {
    assert w / c * c == w;
    assert (w / c - d) * c >= 0.0;
  }

  /** Two events share a cooldown when they are the same, or crosses of thresholds with the
      same digits. */
  predicate SharesCooldown(a: Event, b: Event) {
    a == b || (a.ScoreCross? && b.ScoreCross? && (a.threshold == b.threshold || a.threshold == -b.threshold))
  }

  /** The configured cooldown of an event; a heartbeat has none. */
  predicate IsCooldown(p: Params, e: Event, seconds: int) {
    match e
    case RegimeChange => seconds == p.cooldownRegimeChange
    case ScoreCross(_) => seconds == p.cooldownScoreCross
    case VrpBreak => seconds == p.cooldownVrp
    case VovSpike(_) => seconds == p.cooldownVov
    case MrBreak => seconds == p.cooldownMr
    case Heartbeat => seconds == 0
  }

  lemma KeysMeaning(p: Params, a: Event, b: Event, seconds: int)
    ensures KeyOf(a) == KeyOf(b) <==> SharesCooldown(a, b)
    ensures CooldownOf(p, KeyOf(a)) == seconds <==> IsCooldown(p, a, seconds)
  {
  }

  lemma TimesAt(sent: seq<Sent>, k: Key, i: nat) returns (a: nat)
    requires i < |sent| && KeyOf(sent[i].event) == k
    ensures a == |TimesOf(sent[..i], k)| && a < |TimesOf(sent, k)| && TimesOf(sent, k)[a] == sent[i].at
    ensures |TimesOf(sent[..i + 1], k)| == a + 1
  {
    a := |TimesOf(sent[..i], k)|;
    assert sent[..i + 1][..i] == sent[..i];
    assert sent == sent[..i + 1] + sent[i + 1..];
    TimesOfParts(sent[..i + 1], sent[i + 1..], k);
  }

  /** Of the events a run returns, two that share a cooldown are at least that cooldown
      apart. */
  lemma ReturnedEventsAreApart(p: Params, run: seq<Batch>, i: nat, j: nat, seconds: int)
    requires i < j < |AllSent(p, run)| && SharesCooldown(AllSent(p, run)[i].event, AllSent(p, run)[j].event)
    requires IsCooldown(p, AllSent(p, run)[i].event, seconds) && seconds > 0
    ensures AllSent(p, run)[j].at - AllSent(p, run)[i].at >= seconds as real
  {
    var sent := AllSent(p, run);
    var k := KeyOf(sent[i].event);
    KeysMeaning(p, sent[i].event, sent[j].event, seconds);
    var a := TimesAt(sent, k, i);
    var b := TimesAt(sent, k, j);
    assert sent[..j] == sent[..i + 1] + sent[i + 1..j];
    TimesOfParts(sent[..i + 1], sent[i + 1..j], k);
    CooldownRateBound(p, run, k, a, b);
    SpanGrows(b - a, seconds as real);
  }

  lemma SpanGrows(n: nat, c: real)
    requires n >= 1 && c >= 0.0
    ensures Span(n, c) >= c
  {
    ProductNonNegative((n - 1) as real, c);
    assert Span(n, c) == (n - 1) as real * c + c;
  }

  /** What was returned before event n of a batch that follows a run. */
  function SentBefore(p: Params, run: seq<Batch>, b: Batch, n: nat): seq<Sent>
    requires n <= |b.events|
  {
    AllSent(p, run) + Stamped(Emitted(p, LastSent(p, run), b.events[..n], b.now), b.now)
  }

  /** The last event returned before that shares the cooldown of e is q. */
  ghost predicate LastSharing(sent: seq<Sent>, e: Event, q: nat) {
    && q < |sent| && SharesCooldown(sent[q].event, e)
    && forall j | q < j < |sent| :: !SharesCooldown(sent[j].event, e)
  }

  /** An event of the same cooldown was returned less than that cooldown ago. */
  ghost predicate IsHeldBack(p: Params, sent: seq<Sent>, e: Event, now: real) {
    exists q: nat :: LastSharing(sent, e, q) && HoldsBack(p, sent[q].at, e, now)
  }

  ghost predicate HoldsBack(p: Params, at: real, e: Event, now: real) {
    exists seconds: int :: IsCooldown(p, e, seconds) && now - at < seconds as real && seconds > 0
  }

  lemma {:induction false} LastTimeMeaning(sent: seq<Sent>, e: Event) returns (q: nat)
    ensures TimesOf(sent, KeyOf(e)) != [] ==>
      LastSharing(sent, e, q) && sent[q].at == TimesOf(sent, KeyOf(e))[|TimesOf(sent, KeyOf(e))| - 1]
    ensures TimesOf(sent, KeyOf(e)) == [] ==> forall j | 0 <= j < |sent| :: !SharesCooldown(sent[j].event, e)
  {
    q := 0;
    if sent != [] {
      var n := |sent| - 1;
      var before := sent[..n];
      q := LastTimeMeaning(before, e);
      assert forall j | 0 <= j < n :: before[j] == sent[j];
      assert KeyOf(sent[n].event) == KeyOf(e) <==> SharesCooldown(sent[n].event, e);
      if KeyOf(sent[n].event) == KeyOf(e) {
        q := n;
      }
    }
  }

  lemma HeldBackIff(p: Params, sent: seq<Sent>, last: map<Key, real>, e: Event, now: real)
    requires CooldownOf(p, KeyOf(e)) > 0 ==> Recorded(TimesOf(sent, KeyOf(e)), last, KeyOf(e))
    ensures Cold(p, last, KeyOf(e), now) <==> IsHeldBack(p, sent, e, now)
  {
    var c := CooldownOf(p, KeyOf(e));
    var q := LastTimeMeaning(sent, e);
    assert IsCooldown(p, e, c);
    forall seconds: int ensures IsCooldown(p, e, seconds) <==> seconds == c {
      KeysMeaning(p, e, e, seconds);
    }
    if Cold(p, last, KeyOf(e), now) {
      assert HoldsBack(p, sent[q].at, e, now);
    }
    if IsHeldBack(p, sent, e, now) {
      var r: nat :| LastSharing(sent, e, r) && HoldsBack(p, sent[r].at, e, now);
      assert r == q;
    }
  }

  /** Event n of a batch is returned exactly when it is not held back by what was returned
      before. */
  lemma ReturnedIff(p: Params, run: seq<Batch>, b: Batch, n: nat)
    requires n < |b.events|
    ensures SentBefore(p, run, b, n + 1) ==
      SentBefore(p, run, b, n) + if IsHeldBack(p, SentBefore(p, run, b, n), b.events[n], b.now) then [] else [Sent(b.events[n], b.now)]
  {
    var e, k, last := b.events[n], KeyOf(b.events[n]), LastSent(p, run);
    var events := b.events[..n];
    assert b.events[..n + 1][..n] == events;
    SentIsEmissions(p, run, k);
    EmittedTimes(p, last, events, b.now, k);
    TimesOfParts(AllSent(p, run), Stamped(Emitted(p, last, events, b.now), b.now), k);
    if CooldownOf(p, k) > 0 {
      RunSpaced(p, run, k);
      BatchSpaced(p, last, events, b.now, k, Emissions(p, run, k));
    }
    HeldBackIff(p, SentBefore(p, run, b, n), SentTimes(p, last, events, b.now), e, b.now);
    var before := Emitted(p, last, events, b.now);
    assert Stamped(before + [e], b.now) == Stamped(before, b.now) + [Sent(e, b.now)];
    assert before + [] == before;
  }

  // ----- heartbeats over whole runs -----

  type Window = (int, int)

  function WindowOf(c: Clock, minutes: nat): Window
    requires minutes >= 1
  {
    (c.date, (c.minute / minutes) as int)
  }

  predicate Eligible(c: Clock, enabled: bool, rthOnly: bool) {
    enabled && (!rthOnly || c.inRth)
  }

  /** The window of the last eligible reading. */
  function LastWindow(run: seq<Clock>, enabled: bool, rthOnly: bool, minutes: nat): Option<Window>
    requires minutes >= 1
  {
    if run == [] then None
    else
      var c := run[|run| - 1];
      if Eligible(c, enabled, rthOnly) then Some(WindowOf(c, minutes))
      else LastWindow(run[..|run| - 1], enabled, rthOnly, minutes)
  }

  /** Reading i of the run gives a heartbeat. */
  ghost predicate Beats(run: seq<Clock>, i: nat, enabled: bool, rthOnly: bool, minutes: nat)
    requires minutes >= 1 && i < |run|
  {
    Eligible(run[i], enabled, rthOnly) && LastWindow(run[..i], enabled, rthOnly, minutes) != Some(WindowOf(run[i], minutes))
  }

  predicate NotBefore(a: Clock, b: Clock) {
    a.date < b.date || (a.date == b.date && a.minute <= b.minute)
  }

  ghost predicate LocalTimeMonotone(run: seq<Clock>) {
    forall i, j | 0 <= i <= j < |run| :: NotBefore(run[i], run[j])
  }

  lemma {:induction false} LastWindowIsEligible(run: seq<Clock>, enabled: bool, rthOnly: bool, minutes: nat, i: nat) returns (k: nat)
    requires minutes >= 1 && i < |run| && Eligible(run[i], enabled, rthOnly)
    ensures i <= k < |run| && Eligible(run[k], enabled, rthOnly)
    ensures LastWindow(run, enabled, rthOnly, minutes) == Some(WindowOf(run[k], minutes))
  {
    var n := |run| - 1;
    if Eligible(run[n], enabled, rthOnly) {
      k := n;
    } else {
      k := LastWindowIsEligible(run[..n], enabled, rthOnly, minutes, i);
    }
  }

  function Times(k: int, minutes: nat): int { k * minutes }

  lemma TimesOrdered(j: int, k: int, minutes: nat)
    requires minutes >= 1
    ensures j >= k ==> Times(j, minutes) >= Times(k, minutes)
  {
    assert Times(j, minutes) - Times(k, minutes) == (j - k) * minutes;
    assert j >= k ==> (j - k) * minutes >= 0;
  }

  lemma WindowBounds(a: nat, minutes: nat)
    requires minutes >= 1
    ensures Times(a / minutes, minutes) <= a < Times(a / minutes + 1, minutes)
  {
    var q := a / minutes;
    assert a == q * minutes + a % minutes;
  }

  lemma WindowMonotone(a: nat, b: nat, minutes: nat)
    requires minutes >= 1 && a <= b
    ensures a / minutes <= b / minutes
  {
    WindowBounds(a, minutes);
    WindowBounds(b, minutes);
    TimesOrdered(a / minutes, b / minutes + 1, minutes);
  }

  /** Two eligible readings of one window enclose an eligible reading of another. */
  ghost predicate Encloses(run: seq<Clock>, enabled: bool, rthOnly: bool, minutes: nat, i: nat, k: nat, j: nat)
    requires minutes >= 1
  {
    && i < k < j < |run| && Eligible(run[i], enabled, rthOnly) && Eligible(run[k], enabled, rthOnly)
    && Eligible(run[j], enabled, rthOnly) && WindowOf(run[i], minutes) == WindowOf(run[j], minutes)
    && WindowOf(run[k], minutes) != WindowOf(run[i], minutes)
  }

  /** Readings i < j both give a heartbeat in the same window. */
  ghost predicate BeatsTwice(run: seq<Clock>, enabled: bool, rthOnly: bool, minutes: nat, i: nat, j: nat)
    requires minutes >= 1
  {
    && i < j < |run| && Beats(run, i, enabled, rthOnly, minutes) && Beats(run, j, enabled, rthOnly, minutes)
    && WindowOf(run[i], minutes) == WindowOf(run[j], minutes)
  }

  /** The first reading of an unbroken stretch of one window gives its heartbeat. */
  lemma {:induction false} BeatBefore(run: seq<Clock>, enabled: bool, rthOnly: bool, minutes: nat, i: nat) returns (b: nat)
    requires minutes >= 1 && i < |run| && Eligible(run[i], enabled, rthOnly)
    ensures b <= i && Beats(run, b, enabled, rthOnly, minutes) && WindowOf(run[b], minutes) == WindowOf(run[i], minutes)
    decreases i
  {
    b := i;
    if !Beats(run, i, enabled, rthOnly, minutes) {
      var p := ReadingOfLastWindow(run[..i], enabled, rthOnly, minutes);
      assert run[..i][p] == run[p];
      b := BeatBefore(run, enabled, rthOnly, minutes, p);
    }
  }

  lemma {:induction false} ReadingOfLastWindow(run: seq<Clock>, enabled: bool, rthOnly: bool, minutes: nat) returns (p: nat)
    requires minutes >= 1 && LastWindow(run, enabled, rthOnly, minutes).Some?
    ensures p < |run| && Eligible(run[p], enabled, rthOnly)
    ensures LastWindow(run, enabled, rthOnly, minutes) == Some(WindowOf(run[p], minutes))
  {
    var n := |run| - 1;
    p := n;
    if !Eligible(run[n], enabled, rthOnly) {
      p := ReadingOfLastWindow(run[..n], enabled, rthOnly, minutes);
    }
  }

  /** Coming back to a window after another one gives it a heartbeat again. */
  lemma {:induction false} BeatAfter(run: seq<Clock>, enabled: bool, rthOnly: bool, minutes: nat, k: nat, j: nat) returns (b: nat)
    requires minutes >= 1 && k < j < |run| && Eligible(run[k], enabled, rthOnly) && Eligible(run[j], enabled, rthOnly)
    requires WindowOf(run[k], minutes) != WindowOf(run[j], minutes)
    ensures k < b <= j && Beats(run, b, enabled, rthOnly, minutes) && WindowOf(run[b], minutes) == WindowOf(run[j], minutes)
    decreases j
  {
    b := j;
    assert run[..j][k] == run[k];
    var p := LastWindowIsEligible(run[..j], enabled, rthOnly, minutes, k);
    assert run[..j][p] == run[p];
    if WindowOf(run[p], minutes) == WindowOf(run[j], minutes) {
      b := BeatAfter(run, enabled, rthOnly, minutes, k, p);
    }
  }

  /** No window beats twice exactly when no two eligible readings of one window enclose
      an eligible reading of another. */
  lemma OneHeartbeatIff(run: seq<Clock>, enabled: bool, rthOnly: bool, minutes: nat)
    requires minutes >= 1
    ensures (exists i: nat, j: nat :: BeatsTwice(run, enabled, rthOnly, minutes, i, j)) <==>
      exists i: nat, k: nat, j: nat :: Encloses(run, enabled, rthOnly, minutes, i, k, j)
  {
    if exists i: nat, j: nat :: BeatsTwice(run, enabled, rthOnly, minutes, i, j) {
      var i: nat, j: nat :| BeatsTwice(run, enabled, rthOnly, minutes, i, j);
      assert run[..j][i] == run[i];
      var k := LastWindowIsEligible(run[..j], enabled, rthOnly, minutes, i);
      assert run[..j][k] == run[k];
      assert Encloses(run, enabled, rthOnly, minutes, i, k, j);
    }
    if exists i: nat, k: nat, j: nat :: Encloses(run, enabled, rthOnly, minutes, i, k, j) {
      var i: nat, k: nat, j: nat :| Encloses(run, enabled, rthOnly, minutes, i, k, j);
      var a := BeatBefore(run, enabled, rthOnly, minutes, i);
      var b := BeatAfter(run, enabled, rthOnly, minutes, k, j);
      assert BeatsTwice(run, enabled, rthOnly, minutes, a, b);
    }
  }

  /** While local time does not run backwards, no window is enclosed: each has at most
      one heartbeat. */
  lemma OneHeartbeatPerWindow(run: seq<Clock>, enabled: bool, rthOnly: bool, minutes: nat)
    requires minutes >= 1 && LocalTimeMonotone(run)
    ensures !exists i: nat, j: nat :: BeatsTwice(run, enabled, rthOnly, minutes, i, j)
  {
    forall i: nat, k: nat, j: nat ensures !Encloses(run, enabled, rthOnly, minutes, i, k, j) {
      if i < k < j < |run| && WindowOf(run[i], minutes) == WindowOf(run[j], minutes) {
        assert NotBefore(run[i], run[k]) && NotBefore(run[k], run[j]);
        WindowMonotone(run[i].minute, run[k].minute, minutes);
        WindowMonotone(run[k].minute, run[j].minute, minutes);
      }
    }
    OneHeartbeatIff(run, enabled, rthOnly, minutes);
  }

  /** Two readings lie in the same window when they share the date and the stretch of so
      many minutes since midnight. */
  lemma WindowMeaning(a: Clock, b: Clock, minutes: nat)
    requires minutes >= 1
    ensures WindowOf(a, minutes) == WindowOf(b, minutes) <==>
      a.date == b.date && exists k: int :: IsWithin(a, k, minutes) && IsWithin(b, k, minutes)
  {
    WindowBounds(a.minute, minutes);
    WindowBounds(b.minute, minutes);
    if WindowOf(a, minutes) == WindowOf(b, minutes) {
      assert IsWithin(a, a.minute / minutes, minutes) && IsWithin(b, a.minute / minutes, minutes);
    }
    if exists k: int :: IsWithin(a, k, minutes) && IsWithin(b, k, minutes) {
      var k: int :| IsWithin(a, k, minutes) && IsWithin(b, k, minutes);
      OnlyWindow(a, k, minutes);
      OnlyWindow(b, k, minutes);
    }
  }

  predicate IsWithin(c: Clock, k: int, minutes: nat) { Times(k, minutes) <= c.minute < Times(k + 1, minutes) }

  lemma OnlyWindow(c: Clock, k: int, minutes: nat)
    requires minutes >= 1 && IsWithin(c, k, minutes)
    ensures c.minute / minutes == k
  {
    var q := c.minute / minutes;
    WindowBounds(c.minute, minutes);
    TimesOrdered(k, q + 1, minutes);
    TimesOrdered(q, k + 1, minutes);
  }

  predicate Counts(c: Clock, enabled: bool, rthOnly: bool) { enabled && (rthOnly ==> c.inRth) }

  /** Reading j is the last one that counts. */
  ghost predicate LastCounting(run: seq<Clock>, enabled: bool, rthOnly: bool, j: nat) {
    j < |run| && Counts(run[j], enabled, rthOnly) && forall k | j < k < |run| :: !Counts(run[k], enabled, rthOnly)
  }

  /** A reading gives a heartbeat exactly when it counts and the last reading before that
      counts, if there is one, lies in another window. */
  lemma BeatMeaning(run: seq<Clock>, i: nat, enabled: bool, rthOnly: bool, minutes: nat)
    requires minutes >= 1 && i < |run|
    ensures Beats(run, i, enabled, rthOnly, minutes) <==>
      && Counts(run[i], enabled, rthOnly)
      && forall j: nat | LastCounting(run[..i], enabled, rthOnly, j) :: WindowOf(run[..i][j], minutes) != WindowOf(run[i], minutes)
  {
    LastWindowMeaning(run[..i], enabled, rthOnly, minutes);
  }

  lemma {:induction false} LastWindowMeaning(run: seq<Clock>, enabled: bool, rthOnly: bool, minutes: nat)
    requires minutes >= 1
    ensures forall j: nat | LastCounting(run, enabled, rthOnly, j) ::
      LastWindow(run, enabled, rthOnly, minutes) == Some(WindowOf(run[j], minutes))
    ensures LastWindow(run, enabled, rthOnly, minutes).Some? ==> exists j: nat :: LastCounting(run, enabled, rthOnly, j)
  {
    if run != [] {
      var n := |run| - 1;
      if Counts(run[n], enabled, rthOnly) {
        assert LastCounting(run, enabled, rthOnly, n);
      } else {
        LastWindowMeaning(run[..n], enabled, rthOnly, minutes);
        forall j: nat ensures LastCounting(run, enabled, rthOnly, j) <==> LastCounting(run[..n], enabled, rthOnly, j) {
          assert forall k | 0 <= k < n :: run[..n][k] == run[k];
        }
      }
    }
  }

  /** When local time does run backwards, as in the repeated hour of autumn, a window
      can have two heartbeats. */
  lemma RepeatedHourBeatsTwice()
    ensures exists run: seq<Clock> ::
      |run| == 3 && Beats(run, 0, true, false, 15) && Beats(run, 2, true, false, 15)
      && WindowOf(run[0], 15) == WindowOf(run[2], 15)
  {
    var run := [Clock(0.0, 1, 60, true), Clock(3540.0, 1, 119, true), Clock(3600.0, 1, 60, true)];
    assert run[..0] == [] && run[..2][1] == run[1];
    assert Beats(run, 0, true, false, 15) && Beats(run, 2, true, false, 15);
  }

  // ----- the sentinel -----

  datatype StateParams = StateParams(vrpFriendlyMin: real, vrpCautionMin: real, mrMax: real, vovCaution: real, vovHostile: real)

  /** derive_market_state: a score from 100 downwards, clamped, and its regime. */
  function DeriveMarketState(s: Snapshot, p: StateParams): MarketState {
    var vrp := if s.vrp == None then 20
               else (if s.vrp.value < p.vrpFriendlyMin then 20 else 0) + (if s.vrp.value < p.vrpCautionMin then 25 else 0);
    var vov := if s.vov == None then 20
               else (if s.vov.value > p.vovCaution then 20 else 0) + (if s.vov.value > p.vovHostile then 25 else 0);
    var mr := if s.mr == None then 10 else if s.mr.value > p.mrMax then 15 else 0;
    var raw := 100 - vrp - vov - mr;
    var score := if raw < 0 then 0 else raw;
    MarketState(if score >= 70 then Friendly else if score >= 50 then Caution else Hostile, score)
  }

  function RegimeEvents(prev: Option<MarketState>, state: MarketState): seq<Event> {
    if prev.Some? && prev.value.regime != state.regime then [RegimeChange] else []
  }

  /** A break is reported unless the previous value was already below the minimum. A
      NaN is not below it, and neither is it at or above it: it reports every time. */
  function VrpEvents(p: Params, prev: Option<Snapshot>, s: Snapshot): seq<Event> {
    if prev.Some? && prev.value.vrp.Some? && prev.value.vrp.value < p.vrpMin then []
    else if s.vrp.Some? && s.vrp.value >= p.vrpMin then []
    else [VrpBreak]
  }

  function MrEvents(p: Params, prev: Option<Snapshot>, s: Snapshot): seq<Event> {
    if prev.Some? && prev.value.mr.Some? && prev.value.mr.value > p.mrMax then []
    else if s.mr.Some? && s.mr.value <= p.mrMax then []
    else [MrBreak]
  }

  function VovEvents(p: Params, caution: bool, hostile: bool, vov: Option<real>): seq<Event> {
    (if caution && vov.Some? && vov.value > p.vovCaution then [VovSpike(false)] else [])
    + (if hostile && vov.Some? && vov.value > p.vovHostile then [VovSpike(true)] else [])
  }

  /** What one bar reports about levels, before the cooldown. */
  function LevelEvents(p: Params, prevState: Option<MarketState>, prevSnapshot: Option<Snapshot>, armed: map<int, bool>,
                       caution: bool, hostile: bool, s: Snapshot, state: MarketState): seq<Event> {
    RegimeEvents(prevState, state)
    + Crosses(armed, SortDescending(p.scoreThresholds), state.score, p.hysteresis)
    + VrpEvents(p, prevSnapshot, s)
    + VovEvents(p, caution, hostile, s.vov)
    + MrEvents(p, prevSnapshot, s)
  }

  /** What a bar reports, kind by kind: a regime that changed; thresholds that were armed
      and are undercut; a break when the value is unknown or beyond its limit and the value
      before was not beyond it; an armed level that is exceeded. */
  ghost predicate ReportsLevels(p: Params, prevState: Option<MarketState>, prevSnapshot: Option<Snapshot>, armed: map<int, bool>,
                                caution: bool, hostile: bool, s: Snapshot, state: MarketState, events: seq<Event>) {
    && (RegimeChange in events <==> prevState.Some? && prevState.value.regime != state.regime)
    && (VrpBreak in events <==>
          && (s.vrp == None || s.vrp.value < p.vrpMin)
          && (prevSnapshot == None || prevSnapshot.value.vrp == None || prevSnapshot.value.vrp.value >= p.vrpMin))
    && (MrBreak in events <==>
          && (s.mr == None || s.mr.value > p.mrMax)
          && (prevSnapshot == None || prevSnapshot.value.mr == None || prevSnapshot.value.mr.value <= p.mrMax))
    && (VovSpike(false) in events <==> caution && s.vov.Some? && s.vov.value > p.vovCaution)
    && (VovSpike(true) in events <==> hostile && s.vov.Some? && s.vov.value > p.vovHostile)
    && (p.hysteresis >= 0 ==> forall t :: ScoreCross(t) in events <==> t in p.scoreThresholds && Get(armed, t) && state.score < t)
    && Heartbeat !in events
  }

  lemma {:induction false} CrossesAreCrosses(armed: map<int, bool>, ts: seq<int>, score: int, h: int)
    ensures forall e | e in Crosses(armed, ts, score, h) :: e.ScoreCross?
  {
    if ts != [] {
      CrossesAreCrosses(armed, ts[..|ts| - 1], score, h);
    }
  }

  lemma CrossIff(p: Params, armed: map<int, bool>, score: int, t: int)
    requires p.hysteresis >= 0
    ensures ScoreCross(t) in Crosses(armed, SortDescending(p.scoreThresholds), score, p.hysteresis) <==>
      t in p.scoreThresholds && Get(armed, t) && score < t
  {
    SortKeeps(p.scoreThresholds, t);
    OneBar(armed, SortDescending(p.scoreThresholds), score, p.hysteresis, t);
  }

  lemma InParts(a: seq<Event>, b: seq<Event>, c: seq<Event>, d: seq<Event>, f: seq<Event>, e: Event)
    ensures e in a + b + c + d + f <==> e in a || e in b || e in c || e in d || e in f
  {
  }

  /** Where an event of a bar comes from. */
  lemma ReportedBy(p: Params, prevState: Option<MarketState>, prevSnapshot: Option<Snapshot>, armed: map<int, bool>,
                   caution: bool, hostile: bool, s: Snapshot, state: MarketState, e: Event)
    ensures e in LevelEvents(p, prevState, prevSnapshot, armed, caution, hostile, s, state) <==>
      match e
      case RegimeChange => e in RegimeEvents(prevState, state)
      case ScoreCross(_) => e in Crosses(armed, SortDescending(p.scoreThresholds), state.score, p.hysteresis)
      case VrpBreak => e in VrpEvents(p, prevSnapshot, s)
      case VovSpike(_) => e in VovEvents(p, caution, hostile, s.vov)
      case MrBreak => e in MrEvents(p, prevSnapshot, s)
      case Heartbeat => false
  {
    var crosses := Crosses(armed, SortDescending(p.scoreThresholds), state.score, p.hysteresis);
    CrossesAreCrosses(armed, SortDescending(p.scoreThresholds), state.score, p.hysteresis);
    InParts(RegimeEvents(prevState, state), crosses, VrpEvents(p, prevSnapshot, s), VovEvents(p, caution, hostile, s.vov),
            MrEvents(p, prevSnapshot, s), e);
  }

  lemma LevelEventsMeaning(p: Params, prevState: Option<MarketState>, prevSnapshot: Option<Snapshot>, armed: map<int, bool>,
                           caution: bool, hostile: bool, s: Snapshot, state: MarketState, events: seq<Event>)
    requires events == LevelEvents(p, prevState, prevSnapshot, armed, caution, hostile, s, state)
    ensures ReportsLevels(p, prevState, prevSnapshot, armed, caution, hostile, s, state, events)
  {
    ReportedBy(p, prevState, prevSnapshot, armed, caution, hostile, s, state, RegimeChange);
    ReportedBy(p, prevState, prevSnapshot, armed, caution, hostile, s, state, VrpBreak);
    ReportedBy(p, prevState, prevSnapshot, armed, caution, hostile, s, state, MrBreak);
    ReportedBy(p, prevState, prevSnapshot, armed, caution, hostile, s, state, VovSpike(false));
    ReportedBy(p, prevState, prevSnapshot, armed, caution, hostile, s, state, VovSpike(true));
    ReportedBy(p, prevState, prevSnapshot, armed, caution, hostile, s, state, Heartbeat);
    if p.hysteresis >= 0 {
      forall t ensures ScoreCross(t) in events <==> t in p.scoreThresholds && Get(armed, t) && state.score < t {
        ReportedBy(p, prevState, prevSnapshot, armed, caution, hostile, s, state, ScoreCross(t));
        CrossIff(p, armed, state.score, t);
      }
    }
  }

  // ----- the market state in terms of the readings -----

  /** What a reading costs: nothing, 20, 25 or both, and a fixed charge when unknown. */
  predicate Costs(known: bool, first: bool, second: bool, cost: int) {
    if !known then cost == 20
    else if first && second then cost == 45
    else if first then cost == 20
    else if second then cost == 25
    else cost == 0
  }

  predicate IsState(m: MarketState, s: Snapshot, p: StateParams, vrp: int, vov: int, mr: int) {
    && Costs(s.vrp.Some?, s.vrp.Some? && s.vrp.value < p.vrpFriendlyMin, s.vrp.Some? && s.vrp.value < p.vrpCautionMin, vrp)
    && Costs(s.vov.Some?, s.vov.Some? && s.vov.value > p.vovCaution, s.vov.Some? && s.vov.value > p.vovHostile, vov)
    && (s.mr == None ==> mr == 10) && (s.mr.Some? ==> mr == if s.mr.value <= p.mrMax then 0 else 15)
    && (vrp + vov + mr <= 100 ==> m.score + vrp + vov + mr == 100) && (vrp + vov + mr > 100 ==> m.score == 0)
    && (m.regime == Friendly <==> vrp + vov + mr <= 30) && (m.regime == Hostile <==> vrp + vov + mr > 50)
  }

  /** The score is 100 less what the readings cost, never below 0; up to 30 lost points
      the market is friendly, beyond 50 hostile. */
  lemma MarketStateMeaning(s: Snapshot, p: StateParams)
    ensures exists vrp, vov, mr :: IsState(DeriveMarketState(s, p), s, p, vrp, vov, mr)
  {
    var vrp := if s.vrp == None then 20
               else (if s.vrp.value < p.vrpFriendlyMin then 20 else 0) + (if s.vrp.value < p.vrpCautionMin then 25 else 0);
    var vov := if s.vov == None then 20
               else (if s.vov.value > p.vovCaution then 20 else 0) + (if s.vov.value > p.vovHostile then 25 else 0);
    var mr := if s.mr == None then 10 else if s.mr.value > p.mrMax then 15 else 0;
    assert IsState(DeriveMarketState(s, p), s, p, vrp, vov, mr);
  }

  function BeatEvents(beat: bool): seq<Event> {
    if beat then [Heartbeat] else []
  }

  class SlackSentinel {
    const params: Params
    const stateParams: StateParams
    const enabled: bool
    const rthOnly: bool
    const heartbeatEnabled: bool
    const heartbeatMinutes: nat
    const heartbeatRthOnly: bool
    var prevState: Option<MarketState>
    var prevSnapshot: Option<Snapshot>
    var lastSentByKey: map<Key, real>
    var scoreArmed: map<int, bool>
    var vovCautionArmed: bool
    var vovHostileArmed: bool
    var lastHeartbeatWindow: Option<Window>
    // the whole run so far
    ghost var scores: seq<int>
    ghost var vovs: seq<Option<real>>
    ghost var clocks: seq<Clock>
    ghost var batches: seq<Batch>

    /** Every field is what the run so far makes it. */
    ghost predicate Valid()
      reads this
    {
      ValidScores() && ValidVovs() && ValidBeats() && ValidSent()
    }

    ghost predicate ValidScores()
      reads this`scoreArmed, this`scores
    {
      scoreArmed == ArmedMap(params, scores)
    }

    ghost predicate ValidVovs()
      reads this`vovCautionArmed, this`vovHostileArmed, this`vovs
    {
      && vovCautionArmed == VovArmedAfter(vovs, params.vovCaution, params.vovHysteresis)
      && vovHostileArmed == VovArmedAfter(vovs, params.vovHostile, params.vovHysteresis)
    }

    ghost predicate ValidBeats()
      reads this`lastHeartbeatWindow, this`clocks
    {
      && heartbeatMinutes >= 1
      && lastHeartbeatWindow == LastWindow(clocks, heartbeatEnabled, heartbeatRthOnly, heartbeatMinutes)
    }

    ghost predicate ValidSent()
      reads this`lastSentByKey, this`batches
    {
      lastSentByKey == LastSent(params, batches)
    }

    constructor (params: Params, stateParams: StateParams, enabled: bool, rthOnly: bool,
                 heartbeatEnabled: bool, heartbeatMinutes: int, heartbeatRthOnly: bool)
      ensures Valid() && scores == [] && vovs == [] && clocks == [] && batches == []
      ensures this.params == params && this.stateParams == stateParams && this.enabled == enabled && this.rthOnly == rthOnly
      ensures this.heartbeatEnabled == heartbeatEnabled && this.heartbeatRthOnly == heartbeatRthOnly
      ensures this.heartbeatMinutes == if heartbeatMinutes < 1 then 1 else heartbeatMinutes
    {
      this.params, this.stateParams, this.enabled, this.rthOnly := params, stateParams, enabled, rthOnly;
      this.heartbeatEnabled, this.heartbeatRthOnly := heartbeatEnabled, heartbeatRthOnly;
      this.heartbeatMinutes := if heartbeatMinutes < 1 then 1 else heartbeatMinutes;
      prevState, prevSnapshot, lastHeartbeatWindow := None, None, None;
      lastSentByKey := map[];
      scoreArmed := map t | t in params.scoreThresholds :: true;
      vovCautionArmed, vovHostileArmed := true, true;
      scores, vovs, clocks, batches := [], [], [], [];
    }

    method DetectScoreCross(state: MarketState) returns (events: seq<Event>)
      requires ValidScores()
      modifies this`scoreArmed, this`scores
      ensures ValidScores() && scores == old(scores) + [state.score]
      ensures var ts := SortDescending(params.scoreThresholds);
        && scoreArmed == ArmAll(old(scoreArmed), ts, state.score, params.hysteresis)
        && events == Crosses(old(scoreArmed), ts, state.score, params.hysteresis)
    {
      events := [];
      var ts := SortDescending(params.scoreThresholds);
      ghost var before := scoreArmed;
      ArmedMapSnoc(params, scores, state.score);
      for k := 0 to |ts|
        invariant scores == old(scores)
        invariant scoreArmed == ArmAll(before, ts[..k], state.score, params.hysteresis)
        invariant events == Crosses(before, ts[..k], state.score, params.hysteresis)
      {
        assert ts[..k + 1][..k] == ts[..k];
        var t := ts[k];
        var armed := Get(scoreArmed, t);
        if armed && state.score < t {
          scoreArmed := scoreArmed[t := false];
          events := events + [ScoreCross(t)];
        } else if !armed && state.score >= t + params.hysteresis {
          scoreArmed := scoreArmed[t := true];
        }
      }
      assert ts[..|ts|] == ts;
      scores := scores + [state.score];
    }

    method DetectVovSpike(s: Snapshot) returns (events: seq<Event>)
      requires ValidVovs()
      modifies this`vovCautionArmed, this`vovHostileArmed, this`vovs
      ensures ValidVovs() && vovs == old(vovs) + [s.vov]
      ensures events == VovEvents(params, old(vovCautionArmed), old(vovHostileArmed), s.vov)
      ensures vovCautionArmed == VovStep(old(vovCautionArmed), s.vov, params.vovCaution, params.vovHysteresis)
      ensures vovHostileArmed == VovStep(old(vovHostileArmed), s.vov, params.vovHostile, params.vovHysteresis)
    {
      events := [];
      if vovCautionArmed && s.vov.Some? && s.vov.value > params.vovCaution {
        vovCautionArmed := false;
        events := events + [VovSpike(false)];
      } else if !vovCautionArmed && s.vov.Some? && s.vov.value <= params.vovCaution - params.vovHysteresis {
        vovCautionArmed := true;
      }
      if vovHostileArmed && s.vov.Some? && s.vov.value > params.vovHostile {
        vovHostileArmed := false;
        events := events + [VovSpike(true)];
      } else if !vovHostileArmed && s.vov.Some? && s.vov.value <= params.vovHostile - params.vovHysteresis {
        vovHostileArmed := true;
      }
      VovSnoc(vovs, s.vov, params.vovCaution, params.vovHysteresis);
      VovSnoc(vovs, s.vov, params.vovHostile, params.vovHysteresis);
      vovs := vovs + [s.vov];
    }

    method DetectHeartbeat(c: Clock) returns (beat: bool)
      requires ValidBeats()
      modifies this`lastHeartbeatWindow, this`clocks
      ensures ValidBeats() && clocks == old(clocks) + [c]
      ensures beat == Beats(clocks, |clocks| - 1, heartbeatEnabled, heartbeatRthOnly, heartbeatMinutes)
    {
      LastWindowSnoc(clocks, c, heartbeatEnabled, heartbeatRthOnly, heartbeatMinutes);
      clocks := clocks + [c];
      if !heartbeatEnabled || (heartbeatRthOnly && !c.inRth) {
        return false;
      }
      var key := WindowOf(c, heartbeatMinutes);
      if lastHeartbeatWindow == Some(key) {
        return false;
      }
      lastHeartbeatWindow := Some(key);
      return true;
    }

    method ApplyCooldown(events: seq<Event>, c: Clock) returns (emitted: seq<Event>)
      requires ValidSent()
      modifies this`lastSentByKey, this`batches
      ensures var open := enabled && (!rthOnly || c.inRth);
        && batches == old(batches) + [Batch(events, c.ts, open)]
        && emitted == if open then Emitted(params, old(lastSentByKey), events, c.ts) else []
      ensures ValidSent()
    {
      LastSentSnoc(params, batches, Batch(events, c.ts, enabled && (!rthOnly || c.inRth)));
      batches := batches + [Batch(events, c.ts, enabled && (!rthOnly || c.inRth))];
      emitted := [];
      if !enabled || (rthOnly && !c.inRth) {
        return;
      }
      ghost var last := lastSentByKey;
      for k := 0 to |events|
        invariant batches == old(batches) + [Batch(events, c.ts, true)]
        invariant emitted == Emitted(params, last, events[..k], c.ts)
        invariant lastSentByKey == SentTimes(params, last, events[..k], c.ts)
      {
        assert events[..k + 1][..k] == events[..k];
        var key := KeyOf(events[k]);
        var cooldown := CooldownOf(params, key);
        if !(key in lastSentByKey && cooldown > 0 && c.ts - lastSentByKey[key] < cooldown as real) {
          lastSentByKey := lastSentByKey[key := c.ts];
          emitted := emitted + [events[k]];
        }
      }
      assert events[..|events|] == events;
    }

    /** The detectors that look at levels, in the order of the program. */
    method DetectLevels(s: Snapshot, state: MarketState) returns (events: seq<Event>)
      requires ValidScores() && ValidVovs()
      modifies this`scoreArmed, this`scores, this`vovCautionArmed, this`vovHostileArmed, this`vovs
      ensures ValidScores() && ValidVovs()
      ensures scores == old(scores) + [state.score] && vovs == old(vovs) + [s.vov]
      ensures events == old(LevelEventsNow(s, state))
    {
      events := RegimeEvents(prevState, state);
      var crosses := DetectScoreCross(state);
      var spikes := DetectVovSpike(s);
      events := events + crosses + VrpEvents(params, prevSnapshot, s) + spikes + MrEvents(params, prevSnapshot, s);
    }

    /** All detectors. */
    method DetectEvents(s: Snapshot, state: MarketState, c: Clock) returns (events: seq<Event>)
      requires Valid()
      modifies this`scoreArmed, this`scores, this`vovCautionArmed, this`vovHostileArmed, this`vovs, this`lastHeartbeatWindow, this`clocks
      ensures Valid()
      ensures scores == old(scores) + [state.score] && vovs == old(vovs) + [s.vov] && clocks == old(clocks) + [c]
      ensures events == old(LevelEventsNow(s, state)) + BeatEvents(BeatsAt(old(clocks) + [c]))
    {
      events := DetectLevels(s, state);
      var beat := DetectHeartbeat(c);
      events := events + BeatEvents(beat);
    }

    /** One closed candle: the run goes on by one bar, the events are those of all
        detectors, and the cooldown filter lets some of them through. */
    method OnCandleClose(s: Snapshot, c: Clock) returns (emitted: seq<Event>, ghost events: seq<Event>)
      requires Valid()
      modifies this
      ensures Valid()
      ensures prevState == Some(DeriveMarketState(s, stateParams)) && prevSnapshot == Some(s)
      ensures exists vrp, vov, mr :: IsState(prevState.value, s, stateParams, vrp, vov, mr)
      ensures scores == old(scores) + [prevState.value.score] && vovs == old(vovs) + [s.vov] && clocks == old(clocks) + [c]
      ensures events == old(LevelEventsNow(s, DeriveMarketState(s, stateParams))) + BeatEvents(BeatsAt(old(clocks) + [c]))
      ensures ReportsLevels(params, old(prevState), old(prevSnapshot), old(scoreArmed), old(vovCautionArmed), old(vovHostileArmed),
                            s, prevState.value, old(LevelEventsNow(s, DeriveMarketState(s, stateParams))))
      ensures batches == old(batches) + [Batch(events, c.ts, enabled && (!rthOnly || c.inRth))]
      ensures emitted == if enabled && (!rthOnly || c.inRth) then Emitted(params, old(lastSentByKey), events, c.ts) else []
      ensures AllSent(params, batches) == AllSent(params, old(batches)) + Stamped(emitted, c.ts)
    {
      MarketStateMeaning(s, stateParams);
      LevelEventsMeaning(params, prevState, prevSnapshot, scoreArmed, vovCautionArmed, vovHostileArmed, s,
                         DeriveMarketState(s, stateParams), LevelEventsNow(s, DeriveMarketState(s, stateParams)));
      emitted, events := OnState(s, DeriveMarketState(s, stateParams), c);
    }

    ghost function LevelEventsNow(s: Snapshot, state: MarketState): seq<Event>
      reads this
    {
      LevelEvents(params, prevState, prevSnapshot, scoreArmed, vovCautionArmed, vovHostileArmed, s, state)
    }

    /** The newest reading of a run of clocks gives a heartbeat. */
    ghost predicate BeatsAt(run: seq<Clock>)
      requires run != []
    {
      heartbeatMinutes >= 1 && Beats(run, |run| - 1, heartbeatEnabled, heartbeatRthOnly, heartbeatMinutes)
    }

    /** The cooldown filter, and the state the next candle is compared with. */
    method Finish(detected: seq<Event>, s: Snapshot, state: MarketState, c: Clock) returns (emitted: seq<Event>)
      requires ValidSent()
      modifies this`lastSentByKey, this`batches, this`prevState, this`prevSnapshot
      ensures ValidSent() && prevState == Some(state) && prevSnapshot == Some(s)
      ensures var open := enabled && (!rthOnly || c.inRth);
        && batches == old(batches) + [Batch(detected, c.ts, open)]
        && emitted == if open then Emitted(params, old(lastSentByKey), detected, c.ts) else []
      ensures AllSent(params, batches) == AllSent(params, old(batches)) + Stamped(emitted, c.ts)
    {
      AllSentSnoc(params, batches, Batch(detected, c.ts, enabled && (!rthOnly || c.inRth)));
      emitted := ApplyCooldown(detected, c);
      assert AllSent(params, old(batches)) + [] == AllSent(params, old(batches));
      prevState := Some(state);
      prevSnapshot := Some(s);
    }

    method OnState(s: Snapshot, state: MarketState, c: Clock) returns (emitted: seq<Event>, ghost events: seq<Event>)
      requires Valid()
      modifies this
      ensures Valid()
      ensures prevState == Some(state) && prevSnapshot == Some(s)
      ensures scores == old(scores) + [state.score] && vovs == old(vovs) + [s.vov] && clocks == old(clocks) + [c]
      ensures events == old(LevelEventsNow(s, state)) + BeatEvents(BeatsAt(old(clocks) + [c]))
      ensures batches == old(batches) + [Batch(events, c.ts, enabled && (!rthOnly || c.inRth))]
      ensures emitted == if enabled && (!rthOnly || c.inRth) then Emitted(params, old(lastSentByKey), events, c.ts) else []
      ensures AllSent(params, batches) == AllSent(params, old(batches)) + Stamped(emitted, c.ts)
    {
      var detected := DetectEvents(s, state, c);
      events := detected;
      emitted := Finish(detected, s, state, c);
    }
  }

  lemma VovSnoc(vovs: seq<Option<real>>, v: Option<real>, level: real, hyst: real)
    ensures VovArmedAfter(vovs + [v], level, hyst) == VovStep(VovArmedAfter(vovs, level, hyst), v, level, hyst)
  {
    assert (vovs + [v])[..|vovs|] == vovs;
  }

  lemma LastSentSnoc(p: Params, run: seq<Batch>, b: Batch)
    ensures LastSent(p, run + [b]) == if b.open then SentTimes(p, LastSent(p, run), b.events, b.now) else LastSent(p, run)
  {
    assert (run + [b])[..|run|] == run;
  }

  lemma LastWindowSnoc(run: seq<Clock>, c: Clock, enabled: bool, rthOnly: bool, minutes: nat)
    requires minutes >= 1
    ensures var on := Eligible(c, enabled, rthOnly);
      && LastWindow(run + [c], enabled, rthOnly, minutes) == (if on then Some(WindowOf(c, minutes)) else LastWindow(run, enabled, rthOnly, minutes))
      && Beats(run + [c], |run|, enabled, rthOnly, minutes) == (on && LastWindow(run, enabled, rthOnly, minutes) != Some(WindowOf(c, minutes)))
  {
    assert (run + [c])[..|run|] == run;
  }
}
