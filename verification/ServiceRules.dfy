/** What a tick of the monitor stores besides prices: which marks survive, when a silent feed wakes the
    agent, and when the operator is asked to look. */
module ServiceRules {
  import opened Common
  import opened Domain
  import opened Positions
  import opened MonitorStep
  import opened Service
  import opened StepRules

  /** Some firing of the tripwire on this bar got its wake through. */
  predicate WakeWentThrough(fired: seq<Tripwire>, woken: seq<bool>, t: Tripwire) {
    exists k :: 0 <= k < |fired| && k < |woken| && woken[k] && fired[k] == t
  }

  lemma {:induction false} GotThroughMore(fired: seq<Tripwire>, woken: seq<bool>, t: Tripwire)
    requires fired != []
    ensures var n := |fired| - 1;
      WakeWentThrough(fired, woken, t) <==>
        WakeWentThrough(fired[..n], woken, t) || (n < |woken| && woken[n] && fired[n] == t)
  {
    var n := |fired| - 1;
    if k :| 0 <= k < n && k < |woken| && woken[k] && fired[k] == t {
      assert fired[..n][k] == t;
    }
    if k :| 0 <= k < |fired[..n]| && k < |woken| && woken[k] && fired[..n][k] == t {
      assert fired[k] == t;
    }
  }

  /** A mark is stored exactly when the tripwire's wake went through; the others stay as they were stored, so
      a firing whose wake failed is tried again. */
  lemma {:induction false} StoredIff(durable: map<Tripwire, int>, fired: seq<Tripwire>, woken: seq<bool>,
                                     marks: map<Tripwire, int>, t: Tripwire)
    requires forall k :: 0 <= k < |fired| ==> fired[k] in marks
    ensures var s := Stored(durable, fired, woken, marks);
      if WakeWentThrough(fired, woken, t) then t in s && t in marks && s[t] == marks[t]
      else (t in s <==> t in durable) && (t in durable ==> s[t] == durable[t])
    decreases |fired|
  {
    if fired != [] {
      var n := |fired| - 1;
      GotThroughMore(fired, woken, t);
      StoredIff(durable, fired[..n], woken, marks, t);
      hide WakeWentThrough;
    }
  }

  /** The feed has been silent for the tripwire's minutes and the tripwire has rested. */
  predicate Silence(t: Tripwire, p: Pos, m: Market) {
    t.kind.FeedStale? && m.staleMinutes >= t.minutes as real && Rested(t, p.lastFired, p.barsHeld)
  }

  lemma SilenceIs(t: Tripwire, p: Pos, m: Market)
    requires t in p.lastFired ==> p.lastFired[t] <= p.barsHeld
    ensures Stale(t, p, m) <==> Silence(t, p, m)
  {
  }

  /** A tick without a new bar wakes the agent for a tripwire exactly when the feed has been silent for its
      minutes and it has rested; the mark is stored on an open row once the wake went through. */
  lemma SilentRule(l: Loop, m: Market, time: Option<int>, t: Tripwire, w: Wake)
    requires t in l.pos.lastFired ==> l.pos.lastFired[t] <= l.pos.barsHeld
    ensures var d := Silent(l, m, time, [t], [w]);
      if Silence(t, l.pos, m) then
        && d.pos == l.pos.(lastFired := l.pos.lastFired[t := l.pos.barsHeld])
        && (!w.enqueued ==> d.row == RunRow(l.row, w.ops))
        && (w.enqueued && RunRow(l.row, w.ops).status == Live ==>
              t in d.row.lastFired && d.row.lastFired[t] == l.pos.barsHeld)
      else d == l
  {
    hide RunRow, Stale, Silence, CloserOf;
    SilenceIs(t, l.pos, m);
    assert [t][1..] == [] && [w][1..] == [];
    assert Silent(l, m, time, [], []) == l;
    assert Silent(SilentWake(l, time, t, w), m, time, [], []) == SilentWake(l, time, t, w);
  }

  /** A tick asks the operator to look exactly when the feed's oldest bar opens more than a minute after the
      last one judged (or the entry), or the granularity has no known candle. */
  lemma WarnedRule(q: Position, m: Market)
    ensures var last := if q.lastBarTime.Some? then q.lastBarTime.value else q.entryTime;
      var gap := m.bars != [] && m.bars[0].time > last + 60 * SECOND;
      Warned(q, m) == q.(needsAttention := q.needsAttention || gap || Duration(q.granularity).None?)
  {
  }

  /** Minutes and hours up to 99 have a candle; nothing else has. */
  lemma CandleRule(g: Granularity)
    ensures Duration(g) ==
      if g.Minutes? && 0 < g.n < 100 then Some(g.n * 60 * SECOND)
      else if g.Hours? && 0 < g.n < 100 then Some(g.n * 3600 * SECOND)
      else None
  {
  }

  /** The newest bar, and only it, is judged with the ATR, the Supertrend line and the kill switch. */
  lemma NewestSeesNow(m: Market, g: Granularity, side: Side, lastBar: Option<int>, entryTime: int, prevBar: int, b: Bar)
    requires |m.bars| > 0
    ensures var e, newest := EnvFor(m, g, side, lastBar, entryTime, prevBar, b), m.bars[|m.bars| - 1];
      && (b.time == newest.time ==> e.atr == m.atr && e.supertrend == m.supertrend && e.halted == m.halted)
      && (b.time != newest.time ==> e.atr == 0.0 && e.supertrend == 0.0 && !e.halted)
      && !e.newsEscalation && e.feedStaleMinutes == 0.0
  {
    hide BecameKnown, Duration;
  }
}
