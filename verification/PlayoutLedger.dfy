/** The ledger of prepared packets dropped and rebuilt
    (crates/discord-voice-service-live-validation/src/controller.rs,
    validate_raw_prepared_playout_queue_events and the dropped-frame budget). */
module PlayoutLedger {
  import opened Words
  import opened Matching
  import RawSendLog

  const HIGH_WATERMARK_MS := 500

  datatype EventKind = Enqueued | DequeuedToDeadlineSender | DroppedBeforeSend | Rebuilt | UnspecifiedEvent

  datatype Reason =
    SteadyPlayback | Pause | Stop | DaveTransitionRecovery | Reconnect | SourceUnderrun | NaturalEnd | Interruption
    | UnspecifiedReason

  datatype Event = Event(
    index: u64,
    kind: EventKind,
    command: RawSendLog.CommandKind,
    reason: Reason,
    samples: u32,
    epoch: Option<u64>,
    positionSamples: Option<u64>,
    bytePosition: Option<u64>,
    depthAfterMs: u64)

  datatype Identity = Identity(reason: Reason, samples: u32, epoch: u64, positionSamples: u64, bytePosition: Option<u64>)

  datatype Metrics = Metrics(
    trackDropCount: u64,
    silenceDropCount: u64,
    rebuildCount: u64,
    egressDropCount: u64,
    droppedFrameCount: u64)

  datatype LedgerError =
    | NotSequential | EventUnspecified | CommandUnspecified | AboveHighWatermark
    | NoEnqueue | NoDequeue | TrackDropsDisagree | SilenceDropsDisagree | RebuildsDisagree

  /** A dropped track packet that has to be rebuilt: the drop was not a stop or a reconnect. */
  predicate CountedDrop(e: Event) {
    e.kind == DroppedBeforeSend && e.command == RawSendLog.Track && e.reason != Stop && e.reason != Reconnect
  }

  predicate SilenceDrop(e: Event) {
    e.kind == DroppedBeforeSend && e.command in {RawSendLog.ScheduledSilence, RawSendLog.BoundarySilence, RawSendLog.OtherBoundary}
  }

  predicate IsRebuild(e: Event) { e.kind == Rebuilt }

  predicate TrackEnqueue(e: Event) { e.kind == Enqueued && e.command == RawSendLog.Track }

  predicate TrackDequeue(e: Event) { e.kind == DequeuedToDeadlineSender && e.command == RawSendLog.Track }

  /** `prepared_playout_track_drop_identity`. */
  function IdentityOf(e: Event): Option<Identity> {
    if e.command != RawSendLog.Track || e.epoch.None? || e.positionSamples.None? then None
    else Some(Identity(e.reason, e.samples, e.epoch.value, e.positionSamples.value, e.bytePosition))
  }

  predicate AnonymousDrop(e: Event) { CountedDrop(e) && IdentityOf(e).None? }

  predicate WellFormed(e: Event, index: nat) {
    && e.index == index
    && e.kind != UnspecifiedEvent
    && e.command != RawSendLog.Unspecified
    && (e.command == RawSendLog.Track ==> e.depthAfterMs <= 500)
  }

  lemma {:induction false} CountStep(events: seq<Event>, p: Event -> bool, n: nat)
    requires n < |events|
    ensures Count(events[..n + 1], p) == Count(events[..n], p) + if p(events[n]) then 1 else 0
  {
    assert events[..n + 1][..n] == events[..n];
  }

  // ------------------------------------------------------------------ zero unrecovered drops

  /** What an event means to the list of open drops. */
  function ActionOf(e: Event): Action<Identity> {
    if IdentityOf(e).None? then Neutral
    else if CountedDrop(e) then Drop(IdentityOf(e).value)
    else if IsRebuild(e) then Rebuild(IdentityOf(e).value)
    else Neutral
  }

  function Actions(events: seq<Event>): (acts: seq<Action<Identity>>)
    ensures |acts| == |events|
    ensures forall i :: 0 <= i < |events| ==> acts[i] == ActionOf(events[i])
  {
    seq(|events|, i requires 0 <= i < |events| => ActionOf(events[i]))
  }

  /** The number of drops the ledger reports: those still open, and those that could not be named. */
  function Unrecovered(events: seq<Event>): nat {
    |Open(Actions(events))| + Count(events, AnonymousDrop)
  }

  /** The list of open drops after one more action. */
  function After(ids: seq<Identity>, act: Action<Identity>): seq<Identity> {
    match act
    case Drop(id) => ids + [id]
    case Rebuild(id) => if Position(ids, id) < |ids| then Without(ids, Position(ids, id)) else ids
    case Neutral => ids
  }

  /** What the list of open drops becomes at event `n`. */
  lemma {:induction false} OpenStep(events: seq<Event>, n: nat)
    requires n < |events|
    ensures Open(Actions(events[..n + 1])) == After(Open(Actions(events[..n])), ActionOf(events[n]))
  {
    assert Actions(events[..n + 1])[..n] == Actions(events[..n]);
  }

  /** Both are about the same track packet: it has an epoch and a position, and reason, samples, epoch, position and
      byte position agree. */
  predicate SamePacket(a: Event, b: Event) {
    && a.command == RawSendLog.Track && b.command == RawSendLog.Track
    && a.epoch.Some? && a.positionSamples.Some?
    && a.reason == b.reason && a.samples == b.samples && a.epoch == b.epoch
    && a.positionSamples == b.positionSamples && a.bytePosition == b.bytePosition
  }

  /** Event `r` is a rebuild of the track packet whose drop is event `i`, and comes later. */
  predicate Recovered(events: seq<Event>, i: nat, r: nat) {
    && i < r < |events|
    && events[i].kind == DroppedBeforeSend && events[i].reason !in {Stop, Reconnect} && events[r].kind == Rebuilt
    && SamePacket(events[i], events[r])
  }

  /** A recovery of the log: `rebuildOf` is injective and sends every counted drop to a later rebuild of
      the same identity. */
  predicate Recovers(events: seq<Event>, rebuildOf: map<nat, nat>) {
    && (forall i :: 0 <= i < |events| && CountedDrop(events[i]) ==> i in rebuildOf)
    && (forall i :: i in rebuildOf ==> Recovered(events, i, rebuildOf[i]))
    && (forall i, j :: i in rebuildOf && j in rebuildOf && rebuildOf[i] == rebuildOf[j] ==> i == j)
  }

  lemma {:induction false} RecoversIsAssigns(events: seq<Event>, rebuildOf: map<nat, nat>)
    ensures Recovers(events, rebuildOf)
       <==> Assigns(Actions(events), rebuildOf) && forall i :: 0 <= i < |events| ==> !AnonymousDrop(events[i])
  {}

  /** The ledger ends with no unrecovered drop exactly when some recovery of the log exists. */
  lemma {:induction false} NoneUnrecoveredIff(events: seq<Event>)
    ensures Unrecovered(events) == 0 <==> exists rebuildOf :: Recovers(events, rebuildOf)
  {
    NoneOpenIff(Actions(events));
    if Unrecovered(events) == 0 {
      var rebuildOf :| Assigns(Actions(events), rebuildOf);
      RecoversIsAssigns(events, rebuildOf);
    }
    if rebuildOf :| Recovers(events, rebuildOf) {
      RecoversIsAssigns(events, rebuildOf);
    }
  }

  // ------------------------------------------------------------------ the validator

  /** The running counters of the loop. */
  datatype Counters = Counters(trackDrops: u64, silenceDrops: u64, rebuilds: u64, enqueues: u64, dequeues: u64)

  predicate Below(c: Counters, bound: nat) {
    c.trackDrops < bound && c.silenceDrops < bound && c.rebuilds < bound && c.enqueues < bound && c.dequeues < bound
  }

  function AddOne(n: u64): u64 { Sat64(n + 1) }

  /** The open drops and the exact counts of the first `n` events. */
  datatype Totals = Totals(drops: seq<Identity>, anonymous: nat, silence: nat, rebuilds: nat, enqueues: nat, dequeues: nat)

  ghost function TotalsOf(events: seq<Event>, n: nat): Totals
    requires n <= |events|
  {
    if n == 0 then Totals([], 0, 0, 0, 0, 0) else
    var t, e := TotalsOf(events, n - 1), events[n - 1];
    Totals(
      After(t.drops, ActionOf(e)),
      t.anonymous + (if AnonymousDrop(e) then 1 else 0),
      t.silence + (if SilenceDrop(e) then 1 else 0),
      t.rebuilds + (if IsRebuild(e) then 1 else 0),
      t.enqueues + (if TrackEnqueue(e) then 1 else 0),
      t.dequeues + (if TrackDequeue(e) then 1 else 0))
  }

  /** The running variables against the totals: the track drops are the open ones plus those without an
      identity, so the saturating subtraction of the loop never saturates. */
  predicate Counted(t: Totals, n: nat, drops: seq<Identity>, c: Counters) {
    && drops == t.drops
    && c.trackDrops == |t.drops| + t.anonymous <= n
    && c.silenceDrops == t.silence <= n
    && c.rebuilds == t.rebuilds <= n
    && c.enqueues == t.enqueues <= n
    && c.dequeues == t.dequeues <= n
  }

  lemma {:induction false} TotalDrops(events: seq<Event>, n: nat)
    requires n <= |events|
    ensures TotalsOf(events, n).drops == Open(Actions(events[..n]))
  {
    if n > 0 {
      TotalDrops(events, n - 1);
      OpenStep(events, n - 1);
    }
  }

  lemma {:induction false} TotalAnonymous(events: seq<Event>, n: nat)
    requires n <= |events|
    ensures TotalsOf(events, n).anonymous == Count(events[..n], AnonymousDrop)
  {
    if n > 0 {
      TotalAnonymous(events, n - 1);
      CountStep(events, AnonymousDrop, n - 1);
    }
  }

  lemma {:induction false} TotalSilence(events: seq<Event>, n: nat)
    requires n <= |events|
    ensures TotalsOf(events, n).silence == Count(events[..n], SilenceDrop)
  {
    if n > 0 {
      TotalSilence(events, n - 1);
      CountStep(events, SilenceDrop, n - 1);
    }
  }

  lemma {:induction false} TotalRebuilds(events: seq<Event>, n: nat)
    requires n <= |events|
    ensures TotalsOf(events, n).rebuilds == Count(events[..n], IsRebuild)
  {
    if n > 0 {
      TotalRebuilds(events, n - 1);
      CountStep(events, IsRebuild, n - 1);
    }
  }

  lemma {:induction false} TotalEnqueues(events: seq<Event>, n: nat)
    requires n <= |events|
    ensures TotalsOf(events, n).enqueues == Count(events[..n], TrackEnqueue)
  {
    if n > 0 {
      TotalEnqueues(events, n - 1);
      CountStep(events, TrackEnqueue, n - 1);
    }
  }

  lemma {:induction false} TotalDequeues(events: seq<Event>, n: nat)
    requires n <= |events|
    ensures TotalsOf(events, n).dequeues == Count(events[..n], TrackDequeue)
  {
    if n > 0 {
      TotalDequeues(events, n - 1);
      CountStep(events, TrackDequeue, n - 1);
    }
  }

  /** The totals of a whole log, in terms of the log. */
  lemma {:induction false} TotalsOfLog(events: seq<Event>)
    ensures var t := TotalsOf(events, |events|);
            && t.drops == Open(Actions(events)) && t.anonymous == Count(events, AnonymousDrop)
            && t.silence == Count(events, SilenceDrop) && t.rebuilds == Count(events, IsRebuild)
            && t.enqueues == Count(events, TrackEnqueue) && t.dequeues == Count(events, TrackDequeue)
  {
    var n := |events|;
    assert events[..n] == events;
    TotalDrops(events, n);
    TotalAnonymous(events, n);
    TotalSilence(events, n);
    TotalRebuilds(events, n);
    TotalEnqueues(events, n);
    TotalDequeues(events, n);
  }

  /** What one event does to the list of open drops and the counters: the track count moves with the list,
      plus one for a drop without an identity. */
  predicate Recorded(event: Event, drops: seq<Identity>, c: Counters, drops': seq<Identity>, c': Counters) {
    && drops' == After(drops, ActionOf(event))
    && c'.trackDrops - |drops'| == c.trackDrops - |drops| + (if AnonymousDrop(event) then 1 else 0)
    && c'.silenceDrops == c.silenceDrops + (if SilenceDrop(event) then 1 else 0)
    && c'.rebuilds == c.rebuilds + (if IsRebuild(event) then 1 else 0)
    && c'.enqueues == c.enqueues + (if TrackEnqueue(event) then 1 else 0)
    && c'.dequeues == c.dequeues + (if TrackDequeue(event) then 1 else 0)
  }

  method RecordDrop(event: Event, drops: seq<Identity>, c: Counters) returns (drops': seq<Identity>, c': Counters)
    requires event.kind == DroppedBeforeSend && Below(c, 0xFFFF_FFFF_FFFF_FFFF)
    ensures Recorded(event, drops, c, drops', c')
  {
    drops', c' := drops, c;
    if event.command == RawSendLog.Track {
      if event.reason != Stop && event.reason != Reconnect {
        c' := c.(trackDrops := AddOne(c.trackDrops));
        if IdentityOf(event).Some? {
          drops' := drops + [IdentityOf(event).value];
        }
      }
    } else if event.command != RawSendLog.Unspecified {
      c' := c.(silenceDrops := AddOne(c.silenceDrops));
    }
  }

  method RecordRebuild(event: Event, drops: seq<Identity>, c: Counters) returns (drops': seq<Identity>, c': Counters)
    requires event.kind == Rebuilt && |drops| <= c.trackDrops && Below(c, 0xFFFF_FFFF_FFFF_FFFF)
    ensures Recorded(event, drops, c, drops', c')
  {
    drops', c' := drops, c.(rebuilds := AddOne(c.rebuilds));
    if IdentityOf(event).Some? {
      var k := Position(drops, IdentityOf(event).value);
      if k < |drops| {
        drops' := Without(drops, k);
        c' := c'.(trackDrops := SatSub(c.trackDrops, 1));
      }
    }
  }

  /** The `match` of the loop body. */
  method Record(event: Event, drops: seq<Identity>, c: Counters) returns (drops': seq<Identity>, c': Counters)
    requires |drops| <= c.trackDrops && Below(c, 0xFFFF_FFFF_FFFF_FFFF)
    ensures Recorded(event, drops, c, drops', c')
  {
    drops', c' := drops, c;
    match event.kind
    case Enqueued =>
      if event.command == RawSendLog.Track {
        c' := c.(enqueues := AddOne(c.enqueues));
      }
    case DequeuedToDeadlineSender =>
      if event.command == RawSendLog.Track {
        c' := c.(dequeues := AddOne(c.dequeues));
      }
    case DroppedBeforeSend => drops', c' := RecordDrop(event, drops, c);
    case Rebuilt => drops', c' := RecordRebuild(event, drops, c);
    case UnspecifiedEvent =>
  }

  predicate CountsMatch(events: seq<Event>, m: Metrics) {
    && Count(events, TrackEnqueue) > 0
    && Count(events, TrackDequeue) > 0
    && Count(events, SilenceDrop) == m.silenceDropCount
    && Count(events, IsRebuild) == m.rebuildCount
  }

  /** The first complaint about an event. */
  method CheckEvent(event: Event, index: nat) returns (complaint: Option<LedgerError>)
    ensures complaint.None? <==> WellFormed(event, index)
  {
    if event.index != index {
      return Some(NotSequential);
    }
    if event.kind == UnspecifiedEvent {
      return Some(EventUnspecified);
    }
    if event.command == RawSendLog.Unspecified {
      return Some(CommandUnspecified);
    }
    if event.command == RawSendLog.Track && event.depthAfterMs > HIGH_WATERMARK_MS {
      return Some(AboveHighWatermark);
    }
    complaint := None;
  }

  predicate WellFormedTo(events: seq<Event>, n: nat)
    requires n <= |events|
  {
    n == 0 || (WellFormedTo(events, n - 1) && WellFormed(events[n - 1], n - 1))
  }

  lemma {:induction false} WellFormedToIff(events: seq<Event>, n: nat)
    requires n <= |events|
    ensures WellFormedTo(events, n) <==> forall i :: 0 <= i < n ==> WellFormed(events[i], i)
  {
    if n > 0 {
      WellFormedToIff(events, n - 1);
    }
  }

  /** One turn of the loop. */
  method CountEvent(events: seq<Event>, n: nat, drops: seq<Identity>, c: Counters)
    returns (complaint: Option<LedgerError>, drops': seq<Identity>, c': Counters)
    requires n < |events| < 0x1_0000_0000_0000_0000 && WellFormedTo(events, n) && Counted(TotalsOf(events, n), n, drops, c)
    ensures complaint.None? <==> WellFormed(events[n], n)
    ensures complaint.None? ==> WellFormedTo(events, n + 1) && Counted(TotalsOf(events, n + 1), n + 1, drops', c')
  {
    drops', c' := drops, c;
    complaint := CheckEvent(events[n], n);
    if complaint.None? {
      drops', c' := Record(events[n], drops, c);
    }
  }

  /** The loop over the log: fails at the first malformed event, and otherwise counts the whole log. */
  method CountEvents(events: seq<Event>) returns (r: Result<Counters, LedgerError>)
    requires |events| < 0x1_0000_0000_0000_0000
    ensures r.Ok? <==> forall i :: 0 <= i < |events| ==> WellFormed(events[i], i)
    ensures r.Ok? ==> Counted(TotalsOf(events, |events|), |events|, TotalsOf(events, |events|).drops, r.value)
  {
    WellFormedToIff(events, |events|);
    var drops: seq<Identity>, c := [], Counters(0, 0, 0, 0, 0);
    var index := 0;
    while index < |events|
      invariant 0 <= index <= |events|
      invariant WellFormedTo(events, index)
      invariant Counted(TotalsOf(events, index), index, drops, c)
    {
      var complaint;
      complaint, drops, c := CountEvent(events, index, drops, c);
      if complaint.Some? {
        return Err(complaint.value);
      }
      index := index + 1;
    }
    r := Ok(c);
  }

  /** The log is accepted exactly when every event is well formed, tracks were enqueued and dequeued, and
      the reported counts are those of the log. A log has fewer than 2^64 events. */
  method ValidateRawPreparedPlayoutQueueEvents(events: seq<Event>, m: Metrics) returns (r: Result<(), LedgerError>)
    requires |events| < 0x1_0000_0000_0000_0000
    ensures r.Ok? <==> && (forall i :: 0 <= i < |events| ==> WellFormed(events[i], i))
                       && CountsMatch(events, m)
                       && Unrecovered(events) == m.trackDropCount
  {
    var counted := CountEvents(events);
    if counted.Err? {
      return Err(counted.error);
    }
    var c := counted.value;
    TotalsOfLog(events);
    if c.enqueues == 0 {
      return Err(NoEnqueue);
    }
    if c.dequeues == 0 {
      return Err(NoDequeue);
    }
    if c.trackDrops != m.trackDropCount {
      return Err(TrackDropsDisagree);
    }
    if c.silenceDrops != m.silenceDropCount {
      return Err(SilenceDropsDisagree);
    }
    if c.rebuilds != m.rebuildCount {
      return Err(RebuildsDisagree);
    }
    r := Ok(());
  }

  /** The dropped-frame part of the timing budget. */
  method ValidateDroppedFrames(m: Metrics) returns (ok: bool)
    ensures ok <==> m.droppedFrameCount == 0 && m.trackDropCount == 0 && m.silenceDropCount == 0 && m.egressDropCount == 0
  {
    var expected := Sat64(Sat64(m.trackDropCount + m.silenceDropCount) + m.egressDropCount);
    if m.droppedFrameCount != expected {
      return false;
    }
    ok := m.droppedFrameCount == 0;
  }

  /** Both checks in the order the budget validator makes them: a snapshot passes only when every counted
      drop was rebuilt later, one rebuild per drop; and a log with such an assignment and no silence drop
      passes with a zero report. */
  method ValidateBudget(events: seq<Event>, m: Metrics) returns (ok: bool)
    requires |events| < 0x1_0000_0000_0000_0000
    ensures ok <==> && (forall i :: 0 <= i < |events| ==> WellFormed(events[i], i))
                    && CountsMatch(events, m)
                    && m.droppedFrameCount == 0 && m.trackDropCount == 0 && m.silenceDropCount == 0 && m.egressDropCount == 0
                    && exists rebuildOf :: Recovers(events, rebuildOf)
  {
    NoneUnrecoveredIff(events);
    ok := ValidateDroppedFrames(m);
    if ok {
      var ledger := ValidateRawPreparedPlayoutQueueEvents(events, m);
      ok := ledger.Ok?;
    }
  }
}
