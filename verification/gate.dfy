/** The per-channel rate gate: a table from channel to the time of the last
    notification, the decision whether a message may notify, and the
    update made when it does. Times are abstract ticks of a monotonic
    clock. */
module Gate {
  import opened Discord

  /** The cooldown table: for each channel, when its last notification was
      recorded. */
  type Table = map<ChannelId, nat>

  /** Clock ticks per second; the monotonic clock counts nanoseconds. */
  const TicksPerSecond: nat := 1_000_000_000

  /** The cooldown the relay is started with: sixty seconds. */
  const NotificationInterval: nat := 60 * TicksPerSecond

  /** Time since `since`, saturating at zero when `since` lies in the
      future, as the monotonic clock's elapsed time does. */
  function Elapsed(since: nat, now: nat): (d: nat)
    ensures since <= now ==> since + d == now
    ensures now < since ==> d == 0
  {
    if since <= now then now - since else 0
  }

  /** The gate: a channel with no recorded time may notify; otherwise it may
      if at least `interval` has elapsed since the recorded time. */
  function ShouldNotify(table: Table, channel: ChannelId, now: nat, interval: nat): (pass: bool)
    ensures channel !in table ==> pass
    ensures channel in table && table[channel] <= now ==>
              (pass <==> table[channel] + interval <= now)
  {
    if channel in table then Elapsed(table[channel], now) >= interval else true
  }

  /** One inbound message as the gate sees it: the message, the time of the
      gate check and the (later or equal) time that is recorded. */
  datatype Event = Event(msg: Message, now: nat, recordTime: nat)

  /** The event produces a notification: it is eligible and passes the
      gate. */
  predicate Fired(table: Table, interval: nat, e: Event)
  {
    Eligible(e.msg) && ShouldNotify(table, e.msg.channelId, e.now, interval)
  }

  /** The table after handling `e`: a notification records `e.recordTime`
      for the message's channel, whatever became of the dispatch; nothing
      else changes, and a filtered or suppressed message changes nothing. */
  function After(table: Table, interval: nat, e: Event): (next: Table)
    ensures Fired(table, interval, e) ==>
              e.msg.channelId in next && next[e.msg.channelId] == e.recordTime
    ensures !Fired(table, interval, e) ==> next == table
    ensures next.Keys == if Fired(table, interval, e) then table.Keys + {e.msg.channelId} else table.Keys
    ensures forall c :: c in table && c != e.msg.channelId ==> next[c] == table[c]
  {
    if Fired(table, interval, e) then table[e.msg.channelId := e.recordTime] else table
  }

  /** The table after handling `events` in order, starting from `table`. */
  function Run(table: Table, interval: nat, events: seq<Event>): Table
    decreases |events|
  {
    if events == [] then table
    else
      var k := |events| - 1;
      After(Run(table, interval, events[..k]), interval, events[k])
  }

  /** The events among `events` that produced a notification, in order. */
  function Notified(table: Table, interval: nat, events: seq<Event>): (sent: seq<Event>)
    decreases |events|
    ensures |sent| <= |events|
    ensures forall i :: 0 <= i < |sent| ==> sent[i] in events && Eligible(sent[i].msg)
  {
    if events == [] then []
    else
      var k := |events| - 1;
      var before := Run(table, interval, events[..k]);
      Notified(table, interval, events[..k]) + if Fired(before, interval, events[k]) then [events[k]] else []
  }

  /** The clock never runs backwards: each event records no earlier than its
      gate check, and no event is checked before an earlier one recorded. */
  ghost predicate Monotone(events: seq<Event>)
  {
    && (forall i :: 0 <= i < |events| ==> events[i].now <= events[i].recordTime)
    && (forall i, j :: 0 <= i < j < |events| ==> events[i].recordTime <= events[j].now)
  }

  /** Every time in the table is at most `bound`. */
  ghost predicate Bounded(table: Table, bound: nat)
  {
    forall c :: c in table ==> table[c] <= bound
  }

  /** Each notification in `sent` has an entry in `table` no earlier than
      the time it recorded. */
  ghost predicate Recorded(sent: seq<Event>, table: Table)
  {
    forall i :: 0 <= i < |sent| ==>
      sent[i].msg.channelId in table && sent[i].recordTime <= table[sent[i].msg.channelId]
  }

  /** Every time in the table precedes every event's gate check. */
  ghost predicate RecordedBefore(table: Table, events: seq<Event>)
  {
    forall i :: 0 <= i < |events| ==> Bounded(table, events[i].now)
  }

  /** Two notifications for the same channel are at least `interval` apart,
      measured from the earlier one's recorded time to the later one's gate
      check. */
  ghost predicate Spaced(interval: nat, sent: seq<Event>)
  {
    forall i, j :: 0 <= i < j < |sent| && sent[i].msg.channelId == sent[j].msg.channelId ==>
      sent[i].recordTime + interval <= sent[j].now
  }

  /** Every notification for a channel that has an entry in `table` comes
      at least `interval` after that entry. */
  ghost predicate CooledFrom(table: Table, interval: nat, sent: seq<Event>)
  {
    forall i :: 0 <= i < |sent| && sent[i].msg.channelId in table ==>
      table[sent[i].msg.channelId] + interval <= sent[i].now
  }

  /** Handling events never records a time later than every recorded time
      of the events and of the starting table. */
  lemma {:induction false} RunBounded(table: Table, interval: nat, events: seq<Event>, bound: nat)
    requires Bounded(table, bound)
    requires forall i :: 0 <= i < |events| ==> events[i].recordTime <= bound
    ensures Bounded(Run(table, interval, events), bound)
  {
    if events != [] {
      var k := |events| - 1;
      RunBounded(table, interval, events[..k], bound);
    }
  }

  /** A channel's entry only moves forward: after a run with a clock that
      never runs backwards, it is still there and no earlier. */
  lemma {:induction false} RunKeepsEntry(table: Table, interval: nat, events: seq<Event>, c: ChannelId)
    requires Monotone(events)
    requires RecordedBefore(table, events)
    requires c in table
    ensures var final := Run(table, interval, events); c in final && table[c] <= final[c]
  {
    if events != [] {
      var k := |events| - 1;
      RunKeepsEntry(table, interval, events[..k], c);
      RunBounded(table, interval, events[..k], events[k].now);
    }
  }

  /** After a run, every channel that was notified has an entry no earlier
      than the time recorded for each of its notifications. */
  lemma {:induction false} NotifiedRecorded(table: Table, interval: nat, events: seq<Event>)
    requires Monotone(events)
    requires RecordedBefore(table, events)
    ensures Recorded(Notified(table, interval, events), Run(table, interval, events))
  {
    if events != [] {
      var k := |events| - 1;
      var prefix, e := events[..k], events[k];
      NotifiedRecorded(table, interval, prefix);
      var before := Run(table, interval, prefix);
      RunBounded(table, interval, prefix, e.now);
      var earlier, sent := Notified(table, interval, prefix), Notified(table, interval, events);
      var final := After(before, interval, e);
      assert sent == earlier + if Fired(before, interval, e) then [e] else [];
      forall i | 0 <= i < |sent|
        ensures sent[i].msg.channelId in final && sent[i].recordTime <= final[sent[i].msg.channelId]
      {
        if i < |earlier| {
          var c := earlier[i].msg.channelId;
          assert sent[i] == earlier[i];
          assert c in before && earlier[i].recordTime <= before[c];
          if c == e.msg.channelId && Fired(before, interval, e) {
            assert before[c] <= e.now <= e.recordTime;
          }
        }
      }
    }
  }

  /** The cooldown invariant over a whole trace: with a clock that never
      runs backwards, any two notifications for the same channel are at
      least `interval` apart, and the first one for a channel already in
      the starting table is at least `interval` after its entry. */
  lemma {:induction false} NotificationsSpaced(table: Table, interval: nat, events: seq<Event>)
    requires Monotone(events)
    requires RecordedBefore(table, events)
    ensures Spaced(interval, Notified(table, interval, events))
    ensures CooledFrom(table, interval, Notified(table, interval, events))
  {
    if events != [] {
      var k := |events| - 1;
      var prefix, e := events[..k], events[k];
      NotificationsSpaced(table, interval, prefix);
      NotifiedRecorded(table, interval, prefix);
      var before := Run(table, interval, prefix);
      RunBounded(table, interval, prefix, e.now);
      var earlier, sent := Notified(table, interval, prefix), Notified(table, interval, events);
      assert sent == earlier + if Fired(before, interval, e) then [e] else [];
      if Fired(before, interval, e) {
        var c := e.msg.channelId;
        assert sent[|earlier|] == e;
        forall i | 0 <= i < |earlier| && earlier[i].msg.channelId == c
          ensures earlier[i].recordTime + interval <= e.now
        {
          assert c in before && earlier[i].recordTime <= before[c] <= e.now;
        }
        if c in table {
          RunKeepsEntry(table, interval, prefix, c);
          assert table[c] <= before[c] <= e.now;
        }
      }
    }
  }
}
