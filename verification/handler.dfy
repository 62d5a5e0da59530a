/** The message handler: the event callback invoked once per inbound chat
    message. It filters the message, consults the rate gate, resolves the
    channel and author names, composes the notification, dispatches it and
    records the time for the channel. The lock around the cooldown table is
    held from the gate check to the end, so each call is one atomic step on
    the table. */
module Relay {
  import opened Wrappers
  import opened Discord
  import opened Shortener
  import opened Notifier
  import opened Gate
  import opened Template

  /** What one call of the handler did: dropped the message by the filter,
      suppressed it at the gate, or sent a notification with this text
      (`logged` is the send error that was logged and swallowed, if any). */
  datatype Dispatch = Dropped | Suppressed | Sent(text: string, logged: Option<SendError>)

  /** The notification text for `msg`, given the outcomes of the channel
      lookup, the member lookup and the shortening request. */
  function Notification(msg: Message, channel: ChannelLookup, member: MemberLookup, reply: Reply): (text: string)
    ensures |text| >= FixedLength + |msg.content|
    ensures var name, nick, url := ChannelName(channel), NickName(msg.author, msg.guildId, member),
                                    MessageUrl(msg.link, reply);
            Decompose(text, |name|, |nick|, |url|) == Some(Fields(name, nick, msg.content, url))
  {
    var f := Fields(ChannelName(channel), NickName(msg.author, msg.guildId, member),
                    msg.content, MessageUrl(msg.link, reply));
    DecomposeCompose(f);
    Compose(f)
  }

  /** The handler and the cooldown table it owns. `handled` is the history
      of every message passed to it, which the table always summarises. */
  class Handler {
    var last: Table
    const interval: nat
    ghost var handled: seq<Event>

    ghost predicate Valid()
      reads this
    {
      last == Run(map[], interval, handled)
    }

    /** A handler with an empty table; the relay passes the sixty-second
        `NotificationInterval`. */
    constructor (interval: nat)
      ensures Valid() && this.interval == interval
      ensures last == map[] && handled == []
    {
      this.interval := interval;
      last := map[];
      handled := [];
    }

    /** Handles one message whose gate check happens at `now` and whose
        record (after dispatch) happens at `recordTime`. The outcomes of the
        lookups and of the two web requests are given as inputs. */
    method OnMessage(msg: Message, now: nat, recordTime: nat, channel: ChannelLookup,
                     member: MemberLookup, reply: Reply, delivery: Delivery)
      returns (d: Dispatch)
      requires Valid()
      modifies this
      ensures Valid() && handled == old(handled) + [Event(msg, now, recordTime)]
      ensures last == After(old(last), interval, Event(msg, now, recordTime))
      ensures d.Sent? <==> Fired(old(last), interval, Event(msg, now, recordTime))
      ensures Notified(map[], interval, handled)
              == old(Notified(map[], interval, handled)) + if d.Sent? then [Event(msg, now, recordTime)] else []
      ensures d.Dropped? <==> !Eligible(msg)
      ensures d.Suppressed? <==> Eligible(msg) && !ShouldNotify(old(last), msg.channelId, now, interval)
      ensures d.Sent? ==> d.text == Notification(msg, channel, member, reply) && d.logged == GetMsg(delivery)
    {
      handled := handled + [Event(msg, now, recordTime)];
      assert handled[..|handled| - 1] == old(handled);
      if msg.author.bot {
        return Dropped;
      }
      if msg.guildId.None? {
        return Dropped;
      }
      if |msg.content| == 0 {
        return Dropped;
      }
      var channelId := msg.channelId;
      var shouldNotify := ShouldNotify(last, channelId, now, interval);
      if !shouldNotify {
        return Suppressed;
      }
      var link := msg.link;
      var channelName := ChannelName(channel);
      var content := msg.content;
      var messageUrl := MessageUrl(link, reply);
      var nickName := ResolveNickName(msg.author, msg.guildId, member);
      var response := Compose(Fields(channelName, nickName, content, messageUrl));
      var logged := GetMsg(delivery);
      last := last[channelId := recordTime];
      d := Sent(response, logged);
    }
  }

  /** The cooldown invariant for a handler: with a clock that never runs
      backwards, the notifications it has sent are, channel by channel, at
      least its interval apart. */
  lemma HandlerSpaced(h: Handler)
    requires h.Valid() && Monotone(h.handled)
    ensures Spaced(h.interval, Notified(map[], h.interval, h.handled))
  {
    NotificationsSpaced(map[], h.interval, h.handled);
  }

  /** A qualifying message in a channel with no recorded time is sent, and
      its time is recorded. */
  lemma FirstMessagePasses(table: Table, interval: nat, e: Event)
    requires Eligible(e.msg) && e.msg.channelId !in table
    ensures Fired(table, interval, e)
    ensures After(table, interval, e)[e.msg.channelId] == e.recordTime
  {
  }

  /** Once a notification is recorded at `t1`, a qualifying message in the
      same channel checked at `t2` with `t1 <= t2` is suppressed exactly when
      `t2 - t1 < interval`, whatever became of the first dispatch. */
  lemma GateAfterRecord(table: Table, interval: nat, first: Event, second: Event)
    requires Fired(table, interval, first)
    requires Eligible(second.msg) && second.msg.channelId == first.msg.channelId
    requires first.recordTime <= second.now
    ensures Fired(After(table, interval, first), interval, second)
            <==> first.recordTime + interval <= second.now
  {
  }

  /** When the shortener gives no short link, the notification ends with
      the original permalink, character for character. */
  lemma OriginalLinkOnShortenFailure(msg: Message, channel: ChannelLookup, member: MemberLookup, reply: Reply)
    requires !Shortened(reply)
    ensures var text := Notification(msg, channel, member, reply);
            |text| >= |msg.link| && text[|text| - |msg.link|..] == msg.link
  {
  }

  /** The example run: "hello" from Alice in channel "general" with no
      prior record is sent with the template filled in, and the time is
      recorded for the channel. */
  lemma HelloFromAlice(link: string, reply: Reply, now: nat, recordTime: nat)
    ensures var author := User(1, "alice", false);
            var msg := Message(author, Some(7), 42, "hello", link);
            var e := Event(msg, now, recordTime);
            && Fired(map[], NotificationInterval, e)
            && After(map[], NotificationInterval, e) == map[42 := recordTime]
            && Notification(msg, GuildChannel("general"), MemberFound(Some("Alice")), reply)
               == "\ngeneralでAliceからの発言\n--------\nhello\n-------- " + MessageUrl(link, reply)
  {
    assert Lead + "general" == "\ngeneral";
    assert "\ngeneral" + At == "\ngeneralで";
    assert "\ngeneralで" + "Alice" == "\ngeneralでAlice";
    assert "\ngeneralでAlice" + Middle == "\ngeneralでAliceからの発言\n--------\n";
    assert "\ngeneralでAliceからの発言\n--------\n" + "hello" == "\ngeneralでAliceからの発言\n--------\nhello";
    assert "\ngeneralでAliceからの発言\n--------\nhello" + Trailer
        == "\ngeneralでAliceからの発言\n--------\nhello\n-------- ";
  }
}
