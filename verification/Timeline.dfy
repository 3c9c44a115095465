/** What a channel shows (src/store.rs, timeline): the latest events of the channel
    in ascending order of sending time, author and sequence. */
module Timeline {
  import opened Base
  import opened Model
  import opened Crypto
  import opened Ordering
  import opened Tables

  const MAX_SHOWN: nat := 2000

  datatype TimelineEntry = TimelineEntry(event: EventEnvelope, authorName: string, payload: MessagePayload)

  function TimelineKey(key: EventKey, row: EventRow): SortKey {
    SortKey(row.sentAt, key.author, key.sequence, key.group)
  }

  predicate SortsEvent(events: Events, channel: ChannelId, s: SortKey) {
    && 0 < s.third <= I64_MAX && s.text == ""
    && EventKey(s.fourth, s.second, s.third) in events
    && events[EventKey(s.fourth, s.second, s.third)].channel == channel
    && events[EventKey(s.fourth, s.second, s.third)].sentAt == s.first
  }

  function ChannelKeys(events: Events, channel: ChannelId): (keys: set<SortKey>)
    ensures forall s :: s in keys <==> SortsEvent(events, channel, s)
  {
    var keys := set k | k in events && events[k].channel == channel :: TimelineKey(k, events[k]);
    assert forall s :: SortsEvent(events, channel, s) ==>
      s == TimelineKey(EventKey(s.fourth, s.second, s.third), events[EventKey(s.fourth, s.second, s.third)]);
    keys
  }

  function SortedEvent(s: SortKey): EventKey
    requires 0 < s.third <= I64_MAX
  {
    EventKey(s.fourth, s.second, s.third)
  }

  /** A row of the join of events with peers. */
  function EventAt(db: Db, channel: ChannelId, s: SortKey): EventEnvelope
    requires SortsEvent(db.events, channel, s)
  {
    FromRow(SortedEvent(s), db.events[SortedEvent(s)])
  }

  function NameAt(db: Db, s: SortKey): string {
    if s.second in db.peers then db.peers[s.second] else "Unknown peer"
  }

  function SecretOf(db: Db, channel: ChannelId): Secret
    requires channel in db.channels && db.channels[channel].group in db.groups
  {
    db.groups[db.channels[channel].group].secret
  }

  lemma ChannelEventsOpen(db: Db, channel: ChannelId, s: SortKey)
    requires ValidDb(db) && channel in db.channels && s in ChannelKeys(db.events, channel)
    ensures s.fourth == db.channels[channel].group
    ensures ValidateAndOpenEvent(EventAt(db, channel, s), SecretOf(db, channel)).Ok?
  {
    var k := SortedEvent(s);
    assert RowBound(db, k, db.events[k]);
  }

  /** The positions of the channel's events, oldest first. */
  function ChannelOrder(events: Events, channel: ChannelId): (order: seq<SortKey>)
    ensures forall i :: 0 <= i < |order| ==> SortsEvent(events, channel, order[i])
  {
    var keys := ChannelKeys(events, channel);
    SortCorrect(keys);
    var order := Sort(keys);
    assert forall i :: 0 <= i < |order| ==> order[i] in keys;
    order
  }

  function ShownCount(events: Events, channel: ChannelId, limit: nat): nat {
    Min(Min(limit, MAX_SHOWN), |ChannelOrder(events, channel)|)
  }

  /** The positions shown: the last `limit`, at most 2000, of the channel. */
  function ShownOrder(events: Events, channel: ChannelId, limit: nat): (order: seq<SortKey>)
    ensures forall i :: 0 <= i < |order| ==> SortsEvent(events, channel, order[i])
  {
    var all := ChannelOrder(events, channel);
    all[|all| - ShownCount(events, channel, limit)..]
  }

  ghost function EntryAt(db: Db, channel: ChannelId, s: SortKey): TimelineEntry
    requires ValidDb(db) && channel in db.channels && SortsEvent(db.events, channel, s)
  {
    ChannelEventsOpen(db, channel, s);
    var event := EventAt(db, channel, s);
    TimelineEntry(event, NameAt(db, s), ValidateAndOpenEvent(event, SecretOf(db, channel)).value)
  }

  ghost function Shown(db: Db, channel: ChannelId, limit: nat): seq<TimelineEntry>
    requires ValidDb(db) && channel in db.channels
  {
    var order := ShownOrder(db.events, channel, limit);
    seq(|order|, i requires 0 <= i < |order| => EntryAt(db, channel, order[i]))
  }

  /** Strictly earlier in the timeline. */
  predicate Earlier(e: EventHeader, f: EventHeader) {
    || e.sentAt < f.sentAt
    || (e.sentAt == f.sentAt && (e.author < f.author || (e.author == f.author && e.sequence < f.sequence)))
  }

  ghost predicate InChannel(db: Db, channel: ChannelId, key: EventKey) {
    key in db.events && db.events[key].channel == channel
  }

  function StoredNameOr(db: Db, author: PeerId, otherwise: string): string {
    if author in db.peers then db.peers[author] else otherwise
  }

  lemma ShownAt(db: Db, channel: ChannelId, limit: nat, i: nat)
    requires ValidDb(db) && channel in db.channels && i < |Shown(db, channel, limit)|
    ensures var s := ShownOrder(db.events, channel, limit)[i];
            var entry := Shown(db, channel, limit)[i];
            && s.fourth == db.channels[channel].group
            && SequenceFits(entry.event) && KeyOf(entry.event) == SortedEvent(s)
            && entry.event == EventAt(db, channel, s)
            && ValidateAndOpenEvent(entry.event, SecretOf(db, channel)) == Ok(entry.payload)
  {
    ChannelEventsOpen(db, channel, ShownOrder(db.events, channel, limit)[i]);
  }

  lemma OrderIsByTime(db: Db, channel: ChannelId, i: nat, j: nat)
    requires ValidDb(db) && channel in db.channels && i < j < |ChannelOrder(db.events, channel)|
    ensures var all := ChannelOrder(db.events, channel);
            Earlier(EventAt(db, channel, all[i]).header, EventAt(db, channel, all[j]).header)
  {
    var all := ChannelOrder(db.events, channel);
    SortCorrect(ChannelKeys(db.events, channel));
    ChannelEventsOpen(db, channel, all[i]);
    ChannelEventsOpen(db, channel, all[j]);
    assert Before(all[i], all[j]);
  }

  lemma ShownIsEvent(db: Db, channel: ChannelId, limit: nat, i: nat)
    requires ValidDb(db) && channel in db.channels && i < |Shown(db, channel, limit)|
    ensures var entry := Shown(db, channel, limit)[i];
            && SequenceFits(entry.event)
            && InChannel(db, channel, KeyOf(entry.event))
            && entry.event == FromRow(KeyOf(entry.event), db.events[KeyOf(entry.event)])
            && ValidateAndOpenEvent(entry.event, SecretOf(db, channel)) == Ok(entry.payload)
            && entry.authorName == StoredNameOr(db, entry.event.header.author, "Unknown peer")
  {
    hide ValidDb, ValidateAndOpenEvent;
    ShownAt(db, channel, limit, i);
    ChannelEventsOpen(db, channel, ShownOrder(db.events, channel, limit)[i]);
  }

  lemma ShownInOrder(db: Db, channel: ChannelId, limit: nat, i: nat, j: nat)
    requires ValidDb(db) && channel in db.channels && i < j < |Shown(db, channel, limit)|
    ensures Earlier(Shown(db, channel, limit)[i].event.header, Shown(db, channel, limit)[j].event.header)
  {
    hide ValidDb, ValidateAndOpenEvent, ChannelOrder, Earlier;
    var cut := |ChannelOrder(db.events, channel)| - |Shown(db, channel, limit)|;
    ShownAt(db, channel, limit, i);
    ShownAt(db, channel, limit, j);
    OrderIsByTime(db, channel, cut + i, cut + j);
  }

  /** Entries ascend strictly by (sent_at, author, sequence), and each is an event
      of the channel with its payload. */
  lemma ShownAscends(db: Db, channel: ChannelId, limit: nat)
    requires ValidDb(db) && channel in db.channels
    ensures var shown := Shown(db, channel, limit);
            && (forall i, j :: 0 <= i < j < |shown| ==> Earlier(shown[i].event.header, shown[j].event.header))
            && (forall i :: 0 <= i < |shown| ==>
                  && SequenceFits(shown[i].event)
                  && InChannel(db, channel, KeyOf(shown[i].event))
                  && shown[i].event == FromRow(KeyOf(shown[i].event), db.events[KeyOf(shown[i].event)])
                  && ValidateAndOpenEvent(shown[i].event, SecretOf(db, channel)) == Ok(shown[i].payload)
                  && shown[i].authorName == StoredNameOr(db, shown[i].event.header.author, "Unknown peer"))
  {
    assert db.channels[channel].group in db.groups;
    hide ValidDb, ValidateAndOpenEvent, Shown, ChannelOrder, Earlier, EventAt;
    var shown := Shown(db, channel, limit);
    forall i | 0 <= i < |shown|
      ensures SequenceFits(shown[i].event) && InChannel(db, channel, KeyOf(shown[i].event))
      ensures shown[i].event == FromRow(KeyOf(shown[i].event), db.events[KeyOf(shown[i].event)])
      ensures ValidateAndOpenEvent(shown[i].event, SecretOf(db, channel)) == Ok(shown[i].payload)
      ensures shown[i].authorName == StoredNameOr(db, shown[i].event.header.author, "Unknown peer")
    {
      ShownIsEvent(db, channel, limit, i);
    }
    forall i, j | 0 <= i < j < |shown|
      ensures Earlier(shown[i].event.header, shown[j].event.header)
    {
      ShownInOrder(db, channel, limit, i, j);
    }
  }

  lemma PositionOf(events: Events, channel: ChannelId, key: EventKey) returns (p: nat)
    requires key in events && events[key].channel == channel
    ensures p < |ChannelOrder(events, channel)|
    ensures ChannelOrder(events, channel)[p] == TimelineKey(key, events[key])
  {
    var s := TimelineKey(key, events[key]);
    SortCorrect(ChannelKeys(events, channel));
    assert SortsEvent(events, channel, s);
    p :| 0 <= p < |ChannelOrder(events, channel)| && ChannelOrder(events, channel)[p] == s;
  }

  lemma HiddenIsEarlier(db: Db, channel: ChannelId, limit: nat, p: nat, i: nat)
    requires ValidDb(db) && channel in db.channels
    requires p < |ChannelOrder(db.events, channel)| - |Shown(db, channel, limit)|
    requires i < |Shown(db, channel, limit)|
    ensures Earlier(EventAt(db, channel, ChannelOrder(db.events, channel)[p]).header,
              Shown(db, channel, limit)[i].event.header)
  {
    ShownAt(db, channel, limit, i);
    OrderIsByTime(db, channel, p, |ChannelOrder(db.events, channel)| - |Shown(db, channel, limit)| + i);
  }

  /** An event of the channel that is not shown is earlier than all that are, and
      then as many are shown as were asked for, at most 2000. */
  lemma ShownIsLatest(db: Db, channel: ChannelId, limit: nat, key: EventKey)
    requires ValidDb(db) && channel in db.channels && InChannel(db, channel, key)
    ensures var event := FromRow(key, db.events[key]);
            var shown := Shown(db, channel, limit);
            || (exists i :: 0 <= i < |shown| && shown[i].event == event)
            || (|shown| == Min(limit, 2000)
                && forall i :: 0 <= i < |shown| ==> Earlier(event.header, shown[i].event.header))
  {
    hide ValidDb, ValidateAndOpenEvent, ChannelOrder, Earlier;
    var shown := Shown(db, channel, limit);
    var cut := |ChannelOrder(db.events, channel)| - |shown|;
    var p := PositionOf(db.events, channel, key);
    assert EventAt(db, channel, ChannelOrder(db.events, channel)[p]) == FromRow(key, db.events[key]);
    if p >= cut {
      ShownAt(db, channel, limit, p - cut);
      assert shown[p - cut].event == FromRow(key, db.events[key]);
    } else {
      forall i | 0 <= i < |shown|
        ensures Earlier(FromRow(key, db.events[key]).header, shown[i].event.header)
      {
        HiddenIsEarlier(db, channel, limit, p, i);
      }
    }
  }

  ghost predicate SameChannelEvents(d: Db, e: Db, channel: ChannelId) {
    && (forall k :: InChannel(d, channel, k) ==> k in e.events && e.events[k] == d.events[k])
    && (forall k :: InChannel(e, channel, k) ==> k in d.events && d.events[k] == e.events[k])
  }

  /** Replicas with the same events of a channel show the same events with the
      same payloads in the same order, however those events arrived. */
  lemma ReplicasShowTheSame(d: Db, e: Db, channel: ChannelId, limit: nat)
    requires ValidDb(d) && channel in d.channels
    requires ValidDb(e) && channel in e.channels
    requires SameChannelEvents(d, e, channel)
    ensures |Shown(d, channel, limit)| == |Shown(e, channel, limit)|
    ensures forall i :: 0 <= i < |Shown(d, channel, limit)| ==>
              && Shown(d, channel, limit)[i].event == Shown(e, channel, limit)[i].event
              && Shown(d, channel, limit)[i].payload == Shown(e, channel, limit)[i].payload
  {
    hide ValidDb, ValidateAndOpenEvent;
    SameKeys(d, e, channel);
    hide SameChannelEvents, ChannelKeys;
    assert ShownOrder(d.events, channel, limit) == ShownOrder(e.events, channel, limit);
    forall i | 0 <= i < |Shown(d, channel, limit)|
      ensures Shown(d, channel, limit)[i].event == Shown(e, channel, limit)[i].event
      ensures Shown(d, channel, limit)[i].payload == Shown(e, channel, limit)[i].payload
    {
      SameEntry(d, e, channel, limit, i);
    }
  }

  lemma SameKeys(d: Db, e: Db, channel: ChannelId)
    requires SameChannelEvents(d, e, channel)
    ensures ChannelKeys(d.events, channel) == ChannelKeys(e.events, channel)
  {
    forall s
      ensures s in ChannelKeys(d.events, channel) <==> s in ChannelKeys(e.events, channel)
    {
      if 0 < s.third <= I64_MAX {
        assert InChannel(d, channel, SortedEvent(s)) ==> SortedEvent(s) in e.events;
        assert InChannel(e, channel, SortedEvent(s)) ==> SortedEvent(s) in d.events;
      }
    }
  }

  lemma SameEntry(d: Db, e: Db, channel: ChannelId, limit: nat, i: nat)
    requires ValidDb(d) && channel in d.channels && ValidDb(e) && channel in e.channels
    requires SameChannelEvents(d, e, channel)
    requires ShownOrder(d.events, channel, limit) == ShownOrder(e.events, channel, limit)
    requires i < |Shown(d, channel, limit)|
    ensures Shown(d, channel, limit)[i].event == Shown(e, channel, limit)[i].event
    ensures Shown(d, channel, limit)[i].payload == Shown(e, channel, limit)[i].payload
  {
    assert d.channels[channel].group in d.groups && e.channels[channel].group in e.groups;
    hide ValidDb, ValidateAndOpenEvent, ShownOrder;
    ShownAt(d, channel, limit, i);
    ShownAt(e, channel, limit, i);
    ShownIsEvent(d, channel, limit, i);
    ShownIsEvent(e, channel, limit, i);
    OpensUnderOneSecret(Shown(d, channel, limit)[i].event, SecretOf(d, channel), SecretOf(e, channel));
  }
}
