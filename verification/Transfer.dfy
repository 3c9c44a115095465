/** Serving range requests in pages and batches, and taking what comes back
    (src/network.rs, send_requested_events and receive_requested_events). */
module Transfer {
  import opened Base
  import opened Text
  import opened Model
  import opened Tables
  import opened Delivery
  import opened Inventory
  import opened Wire
  import opened EventStore

  const MAX_REQUESTS: nat := 10_000

  function EventsOf(wires: seq<WireEvent>): seq<EventEnvelope> {
    if wires == [] then [] else [wires[0].event] + EventsOf(wires[1..])
  }

  function WiresOf(frame: Frame): seq<WireEvent> {
    if frame.EventBatch? then frame.wires else []
  }

  /** The events of a stream of records, in order. */
  function Flatten(frames: seq<Frame>): seq<WireEvent> {
    if frames == [] then [] else WiresOf(frames[0]) + Flatten(frames[1..])
  }

  lemma {:induction false} EventsOfConcat(xs: seq<WireEvent>, ys: seq<WireEvent>)
    ensures EventsOf(xs + ys) == EventsOf(xs) + EventsOf(ys)
  {
    if xs == [] {
      assert xs + ys == ys;
    } else {
      var all := xs + ys;
      assert all[0] == xs[0] && all[1..] == xs[1..] + ys;
      EventsOfConcat(xs[1..], ys);
    }
  }

  lemma {:induction false} FlattenConcat(xs: seq<Frame>, ys: seq<Frame>)
    ensures Flatten(xs + ys) == Flatten(xs) + Flatten(ys)
  {
    if xs == [] {
      assert xs + ys == ys;
    } else {
      var all := xs + ys;
      assert all[0] == xs[0] && all[1..] == xs[1..] + ys;
      FlattenConcat(xs[1..], ys);
    }
  }

  lemma FlattenOne(wires: seq<WireEvent>)
    ensures Flatten([EventBatch(wires)]) == wires
  {
    assert [EventBatch(wires)][1..] == [];
  }

  lemma {:induction false} EstimatesPush(wires: seq<WireEvent>, wire: WireEvent)
    ensures Estimates(wires + [wire]) == Estimates(wires) + Estimate(wire)
  {
    if wires == [] {
      assert (wires + [wire])[1..] == [];
    } else {
      EstimatesPush(wires[1..], wire);
      assert (wires + [wire])[1..] == wires[1..] + [wire];
    }
  }

  // ---------------------------------------------------------------- ranges

  predicate AscendingSequences(es: seq<EventEnvelope>) {
    es == [] ||
    ((forall e :: e in es[1..] ==> es[0].header.sequence < e.header.sequence) && AscendingSequences(es[1..]))
  }

  /** Equivalently, each event precedes all later ones. */
  predicate PairwiseAscending(es: seq<EventEnvelope>) {
    forall i, j :: 0 <= i < j < |es| ==> es[i].header.sequence < es[j].header.sequence
  }

  lemma {:induction false} AscendingIsPairwise(es: seq<EventEnvelope>)
    ensures AscendingSequences(es) <==> PairwiseAscending(es)
  {
    if es != [] {
      var rest := es[1..];
      AscendingIsPairwise(rest);
      assert forall i :: 0 <= i < |rest| ==> rest[i] == es[i + 1];
      if AscendingSequences(es) {
        forall i, j | 0 <= i < j < |es|
          ensures es[i].header.sequence < es[j].header.sequence
        {
          assert es[j] == rest[j - 1] && es[j] in rest;
          assert i > 0 ==> es[i] == rest[i - 1];
        }
      }
    }
  }

  /** The stored event with sequence n. */
  function EventAtSequence(events: Events, group: GroupId, author: PeerId, n: int): EventEnvelope
    requires Held(events, group, author, n)
  {
    FromRow(EventKey(group, author, n), events[EventKey(group, author, n)])
  }

  predicate StoredInRange(events: Events, group: GroupId, author: PeerId, first: int, last: int, e: EventEnvelope) {
    && first <= e.header.sequence <= last
    && Held(events, group, author, e.header.sequence)
    && e == EventAtSequence(events, group, author, e.header.sequence)
  }

  /** A range lists exactly the stored events with sequence in it, ascending. */
  lemma {:induction false} RangeListExactly(events: Events, group: GroupId, author: PeerId, first: int, last: int)
    ensures AscendingSequences(RangeList(events, group, author, first, last))
    ensures forall e :: e in RangeList(events, group, author, first, last) <==>
              StoredInRange(events, group, author, first, last, e)
    decreases last - first
  {
    if first <= last {
      RangeListExactly(events, group, author, first + 1, last);
      var rest := RangeList(events, group, author, first + 1, last);
      if Held(events, group, author, first) {
        assert RangeList(events, group, author, first, last)[1..] == rest;
      } else {
        assert RangeList(events, group, author, first, last) == rest;
      }
    }
  }

  lemma {:induction false} AscendingListUnique(xs: seq<EventEnvelope>, ys: seq<EventEnvelope>)
    requires AscendingSequences(xs) && AscendingSequences(ys)
    requires forall e :: e in xs <==> e in ys
    ensures xs == ys
  {
    AscendingIsPairwise(xs);
    AscendingIsPairwise(ys);
    assert xs != [] ==> xs[0] in xs;
    assert ys != [] ==> ys[0] in ys;
    if xs != [] && ys != [] {
      var x, y := xs[0], ys[0];
      assert x in ys && y in xs;
      var i :| 0 <= i < |xs| && xs[i] == y;
      var j :| 0 <= j < |ys| && ys[j] == x;
      assert x == y;
      var xt, yt := xs[1..], ys[1..];
      assert forall k :: 0 <= k < |xt| ==> xt[k] == xs[k + 1] && xt[k] != x;
      assert forall k :: 0 <= k < |yt| ==> yt[k] == ys[k + 1] && yt[k] != x;
      assert forall e :: e in xs <==> e == x || e in xt;
      assert forall e :: e in ys <==> e == x || e in yt;
      AscendingListUnique(xt, yt);
    }
  }

  /** What one request brings when the store may grow while it is served: an
      ascending list of stored events of the range, with all that were there at the
      start and none that is not there at the end. */
  ghost predicate Serves(before: Events, after: Events, r: RangeRequest, sent: seq<EventEnvelope>) {
    && AscendingSequences(sent)
    && (forall i :: 0 <= i < |sent| ==> StoredInRange(after, r.group, r.author, r.first, r.last, sent[i]))
    && (forall n :: r.first <= n <= r.last && Held(before, r.group, r.author, n) ==>
          EventAtSequence(before, r.group, r.author, n) in sent)
  }

  /** On a store at rest that leaves one list: exactly the stored events of the range. */
  lemma ServesAtRest(events: Events, r: RangeRequest, sent: seq<EventEnvelope>)
    requires Serves(events, events, r, sent)
    ensures sent == RangeList(events, r.group, r.author, r.first, r.last)
  {
    var list := RangeList(events, r.group, r.author, r.first, r.last);
    RangeListExactly(events, r.group, r.author, r.first, r.last);
    assert forall e :: e in sent ==> e in list;
    forall e | e in list
      ensures e in sent
    {
      assert StoredInRange(events, r.group, r.author, r.first, r.last, e);
    }
    AscendingListUnique(sent, list);
  }

  // ---------------------------------------------------------------- sending

  /** All lengths of a table are 64-bit sizes. */
  ghost predicate SizesFit(db: Db) {
    && (forall k :: k in db.events ==>
          CiphertextLen(db.events[k].ciphertext) <= U64_MAX && SignatureLen(db.events[k].signature) <= U64_MAX)
    && (forall p :: ByteLen(AuthorName(db, p)) <= U64_MAX)
  }

  /** The store as seen at each taking of its lock; after the last state it rests. */
  type History = h: seq<Db> | |h| > 0 witness [EMPTY_DB]

  function View(history: History, clock: nat): Db {
    if clock < |history| then history[clock] else history[|history| - 1]
  }

  ghost predicate Grows(history: History, i: nat, j: nat) {
    i <= j ==> Extends(View(history, i), View(history, j))
  }

  ghost predicate Sized(history: History, i: nat) {
    SizesFit(View(history, i))
  }

  /** The store only ever grows. */
  ghost predicate Growing(history: History) {
    && (forall i, j :: Grows(history, i, j))
    && (forall i :: Sized(history, i))
  }

  ghost predicate AllBatches(frames: seq<Frame>) {
    forall i :: 0 <= i < |frames| ==>
      frames[i].EventBatch? && BatchRule(frames[i].wires) && BatchLen(frames[i].wires) <= MAX_FRAME_BYTES
  }

  ghost predicate StoredEvent(events: Events, e: EventEnvelope) {
    SequenceFits(e) && KeyOf(e) in events && e == FromRow(KeyOf(e), events[KeyOf(e)])
  }

  predicate IsOf(wire: WireEvent, k: EventKey) {
    SequenceFits(wire.event) && KeyOf(wire.event) == k
  }

  ghost predicate AllStored(events: Events, es: seq<EventEnvelope>) {
    forall i :: 0 <= i < |es| ==> StoredEvent(events, es[i])
  }

  lemma StoredIsAddressable(history: History, i: nat, j: nat, e: EventEnvelope)
    requires Growing(history) && StoredEvent(View(history, i).events, e)
    ensures Addressable(WireEvent(e, AuthorName(View(history, j), e.header.author)))
  {
    assert Sized(history, i) && Sized(history, j);
  }

  /** On its own, and with the name that its author has at that moment, the event
      exceeds a frame. */
  ghost predicate TooLargeAt(history: History, clock: nat, e: EventEnvelope) {
    BatchLen([WireEvent(e, AuthorName(View(history, clock), e.header.author))]) > MAX_FRAME_BYTES
  }

  ghost predicate TooLarge(history: History, e: EventEnvelope) {
    exists clock :: TooLargeAt(history, clock, e)
  }

  /** send_frame: the encoded record must be within the frame limit. */
  predicate FrameFits(frame: Frame) {
    frame.EventBatch? ==> BatchLen(frame.wires) <= MAX_FRAME_BYTES
  }

  /** The batch being filled: within budget unless it is a single event. */
  ghost predicate Filling(history: History, events: Events, batch: seq<WireEvent>, bytes: nat) {
    && bytes == Estimates(batch)
    && (batch == [] || BatchRule(batch)) && AllNamed(history, batch)
    && (forall i :: 0 <= i < |batch| ==> Addressable(batch[i]) && StoredEvent(events, batch[i].event))
  }

  ghost predicate NamedAt(history: History, clock: nat, wire: WireEvent) {
    wire.authorName == AuthorName(View(history, clock), wire.event.header.author)
  }

  /** The name sent with an event is the one the store had for its author at some
      moment of the transfer. */
  ghost predicate KnownName(history: History, wire: WireEvent) {
    exists clock :: NamedAt(history, clock, wire)
  }

  ghost predicate AllNamed(history: History, wires: seq<WireEvent>) {
    forall i :: 0 <= i < |wires| ==> KnownName(history, wires[i])
  }

  lemma NamedConcat(history: History, xs: seq<WireEvent>, ys: seq<WireEvent>)
    requires AllNamed(history, xs) && AllNamed(history, ys)
    ensures AllNamed(history, xs + ys)
  {
  }

  /** These records are batches within the rules, and these are their events. */
  ghost predicate Carries(history: History, frames: seq<Frame>, es: seq<EventEnvelope>) {
    AllBatches(frames) && EventsOf(Flatten(frames)) == es && AllNamed(history, Flatten(frames))
  }

  lemma FlushStep(history: History, frames: seq<Frame>, es: seq<EventEnvelope>, batch: seq<WireEvent>)
    requires Carries(history, frames, es) && BatchRule(batch) && FrameFits(EventBatch(batch)) &&
               AllNamed(history, batch)
    ensures Carries(history, frames + [EventBatch(batch)], es + EventsOf(batch))
  {
    FlattenConcat(frames, [EventBatch(batch)]);
    FlattenOne(batch);
    EventsOfConcat(Flatten(frames), batch);
    NamedConcat(history, Flatten(frames), batch);
  }

  lemma PushStep(history: History, events: Events, batch: seq<WireEvent>, bytes: nat, wire: WireEvent)
    requires Filling(history, events, batch, bytes)
    requires batch == [] || bytes + Estimate(wire) <= SYNC_BATCH_BYTES
    requires Addressable(wire) && StoredEvent(events, wire.event) && KnownName(history, wire)
    ensures Filling(history, events, batch + [wire], bytes + Estimate(wire))
    ensures EventsOf(batch + [wire]) == EventsOf(batch) + [wire.event]
  {
    EstimatesPush(batch, wire);
    EventsOfConcat(batch, [wire]);
    assert EventsOf([wire]) == [wire.event];
  }

  lemma PrefixStep<T>(sent: seq<T>, held: seq<T>, page: seq<T>, i: nat)
    requires i < |page| && sent + held == page[..i]
    ensures sent + (held + [page[i]]) == page[..i + 1]
  {
    assert sent + (held + [page[i]]) == sent + held + [page[i]];
  }

  lemma CarriesMeans(history: History, frames: seq<Frame>, es: seq<EventEnvelope>)
    requires Carries(history, frames, es)
    ensures AllBatches(frames) && EventsOf(Flatten(frames)) == es
  {
  }

  lemma NothingYet(history: History, events: Events)
    ensures Carries(history, [], []) && Filling(history, events, [], 0) && EventsOf([]) == []
  {
  }

  /** Only a batch of a single event can be refused. */
  lemma OversizedBatch(history: History, events: Events, batch: seq<WireEvent>, bytes: nat)
    requires Filling(history, events, batch, bytes) && BatchLen(batch) > MAX_FRAME_BYTES && batch != []
    ensures |batch| == 1 && TooLarge(history, batch[0].event)
  {
    if |batch| > 1 {
      MultiBatchFits(batch);
    }
    assert batch == [batch[0]];
    var clock :| NamedAt(history, clock, batch[0]);
    assert TooLargeAt(history, clock, batch[0].event);
  }

  /** Sends the batch if it is not empty. */
  method Flush(ghost history: History, ghost events: Events, frames: seq<Frame>, ghost es: seq<EventEnvelope>,
               batch: seq<WireEvent>, ghost bytes: nat)
    returns (sent: seq<Frame>, error: Option<Error>)
    requires Carries(history, frames, es) && Filling(history, events, batch, bytes)
    ensures error.None? ==> Carries(history, sent, es + EventsOf(batch))
    ensures error.None? ==> sent == if batch == [] then frames else frames + [EventBatch(batch)]
    ensures error.Some? ==>
              sent == frames && error.value == FrameTooLarge && |batch| == 1 && TooLarge(history, batch[0].event)
  {
    sent, error := frames, None;
    if batch != [] {
      if !FrameFits(EventBatch(batch)) {
        OversizedBatch(history, events, batch, bytes);
        return frames, Some(FrameTooLarge);
      }
      FlushStep(history, frames, es, batch);
      sent := frames + [EventBatch(batch)];
    } else {
      assert es + EventsOf(batch) == es;
    }
  }

  /** The first i events of a page are sent or in the batch. */
  ghost predicate Sending(history: History, events: Events, page: seq<EventEnvelope>, i: nat,
                          frames: seq<Frame>, done: seq<EventEnvelope>, batch: seq<WireEvent>, bytes: nat) {
    && i <= |page| && Carries(history, frames, done) && Filling(history, events, batch, bytes)
    && done + EventsOf(batch) == page[..i]
  }

  /** All events of the page before one that is too large are out, and no other. */
  ghost predicate CutShort(history: History, page: seq<EventEnvelope>, frames: seq<Frame>, error: Error) {
    var n := |EventsOf(Flatten(frames))|;
    error == FrameTooLarge && n < |page| && Carries(history, frames, page[..n]) && TooLarge(history, page[n])
  }

  lemma SendingCut(history: History, events: Events, page: seq<EventEnvelope>, i: nat,
                   frames: seq<Frame>, done: seq<EventEnvelope>, batch: seq<WireEvent>, bytes: nat)
    requires Sending(history, events, page, i, frames, done, batch, bytes)
    ensures |batch| == 1 && TooLarge(history, batch[0].event) ==> CutShort(history, page, frames, FrameTooLarge)
  {
    hide Filling, TooLarge;
    if |batch| == 1 {
      assert EventsOf(batch) == [batch[0].event];
      assert done == page[..|done|] && page[|done|] == batch[0].event by {
        LastOfPrefix(done, batch[0].event, page, i);
      }
      CarriesMeans(history, frames, done);
    }
  }

  lemma LastOfPrefix<T>(xs: seq<T>, x: T, all: seq<T>, i: nat)
    requires i <= |all| && xs + [x] == all[..i]
    ensures |xs| + 1 == i && xs == all[..|xs|] && all[|xs|] == x
  {
    var whole := xs + [x];
    assert whole[|xs|] == x && whole[..|xs|] == xs;
  }

  lemma SendingPush(history: History, events: Events, page: seq<EventEnvelope>, i: nat,
                    frames: seq<Frame>, done: seq<EventEnvelope>, batch: seq<WireEvent>, bytes: nat, wire: WireEvent)
    requires Sending(history, events, page, i, frames, done, batch, bytes) && i < |page| && wire.event == page[i]
    requires batch == [] || bytes + Estimate(wire) <= SYNC_BATCH_BYTES
    requires Addressable(wire) && StoredEvent(events, wire.event) && KnownName(history, wire)
    ensures Sending(history, events, page, i + 1, frames, done, batch + [wire], bytes + Estimate(wire))
  {
    hide Carries, Filling, KnownName, StoredEvent, EventsOf, Estimate;
    PushStep(history, events, batch, bytes, wire);
    PrefixStep(done, EventsOf(batch), page, i);
  }

  lemma SendingFlushed(history: History, events: Events, page: seq<EventEnvelope>, i: nat,
                       frames: seq<Frame>, done: seq<EventEnvelope>, batch: seq<WireEvent>, bytes: nat,
                         sent: seq<Frame>)
    requires Sending(history, events, page, i, frames, done, batch, bytes)
    requires Carries(history, sent, done + EventsOf(batch))
    ensures Sending(history, events, page, i, sent, page[..i], [], 0)
  {
    hide Carries, AllNamed;
    NothingYet(history, events);
    assert page[..i] + [] == page[..i];
  }

  /** No batch was cut before it had to be: the first event of the next one would have
      taken it beyond 12 MiB. */
  ghost predicate CutLate(frames: seq<Frame>) {
    forall i :: 0 < i < |frames| ==> WouldOverflow(WiresOf(frames[i - 1]), WiresOf(frames[i]))
  }

  ghost predicate WouldOverflow(batch: seq<WireEvent>, next: seq<WireEvent>) {
    next != [] ==> Estimates(batch) + Estimate(next[0]) > 12_582_912
  }

  /** The same with the batch being filled as the next one. */
  ghost predicate Packed(frames: seq<Frame>, batch: seq<WireEvent>) {
    CutLate(frames) && (frames != [] ==> WouldOverflow(WiresOf(frames[|frames| - 1]), batch))
  }

  lemma PackedFlush(frames: seq<Frame>, batch: seq<WireEvent>, bytes: nat, wire: WireEvent)
    requires Packed(frames, batch) && bytes == Estimates(batch) && bytes + Estimate(wire) > SYNC_BATCH_BYTES
    ensures Packed(frames + [EventBatch(batch)], [wire])
  {
    hide Estimate, Estimates;
  }

  lemma PackedPush(frames: seq<Frame>, batch: seq<WireEvent>, wire: WireEvent)
    requires Packed(frames, batch) && batch != []
    ensures Packed(frames, batch + [wire])
  {
    hide Estimate, Estimates;
  }

  lemma PackedStarts(frames: seq<Frame>)
    requires Packed(frames, []) && frames == []
    ensures forall wire :: Packed(frames, [wire])
  {
  }

  lemma PackedEnds(frames: seq<Frame>, batch: seq<WireEvent>)
    requires Packed(frames, batch)
    ensures CutLate(frames) && CutLate(frames + [EventBatch(batch)])
  {
    hide Estimate, Estimates;
  }

  /** One event of a page: the batch goes out first if the event does not fit it. */
  method SendOne(history: History, start: nat, clock: nat, page: seq<EventEnvelope>, i: nat,
                 frames: seq<Frame>, batch: seq<WireEvent>, bytes: nat, ghost done: seq<EventEnvelope>)
    returns (sent: seq<Frame>, next: seq<WireEvent>, size: nat, error: Option<Error>, ghost gone: seq<EventEnvelope>)
    requires Growing(history) && AllStored(View(history, start).events, page) && i < |page|
    requires Sending(history, View(history, start).events, page, i, frames, done, batch, bytes)
    requires Packed(frames, batch) && (batch == [] ==> frames == [])
    ensures error.None? ==> Sending(history, View(history, start).events, page, i + 1, sent, gone, next, size)
    ensures error.None? ==> Packed(sent, next) && next != []
    ensures error.Some? ==> CutShort(history, page, sent, error.value) && CutLate(sent)
  {
    ghost var events := View(history, start).events;
    var wire := WireEvent(page[i], AuthorName(View(history, clock), page[i].header.author));
    StoredIsAddressable(history, start, clock, page[i]);
    assert NamedAt(history, clock, wire);
    SendingCut(history, events, page, i, frames, done, batch, bytes);
    PackedEnds(frames, batch);
    assert bytes == Estimates(batch);
    hide Carries, AllNamed, Growing, EventsOf, Flatten, Estimate, AuthorName, AllBatches, TooLarge, CutShort,
         StoredEvent, Packed, CutLate, Estimates;
    sent, next, size, error, gone := frames, batch, bytes, None, done;
    if batch != [] && bytes + Estimate(wire) > SYNC_BATCH_BYTES {
      sent, error := Flush(history, events, frames, done, batch, bytes);
      if error.Some? {
        return;
      }
      SendingFlushed(history, events, page, i, frames, done, batch, bytes, sent);
      PackedFlush(frames, batch, bytes, wire);
      next, size, gone := [], 0, page[..i];
    } else if batch == [] {
      PackedStarts(frames);
    } else {
      PackedPush(frames, batch, wire);
    }
    SendingPush(history, events, page, i, sent, gone, next, size, wire);
    assert [] + [wire] == [wire];
    next, size := next + [wire], size + Estimate(wire);
  }

  /** One page of events, cut into batches as the byte budget demands. The records
      carry exactly the page, in order, in batches no smaller than they must be; the only
      refusal is an event that on its own exceeds a frame, and then exactly the events
      before it went out. */
  method SendPage(history: History, start: nat, page: seq<EventEnvelope>)
    returns (frames: seq<Frame>, clock: nat, error: Option<Error>)
    requires Growing(history) && AllStored(View(history, start).events, page)
    ensures clock >= start && CutLate(frames)
    ensures error.None? ==> Carries(history, frames, page)
    ensures error.Some? ==> CutShort(history, page, frames, error.value)
  {
    hide Carries, Filling, Growing, EventsOf, Flatten, AllBatches, CutShort, TooLarge, Sending, Packed, CutLate,
         AllStored;
    frames, clock, error := [], start, None;
    ghost var events := View(history, start).events;
    var batch: seq<WireEvent> := [];
    var bytes: nat := 0;
    ghost var done: seq<EventEnvelope> := [];
    SendingStarts(history, events, page);
    for i := 0 to |page|
      invariant clock >= start && error.None?
      invariant Sending(history, events, page, i, frames, done, batch, bytes)
      invariant Packed(frames, batch) && (batch == [] ==> frames == [])
    {
      clock := clock + 1;
      frames, batch, bytes, error, done := SendOne(history, start, clock, page, i, frames, batch, bytes, done);
      if error.Some? {
        return;
      }
    }
    SendingEnds(history, events, page, frames, done, batch, bytes);
    PackedEnds(frames, batch);
    frames, error := Flush(history, events, frames, done, batch, bytes);
  }

  lemma SendingStarts(history: History, events: Events, page: seq<EventEnvelope>)
    ensures Sending(history, events, page, 0, [], [], [], 0) && Packed([], [])
  {
    NothingYet(history, events);
  }

  lemma SendingEnds(history: History, events: Events, page: seq<EventEnvelope>, frames: seq<Frame>,
                    done: seq<EventEnvelope>, batch: seq<WireEvent>, bytes: nat)
    requires Sending(history, events, page, |page|, frames, done, batch, bytes)
    ensures Carries(history, frames, done) && Filling(history, events, batch, bytes)
    ensures done + EventsOf(batch) == page
    ensures |batch| == 1 && TooLarge(history, batch[0].event) ==> CutShort(history, page, frames, FrameTooLarge)
  {
    SendingCut(history, events, page, |page|, frames, done, batch, bytes);
    hide Carries, Filling, EventsOf, TooLarge, CutShort;
    assert page[..|page|] == page;
  }

  /** As Serves, for the part of the range below the cursor. */
  ghost predicate Progress(before: Events, now: Events, r: RangeRequest, cursor: int, sent: seq<EventEnvelope>) {
    && AscendingSequences(sent)
    && (forall i :: 0 <= i < |sent| ==> StoredInRange(now, r.group, r.author, r.first, cursor - 1, sent[i]))
    && (forall n :: r.first <= n < cursor && Held(before, r.group, r.author, n) ==>
          EventAtSequence(before, r.group, r.author, n) in sent)
  }

  ghost predicate Included(events: Events, later: Events) {
    forall k :: k in events ==> k in later && later[k] == events[k]
  }

  lemma ProgressLater(before: Events, now: Events, later: Events, r: RangeRequest, cursor: int,
                      sent: seq<EventEnvelope>)
    requires Progress(before, now, r, cursor, sent) && Included(now, later)
    ensures Progress(before, later, r, cursor, sent)
  {
  }

  lemma GrowthIncludes(history: History, i: nat, j: nat)
    requires Growing(history) && i <= j
    ensures Included(View(history, i).events, View(history, j).events)
  {
    assert Grows(history, i, j);
  }

  lemma AscendingJoin(xs: seq<EventEnvelope>, ys: seq<EventEnvelope>, n: int, cut: nat)
    requires AscendingSequences(xs) && AscendingSequences(ys) && cut <= |ys|
    requires forall i :: 0 <= i < |xs| ==> xs[i].header.sequence < n
    requires forall i :: 0 <= i < |ys| ==> n <= ys[i].header.sequence
    ensures AscendingSequences(xs + ys[..cut])
    ensures forall i, j :: 0 <= i < j < |ys| ==> ys[i].header.sequence < ys[j].header.sequence
  {
    AscendingIsPairwise(xs);
    AscendingIsPairwise(ys);
    AscendingIsPairwise(xs + ys[..cut]);
  }

  lemma PageCovers(before: Events, now: Events, r: RangeRequest, cursor: int, size: nat, n: int)
    requires Included(before, now) && cursor <= n <= r.last && Held(before, r.group, r.author, n)
    requires 0 < size <= |RangeList(now, r.group, r.author, cursor, r.last)|
    requires n <= RangeList(now, r.group, r.author, cursor, r.last)[size - 1].header.sequence
    ensures EventAtSequence(before, r.group, r.author, n) in RangeList(now, r.group, r.author, cursor, r.last)[..size]
  {
    var list := RangeList(now, r.group, r.author, cursor, r.last);
    RangeListExactly(now, r.group, r.author, cursor, r.last);
    AscendingIsPairwise(list);
    var e := EventAtSequence(now, r.group, r.author, n);
    assert StoredInRange(now, r.group, r.author, cursor, r.last, e);
    var j :| 0 <= j < |list| && list[j] == e;
    assert list[..size][j] == e;
  }

  lemma PageInRange(now: Events, r: RangeRequest, cursor: int, size: nat)
    requires r.first <= cursor && 0 < size <= |RangeList(now, r.group, r.author, cursor, r.last)|
    ensures var list := RangeList(now, r.group, r.author, cursor, r.last);
            var last := list[size - 1].header.sequence;
            && cursor <= last <= r.last
            && AscendingSequences(list)
            && (forall i :: 0 <= i < |list| ==> cursor <= list[i].header.sequence)
            && (forall i :: 0 <= i < size ==> StoredInRange(now, r.group, r.author, r.first, last, list[..size][i]))
  {
    var list := RangeList(now, r.group, r.author, cursor, r.last);
    RangeListExactly(now, r.group, r.author, cursor, r.last);
    AscendingIsPairwise(list);
    assert forall i :: 0 <= i < |list| ==> list[i] in list;
  }

  lemma PageStep(before: Events, now: Events, r: RangeRequest, cursor: int, sent: seq<EventEnvelope>, size: nat)
    requires Included(before, now) && Progress(before, now, r, cursor, sent)
    requires r.first <= cursor
    requires 0 < size <= |RangeList(now, r.group, r.author, cursor, r.last)|
    ensures var page := RangeList(now, r.group, r.author, cursor, r.last)[..size];
            var next := page[size - 1].header.sequence + 1;
            cursor < next <= r.last + 1 && Progress(before, now, r, next, sent + page)
  {
    var list := RangeList(now, r.group, r.author, cursor, r.last);
    var page := list[..size];
    PageInRange(now, r, cursor, size);
    AscendingJoin(sent, list, cursor, size);
    forall n | r.first <= n < page[size - 1].header.sequence + 1 && Held(before, r.group, r.author, n)
      ensures EventAtSequence(before, r.group, r.author, n) in sent + page
    {
      if n >= cursor {
        PageCovers(before, now, r, cursor, size, n);
      }
    }
  }

  /** Where a page stops before its event n, the range is done up to that event. */
  lemma HaltStep(before: Events, now: Events, r: RangeRequest, cursor: int, sent: seq<EventEnvelope>, n: nat)
    requires Included(before, now) && Progress(before, now, r, cursor, sent) && r.first <= cursor
    requires n < |RangeList(now, r.group, r.author, cursor, r.last)|
    ensures var list := RangeList(now, r.group, r.author, cursor, r.last);
            var at := list[n].header.sequence;
            && r.first <= at <= r.last && Held(now, r.group, r.author, at)
            && list[n] == EventAtSequence(now, r.group, r.author, at)
            && Progress(before, now, r, at, sent + list[..n])
  {
    var list := RangeList(now, r.group, r.author, cursor, r.last);
    RangeListExactly(now, r.group, r.author, cursor, r.last);
    assert list[n] in list && StoredInRange(now, r.group, r.author, cursor, r.last, list[n]);
    if n == 0 {
      NothingBelowFirst(before, now, r, cursor, sent);
      assert sent + list[..0] == sent;
    } else {
      PageStep(before, now, r, cursor, sent, n);
      NothingBetween(before, now, r, cursor, sent + list[..n], n);
    }
  }

  lemma NothingBelowFirst(before: Events, now: Events, r: RangeRequest, cursor: int, sent: seq<EventEnvelope>)
    requires Included(before, now) && Progress(before, now, r, cursor, sent) && r.first <= cursor
    requires RangeList(now, r.group, r.author, cursor, r.last) != []
    ensures Progress(before, now, r, RangeList(now, r.group, r.author, cursor, r.last)[0].header.sequence, sent)
  {
    var list := RangeList(now, r.group, r.author, cursor, r.last);
    RangeListExactly(now, r.group, r.author, cursor, r.last);
    AscendingIsPairwise(list);
    assert list[0] in list;
    assert forall n :: cursor <= n <= r.last && Held(now, r.group, r.author, n) ==>
      StoredInRange(now, r.group, r.author, cursor, r.last, EventAtSequence(now, r.group, r.author, n));
    assert forall e :: e in list ==> list[0].header.sequence <= e.header.sequence;
  }

  lemma NothingBetween(before: Events, now: Events, r: RangeRequest, cursor: int, sent: seq<EventEnvelope>, n: nat)
    requires Included(before, now) && r.first <= cursor
    requires 0 < n < |RangeList(now, r.group, r.author, cursor, r.last)|
    requires var last := RangeList(now, r.group, r.author, cursor, r.last)[n - 1];
             Progress(before, now, r, last.header.sequence + 1, sent)
    ensures Progress(before, now, r, RangeList(now, r.group, r.author, cursor, r.last)[n].header.sequence, sent)
  {
    var list := RangeList(now, r.group, r.author, cursor, r.last);
    RangeListExactly(now, r.group, r.author, cursor, r.last);
    AscendingIsPairwise(list);
    assert list[n - 1] in list && list[n] in list;
    assert forall m :: Held(before, r.group, r.author, m) ==> Held(now, r.group, r.author, m);
    forall m | cursor <= m <= r.last && Held(now, r.group, r.author, m)
      ensures m <= list[n - 1].header.sequence || list[n].header.sequence <= m
    {
      var e := EventAtSequence(now, r.group, r.author, m);
      assert StoredInRange(now, r.group, r.author, cursor, r.last, e);
      var j :| 0 <= j < |list| && list[j] == e;
    }
  }

  lemma EmptyPageEnds(before: Events, now: Events, r: RangeRequest, cursor: int, sent: seq<EventEnvelope>)
    requires Included(before, now) && Progress(before, now, r, cursor, sent)
    requires r.first <= cursor <= r.last + 1
    requires RangeList(now, r.group, r.author, cursor, r.last) == []
    ensures Serves(before, now, r, sent)
  {
    assert forall n :: Held(now, r.group, r.author, n) && cursor <= n <= r.last ==>
      StoredInRange(now, r.group, r.author, cursor, r.last, EventAtSequence(now, r.group, r.author, n));
    RangeListExactly(now, r.group, r.author, cursor, r.last);
    forall n | r.first <= n <= r.last && Held(before, r.group, r.author, n)
      ensures EventAtSequence(before, r.group, r.author, n) in sent
    {
      assert Held(now, r.group, r.author, n);
    }
  }

  predicate GoodRequest(r: RangeRequest, shared: set<GroupId>) {
    r.group in shared && 0 < r.first <= r.last <= I64_MAX
  }

  lemma PageIsStored(events: Events, r: RangeRequest, cursor: int, size: nat)
    requires size <= |RangeList(events, r.group, r.author, cursor, r.last)|
    ensures AllStored(events, RangeList(events, r.group, r.author, cursor, r.last)[..size])
  {
    var list := RangeList(events, r.group, r.author, cursor, r.last);
    RangeListExactly(events, r.group, r.author, cursor, r.last);
    forall i | 0 <= i < size
      ensures StoredEvent(events, list[..size][i])
    {
      assert list[i] in list;
    }
  }

  /** A page read at `clock + 1` and sent by `after` extends the progress, or ends it. */
  lemma RoundStep(history: History, start: nat, clock: nat, after: nat, r: RangeRequest, cursor: int,
                  sent: seq<EventEnvelope>)
    requires Growing(history) && start <= clock < after
    requires Progress(View(history, start).events, View(history, clock).events, r, cursor, sent)
    requires r.first <= cursor <= r.last
    ensures var page := PageAt(View(history, clock + 1).events, r, cursor);
            if page == [] then Serves(View(history, start).events, View(history, clock + 1).events, r, sent)
            else
              var next := page[|page| - 1].header.sequence + 1;
              cursor < next <= r.last + 1
              && Progress(View(history, start).events, View(history, after).events, r, next, sent + page)
  {
    var before, now, later := View(history, start).events, View(history, clock + 1).events, View(history, after).events;
    GrowthIncludes(history, start, clock + 1);
    GrowthIncludes(history, clock, clock + 1);
    GrowthIncludes(history, clock + 1, after);
    var page := PageAt(now, r, cursor);
    ProgressLater(before, View(history, clock).events, now, r, cursor, sent);
    if page == [] {
      EmptyPageEnds(before, now, r, cursor, sent);
    } else {
      PageStep(before, now, r, cursor, sent, |page|);
      ProgressLater(before, now, later, r, page[|page| - 1].header.sequence + 1, sent + page);
    }
  }

  lemma CarriesConcat(history: History, frames: seq<Frame>, es: seq<EventEnvelope>, more: seq<Frame>,
                      fs: seq<EventEnvelope>)
    requires Carries(history, frames, es) && Carries(history, more, fs)
    ensures Carries(history, frames + more, es + fs)
  {
    FlattenConcat(frames, more);
    EventsOfConcat(Flatten(frames), Flatten(more));
    NamedConcat(history, Flatten(frames), Flatten(more));
  }

  /** The first 128 stored events of the range from the cursor on. */
  function PageAt(events: Events, r: RangeRequest, cursor: int): seq<EventEnvelope> {
    var list := RangeList(events, r.group, r.author, cursor, r.last);
    list[..Min(|list|, PAGE_ROWS)]
  }

  /** Where a request stands between two pages. */
  ghost predicate Standing(history: History, start: nat, clock: nat, r: RangeRequest, cursor: int,
                           frames: seq<Frame>, sent: seq<EventEnvelope>) {
    && start <= clock
    && 0 < r.first <= cursor <= r.last + 1
    && Carries(history, frames, sent)
    && Progress(View(history, start).events, View(history, clock).events, r, cursor, sent)
  }

  lemma PageSent(history: History, start: nat, clock: nat, after: nat, r: RangeRequest, cursor: int,
                 out: seq<Frame>, sent: seq<EventEnvelope>, more: seq<Frame>)
    requires Growing(history) && clock < after && cursor <= r.last
    requires Standing(history, start, clock, r, cursor, out, sent)
    requires Carries(history, more, PageAt(View(history, clock + 1).events, r, cursor))
    ensures var page := PageAt(View(history, clock + 1).events, r, cursor);
            if page == [] then
              Served(history, start, clock + 1, r, out + more, sent)
            else
              var next := page[|page| - 1].header.sequence + 1;
              cursor < next && Standing(history, start, after, r, next, out + more, sent + page)
  {
    var page := PageAt(View(history, clock + 1).events, r, cursor);
    CarriesConcat(history, out, sent, more, page);
    RoundStep(history, start, clock, after, r, cursor, sent);
    assert sent + [] == sent;
  }

  /** The records carry what the whole request brings between two moments. */
  ghost predicate Served(history: History, start: nat, clock: nat, r: RangeRequest, frames: seq<Frame>,
                         sent: seq<EventEnvelope>) {
    start <= clock && Carries(history, frames, sent) &&
      Serves(View(history, start).events, View(history, clock).events, r, sent)
  }

  /** A request stops at its event n, which is too large: the events of the range
      below n are out, as they are when the whole range is served. */
  ghost predicate StopsAt(history: History, before: Events, now: Events, r: RangeRequest, n: int,
                          frames: seq<Frame>, sent: seq<EventEnvelope>) {
    && r.first <= n <= r.last && Held(now, r.group, r.author, n)
    && TooLarge(history, EventAtSequence(now, r.group, r.author, n))
    && Carries(history, frames, sent) && Progress(before, now, r, n, sent)
  }

  /** The refusals that serving a request can meet. */
  ghost predicate Refused(history: History, start: nat, clock: nat, r: RangeRequest, frames: seq<Frame>, error: Error,
                          at: int, sent: seq<EventEnvelope>) {
    && start <= clock
    && (if r.last > I64_MAX then error == IntegerOutOfRange && frames == []
        else error == FrameTooLarge
             && StopsAt(history, View(history, start).events, View(history, clock).events, r, at, frames, sent))
  }

  /** Reads one page under a new lock and sends it. */
  method ServePage(history: History, clock: nat, r: RangeRequest, cursor: U64)
    returns (page: seq<EventEnvelope>, frames: seq<Frame>, after: nat, error: Option<Error>)
    requires Growing(history) && 0 < cursor <= r.last
    ensures r.last > I64_MAX ==> error == Some(IntegerOutOfRange) && frames == [] && after == clock + 1
    ensures r.last <= I64_MAX ==> clock < after && page == PageAt(View(history, clock + 1).events, r, cursor)
    ensures r.last <= I64_MAX && error.None? ==> Carries(history, frames, page)
    ensures r.last <= I64_MAX && error.Some? ==> CutShort(history, page, frames, error.value)
  {
    var read := EventsRange(View(history, clock + 1), r.group, r.author, cursor, r.last);
    if read.Err? {
      return [], [], clock + 1, Some(read.error);
    }
    page := read.value;
    PageIsStored(View(history, clock + 1).events, r, cursor, |page|);
    hide Carries, CutShort, AllStored;
    frames, after, error := SendPage(history, clock + 1, page);
  }

  lemma StopsLater(history: History, before: Events, now: Events, later: Events, r: RangeRequest, at: int,
                   frames: seq<Frame>, sent: seq<EventEnvelope>)
    requires StopsAt(history, before, now, r, at, frames, sent) && Included(now, later)
    ensures StopsAt(history, before, later, r, at, frames, sent)
  {
    hide Carries, TooLarge;
    ProgressLater(before, now, later, r, at, sent);
  }

  /** In the page of a range that stops, the events before the stop are out. */
  lemma PageHaltsNow(history: History, before: Events, now: Events, r: RangeRequest, cursor: int,
                     out: seq<Frame>, sent: seq<EventEnvelope>, more: seq<Frame>, n: nat)
    requires Included(before, now) && Progress(before, now, r, cursor, sent) && r.first <= cursor
    requires n < |RangeList(now, r.group, r.author, cursor, r.last)|
    requires Carries(history, out, sent) &&
               Carries(history, more, RangeList(now, r.group, r.author, cursor, r.last)[..n])
    requires TooLarge(history, RangeList(now, r.group, r.author, cursor, r.last)[n])
    ensures var list := RangeList(now, r.group, r.author, cursor, r.last);
            StopsAt(history, before, now, r, list[n].header.sequence, out + more, sent + list[..n])
  {
    hide Carries, TooLarge, Progress, Included, RangeList;
    HaltStep(before, now, r, cursor, sent, n);
    CarriesConcat(history, out, sent, more, RangeList(now, r.group, r.author, cursor, r.last)[..n]);
  }

  /** A page that is cut short stops the request at the event that is too large. */
  lemma PageHalts(history: History, start: nat, clock: nat, after: nat, r: RangeRequest, cursor: int,
                  out: seq<Frame>, sent: seq<EventEnvelope>, more: seq<Frame>, error: Error)
    returns (at: int, total: seq<EventEnvelope>)
    requires Growing(history) && clock < after && cursor <= r.last <= I64_MAX
    requires Standing(history, start, clock, r, cursor, out, sent)
    requires CutShort(history, PageAt(View(history, clock + 1).events, r, cursor), more, error)
    ensures Refused(history, start, after, r, out + more, error, at, total)
  {
    hide Growing, Carries, TooLarge, Progress, Included, RangeList, EventsOf, Flatten, StopsAt;
    var before, now, later := View(history, start).events, View(history, clock + 1).events, View(history, after).events;
    var list, n := RangeList(now, r.group, r.author, cursor, r.last), |EventsOf(Flatten(more))|;
    GrowthIncludes(history, start, clock + 1);
    GrowthIncludes(history, clock, clock + 1);
    GrowthIncludes(history, clock + 1, after);
    ProgressLater(before, View(history, clock).events, now, r, cursor, sent);
    assert PageAt(now, r, cursor)[..n] == list[..n];
    PageHaltsNow(history, before, now, r, cursor, out, sent, more, n);
    at, total := list[n].header.sequence, sent + list[..n];
    StopsLater(history, before, now, later, r, at, out + more, total);
  }

  lemma PageBeyond(history: History, start: nat, clock: nat, r: RangeRequest, sent: seq<EventEnvelope>)
    requires r.last > I64_MAX && start <= clock
    ensures Refused(history, start, clock, r, [], IntegerOutOfRange, 0, sent)
  {
  }

  /** One turn of the page loop: the cursor moves past the last row of the page, and
      an empty page ends the request. */
  method ServeTurn(history: History, ghost start: nat, clock: nat, r: RangeRequest, cursor: U64,
                   out: seq<Frame>, ghost sent: seq<EventEnvelope>)
    returns (next: Option<U64>, frames: seq<Frame>, after: nat, error: Option<Error>,
             ghost total: seq<EventEnvelope>, ghost at: int)
    requires Growing(history) && cursor <= r.last && Standing(history, start, clock, r, cursor, out, sent)
    requires r.last <= I64_MAX || out == []
    ensures error.Some? ==> Refused(history, start, after, r, frames, error.value, at, total)
    ensures error.None? ==> r.last <= I64_MAX
    ensures error.None? && next.Some? ==>
              next.value > cursor && Standing(history, start, after, r, next.value, frames, total)
    ensures error.None? && next.None? ==> Served(history, start, after, r, frames, total)
  {
    hide Growing, Carries, CutShort, Refused, Standing, Served, RangeList, PageAt;
    StandingSince(history, start, clock, r, cursor, out, sent);
    var page, more;
    page, more, after, error := ServePage(history, clock, r, cursor);
    frames, next, total, at := out + more, None, sent, 0;
    if error.Some? {
      if r.last <= I64_MAX {
        at, total := PageHalts(history, start, clock, after, r, cursor, out, sent, more, error.value);
      } else {
        PageBeyond(history, start, after, r, sent);
        assert frames == [];
      }
      return;
    }
    PageSent(history, start, clock, after, r, cursor, out, sent, more);
    if page == [] {
      after := clock + 1;
    } else {
      total := sent + page;
      next := Some(SaturatingSucc(page[|page| - 1].header.sequence));
    }
  }

  lemma StandingSince(history: History, start: nat, clock: nat, r: RangeRequest, cursor: int,
                      frames: seq<Frame>, sent: seq<EventEnvelope>)
    requires Standing(history, start, clock, r, cursor, frames, sent)
    ensures start <= clock && 0 < cursor
  {
  }

  lemma ProgressDone(before: Events, now: Events, r: RangeRequest, sent: seq<EventEnvelope>)
    requires Progress(before, now, r, r.last + 1, sent)
    ensures Serves(before, now, r, sent)
  {
  }

  /** One request, page after page. The cursor is at least 2 after the first, so the
      exit of the original loop on a zero cursor is never taken. */
  method ServeRequest(history: History, start: nat, r: RangeRequest)
    returns (frames: seq<Frame>, clock: nat, error: Option<Error>, ghost sent: seq<EventEnvelope>, ghost at: int)
    requires Growing(history) && 0 < r.first <= r.last
    ensures error.Some? ==> Refused(history, start, clock, r, frames, error.value, at, sent)
    ensures error.None? ==> r.last <= I64_MAX && Served(history, start, clock, r, frames, sent)
  {
    frames, clock, error, sent, at := [], start, None, [], 0;
    var cursor: U64 := r.first;
    while cursor <= r.last
      invariant error.None? && Standing(history, start, clock, r, cursor, frames, sent)
      invariant r.last <= I64_MAX || frames == []
      invariant cursor > r.first ==> r.last <= I64_MAX
      decreases r.last + 1 - cursor
    {
      var next: Option<U64>;
      next, frames, clock, error, sent, at := ServeTurn(history, start, clock, r, cursor, frames, sent);
      if error.Some? {
        return;
      }
      if next.None? {
        return;
      }
      cursor := next.value;
    }
    ProgressDone(View(history, start).events, View(history, clock).events, r, sent);
  }

  // ---------------------------------------------------------------- all requests

  function ServedCount(requests: seq<RangeRequest>): nat {
    Min(|requests|, MAX_REQUESTS)
  }

  /** What a store at rest serves: the ranges, one after the other. */
  function ServedEvents(events: Events, requests: seq<RangeRequest>): seq<EventEnvelope> {
    if requests == [] then []
    else
      var r := requests[0];
      RangeList(events, r.group, r.author, r.first, r.last) + ServedEvents(events, requests[1..])
  }

  ghost function Joined(segments: seq<seq<EventEnvelope>>): seq<EventEnvelope> {
    if segments == [] then [] else Joined(segments[..|segments| - 1]) + segments[|segments| - 1]
  }

  lemma ServesWider(first: Events, before: Events, after: Events, last: Events, r: RangeRequest,
                    sent: seq<EventEnvelope>)
    requires Included(first, before) && Included(after, last) && Serves(before, after, r, sent)
    ensures Serves(first, last, r, sent)
  {
    forall n | r.first <= n <= r.last && Held(first, r.group, r.author, n)
      ensures EventAtSequence(first, r.group, r.author, n) in sent
    {
      assert Held(before, r.group, r.author, n);
    }
  }

  lemma ServesWiden(history: History, i: nat, j: nat, r: RangeRequest, sent: seq<EventEnvelope>)
    requires Growing(history) && i <= j
    requires Serves(View(history, i).events, View(history, j).events, r, sent)
    ensures Serves(history[0].events, history[|history| - 1].events, r, sent)
  {
    GrowthIncludes(history, 0, i);
    GrowthIncludes(history, j, Max(j, |history|));
    ServesWider(history[0].events, View(history, i).events, View(history, j).events, history[|history| - 1].events, r,
      sent);
  }

  lemma StopsWiden(history: History, i: nat, j: nat, r: RangeRequest, at: int, frames: seq<Frame>,
                   sent: seq<EventEnvelope>)
    requires Growing(history) && i <= j
    requires StopsAt(history, View(history, i).events, View(history, j).events, r, at, frames, sent)
    ensures StopsAt(history, history[0].events, history[|history| - 1].events, r, at, frames, sent)
  {
    hide Growing, Carries, TooLarge;
    GrowthIncludes(history, 0, i);
    GrowthIncludes(history, j, Max(j, |history|));
    var first, before := history[0].events, View(history, i).events;
    StopsLater(history, before, View(history, j).events, history[|history| - 1].events, r, at, frames, sent);
    forall n | r.first <= n < at && Held(first, r.group, r.author, n)
      ensures EventAtSequence(first, r.group, r.author, n) in sent
    {
      assert Held(before, r.group, r.author, n);
    }
  }

  ghost predicate AllServed(history: History, requests: seq<RangeRequest>, segments: seq<seq<EventEnvelope>>) {
    && |segments| <= |requests|
    && (forall i :: 0 <= i < |segments| ==>
          Serves(history[0].events, history[|history| - 1].events, requests[i], segments[i]))
  }

  /** The refusal of a request before anything is read for it. */
  function RequestError(r: RangeRequest, shared: set<GroupId>): Option<Error> {
    if r.group !in shared then Some(UnauthorizedGroup)
    else if !(0 < r.first <= r.last) then Some(InvalidRange)
    else if r.last > I64_MAX then Some(IntegerOutOfRange)
    else None
  }

  /** Where a transfer stops: `done` records are of requests served whole, the rest
      carry `part` of the next request, which stops at its event `at`. */
  datatype Halt = Halt(done: nat, part: seq<EventEnvelope>, at: int)

  /** How serving a request fails: it is refused before anything is read for it, or
      it stops at an event that no frame can carry. */
  ghost predicate FailsWith(history: History, shared: set<GroupId>, r: RangeRequest, error: Error,
                            frames: seq<Frame>, halt: Halt) {
    match RequestError(r, shared)
    case Some(e) => error == e && frames == []
    case None =>
      error == FrameTooLarge
      && StopsAt(history, history[0].events, history[|history| - 1].events, r, halt.at, frames, halt.part)
  }

  ghost predicate ServedNext(history: History, shared: set<GroupId>, r: RangeRequest, es: seq<EventEnvelope>,
                             frames: seq<Frame>, sent: seq<EventEnvelope>) {
    && GoodRequest(r, shared) && Carries(history, frames, es + sent)
    && Serves(history[0].events, history[|history| - 1].events, r, sent)
  }

  ghost predicate FailedNext(history: History, shared: set<GroupId>, r: RangeRequest, out: seq<Frame>,
                             frames: seq<Frame>, error: Error, halt: Halt) {
    && halt.done == |out| <= |frames| && frames[..|out|] == out
    && FailsWith(history, shared, r, error, frames[|out|..], halt)
  }

  lemma ServedAfter(history: History, shared: set<GroupId>, clock: nat, after: nat, r: RangeRequest,
                    out: seq<Frame>, es: seq<EventEnvelope>, more: seq<Frame>, sent: seq<EventEnvelope>)
    requires Growing(history) && Carries(history, out, es) && GoodRequest(r, shared)
    requires Served(history, clock, after, r, more, sent)
    ensures ServedNext(history, shared, r, es, out + more, sent)
  {
    hide Growing, Carries, Serves;
    ServesWiden(history, clock, after, r, sent);
    CarriesConcat(history, out, es, more, sent);
  }

  lemma FailedAfter(history: History, shared: set<GroupId>, clock: nat, after: nat, r: RangeRequest,
                    out: seq<Frame>, more: seq<Frame>, error: Error, at: int, sent: seq<EventEnvelope>)
    requires Growing(history) && r.group in shared && 0 < r.first <= r.last
    requires Refused(history, clock, after, r, more, error, at, sent)
    ensures FailedNext(history, shared, r, out, out + more, error, Halt(|out|, sent, at))
  {
    hide Growing, StopsAt;
    assert (out + more)[..|out|] == out && (out + more)[|out|..] == more;
    if r.last <= I64_MAX {
      StopsWiden(history, clock, after, r, at, more, sent);
    }
  }

  lemma RefusedAtOnce(history: History, shared: set<GroupId>, r: RangeRequest, out: seq<Frame>, error: Error)
    requires RequestError(r, shared) == Some(error)
    ensures FailedNext(history, shared, r, out, out, error, Halt(|out|, [], 0))
  {
  }

  /** Checks one request, serves it, and adds to what is already out. */
  method ServeNext(history: History, clock: nat, shared: set<GroupId>, r: RangeRequest,
                   out: seq<Frame>, ghost es: seq<EventEnvelope>)
    returns (frames: seq<Frame>, after: nat, error: Option<Error>, ghost sent: seq<EventEnvelope>, ghost halt: Halt)
    requires Growing(history) && Carries(history, out, es)
    ensures error.None? ==> ServedNext(history, shared, r, es, frames, sent)
    ensures error.Some? ==> FailedNext(history, shared, r, out, frames, error.value, halt)
  {
    hide Growing, Carries, ServedNext, FailedNext, Refused, Served;
    frames, after, error, sent, halt := out, clock, None, [], Halt(|out|, [], 0);
    if r.group !in shared {
      RefusedAtOnce(history, shared, r, out, UnauthorizedGroup);
      return frames, after, Some(UnauthorizedGroup), sent, halt;
    }
    if !(0 < r.first <= r.last) {
      RefusedAtOnce(history, shared, r, out, InvalidRange);
      return frames, after, Some(InvalidRange), sent, halt;
    }
    var more;
    ghost var at;
    more, after, error, sent, at := ServeRequest(history, clock, r);
    frames := out + more;
    if error.None? {
      ServedAfter(history, shared, clock, after, r, out, es, more, sent);
    } else {
      FailedAfter(history, shared, clock, after, r, out, more, error.value, at, sent);
      halt := Halt(|out|, sent, at);
    }
  }

  predicate AllGood(requests: seq<RangeRequest>, shared: set<GroupId>) {
    forall i :: 0 <= i < |requests| ==> GoodRequest(requests[i], shared)
  }

  /** The first i requests are good, served, and their events are out. */
  ghost predicate ServedSoFar(history: History, shared: set<GroupId>, requests: seq<RangeRequest>, i: nat,
                              frames: seq<Frame>, segments: seq<seq<EventEnvelope>>) {
    && i <= |requests| && |segments| == i
    && AllServed(history, requests, segments)
    && AllGood(requests[..i], shared)
    && Carries(history, frames, Joined(segments))
  }

  lemma ServedOneMore(history: History, shared: set<GroupId>, requests: seq<RangeRequest>, i: nat,
                      frames: seq<Frame>, segments: seq<seq<EventEnvelope>>, more: seq<Frame>, sent: seq<EventEnvelope>)
    requires i < |requests| && ServedSoFar(history, shared, requests, i, frames, segments)
    requires GoodRequest(requests[i], shared) && Carries(history, more, Joined(segments) + sent)
    requires Serves(history[0].events, history[|history| - 1].events, requests[i], sent)
    ensures ServedSoFar(history, shared, requests, i + 1, more, segments + [sent])
  {
    hide Serves, Carries, GoodRequest;
    var longer := segments + [sent];
    assert longer[..i] == segments && longer[i] == sent;
    assert Joined(longer) == Joined(segments) + sent;
    forall j | 0 <= j < i + 1
      ensures Serves(history[0].events, history[|history| - 1].events, requests[j], longer[j])
    {
      assert j < i ==> longer[j] == segments[j];
    }
    assert requests[..i + 1] == requests[..i] + [requests[i]];
  }

  /** Every name in the store is within the bound of a peer name at all times, and
      each of these events fits a frame with any such name. */
  ghost predicate Roomy(history: History, es: seq<EventEnvelope>) {
    && (forall clock, p :: ByteLen(AuthorName(View(history, clock), p)) <= 192)
    && (forall e :: e in es ==> Sendable(e))
  }

  /** Each of these events fits a frame with the name its author has. */
  ghost predicate AllFitFrames(db: Db, es: seq<EventEnvelope>) {
    forall e :: e in es ==> BatchLen([WireEvent(e, AuthorName(db, e.header.author))]) <= MAX_FRAME_BYTES
  }

  /** What is out and why it stops, once a request failed. */
  ghost predicate Stopped(history: History, shared: set<GroupId>, requests: seq<RangeRequest>,
                          frames: seq<Frame>, error: Error, segments: seq<seq<EventEnvelope>>, halt: Halt) {
    && |segments| < ServedCount(requests) && halt.done <= |frames|
    && ServedSoFar(history, shared, requests, |segments|, frames[..halt.done], segments)
    && FailsWith(history, shared, requests[|segments|], error, frames[halt.done..], halt)
  }

  ghost predicate Finished(history: History, shared: set<GroupId>, requests: seq<RangeRequest>,
                           frames: seq<Frame>, segments: seq<seq<EventEnvelope>>) {
    && |frames| > 0 && frames[|frames| - 1] == SyncDone
    && ServedSoFar(history, shared, requests, ServedCount(requests), frames[..|frames| - 1], segments)
  }

  /** Serves the first 10,000 requests and ends the stream. Each served request
      brings the events of its range, complete as of the start and none that the
      store does not hold in the end, ascending and without repeats, whatever the
      pages and batches. It stops at the first bad request, or at the first event
      that no frame can carry; what was asked for before it is then out. On a store
      at rest it succeeds exactly when the requests are good and every event of
      their ranges fits a frame with the name of its author. */
  method SendRequestedEvents(history: History, shared: set<GroupId>, requests: seq<RangeRequest>)
    returns (frames: seq<Frame>, error: Option<Error>, ghost segments: seq<seq<EventEnvelope>>, ghost halt: Halt)
    requires Growing(history)
    ensures error.None? ==> Finished(history, shared, requests, frames, segments)
    ensures error.Some? ==> Stopped(history, shared, requests, frames, error.value, segments, halt)
    ensures error.None? && |history| == 1 ==>
              EventsOf(Flatten(frames)) == ServedEvents(history[0].events, requests[..ServedCount(requests)])
    ensures var first := requests[..ServedCount(requests)];
            |history| == 1 ==>
              (error.None? <==>
               AllGood(first, shared) && AllFitFrames(history[0], ServedEvents(history[0].events, first)))
    ensures var first := requests[..ServedCount(requests)];
            AllGood(first, shared) && Roomy(history, ServedEvents(history[|history| - 1].events, first)) ==> error.None?
  {
    frames, error, segments, halt := [], None, [], Halt(0, [], 0);
    ghost var first := requests[..ServedCount(requests)];
    var clock := 0;
    assert ServedSoFar(history, shared, requests, 0, frames, segments);
    hide Carries, AllServed, Growing, GoodRequest, FailsWith, AllGood, AllFitFrames, Roomy;
    for i := 0 to ServedCount(requests)
      invariant error.None? && ServedSoFar(history, shared, requests, i, frames, segments)
    {
      var more, after, refused, sent, stop := ServeNext(history, clock, shared, requests[i], frames, Joined(segments));
      if refused.Some? {
        StoppedMeans(history, shared, requests, more, refused.value, segments, stop);
        return more, refused, segments, stop;
      }
      ServedOneMore(history, shared, requests, i, frames, segments, more, sent);
      frames, clock, segments := more, after, segments + [sent];
    }
    assert (frames + [SyncDone])[..|frames|] == frames;
    EndMarkAddsNothing(frames);
    CarriesMeans(history, frames, Joined(segments));
    if |history| == 1 {
      AllServedAtRest(history[0], requests, segments);
      CarriedFit(history, frames, Joined(segments));
    }
    frames := frames + [SyncDone];
  }

  /** A stop is the fault of a bad request or of an event that does not fit. */
  lemma StoppedMeans(history: History, shared: set<GroupId>, requests: seq<RangeRequest>,
                     frames: seq<Frame>, error: Error, segments: seq<seq<EventEnvelope>>, halt: Halt)
    requires Stopped(history, shared, requests, frames, error, segments, halt)
    ensures var first := requests[..ServedCount(requests)];
            var es := ServedEvents(history[|history| - 1].events, first);
            AllGood(first, shared) ==> !Roomy(history, es) && (|history| == 1 ==> !AllFitFrames(history[0], es))
  {
    var first, r := requests[..ServedCount(requests)], requests[|segments|];
    assert first[|segments|] == r;
    hide Carries, Progress, ServedSoFar, TooLarge, Roomy, AllFitFrames, ServedEvents;
    if AllGood(first, shared) {
      assert GoodRequest(r, shared);
      var now := history[|history| - 1].events;
      AskedIsServed(now, first, |segments|, halt.at);
      TooLargeMeans(history, ServedEvents(now, first), EventAtSequence(now, r.group, r.author, halt.at));
    }
  }

  lemma AskedIsServed(events: Events, requests: seq<RangeRequest>, i: nat, n: int)
    requires i < |requests| && requests[i].first <= n <= requests[i].last
    requires Held(events, requests[i].group, requests[i].author, n)
    ensures EventAtSequence(events, requests[i].group, requests[i].author, n) in ServedEvents(events, requests)
  {
    var r := requests[i];
    var e := EventAtSequence(events, r.group, r.author, n);
    assert r in requests && Asks(r, e.header.group, e.header.author, e.header.sequence);
    ServedEventsExactly(events, requests, e);
  }

  lemma TooLargeMeans(history: History, es: seq<EventEnvelope>, e: EventEnvelope)
    requires TooLarge(history, e) && e in es
    ensures !Roomy(history, es) && (|history| == 1 ==> !AllFitFrames(history[0], es))
  {
    var clock :| TooLargeAt(history, clock, e);
    var wire := WireEvent(e, AuthorName(View(history, clock), e.header.author));
    hide AuthorName, BatchLen, Sendable, View;
    if Sendable(e) && ByteLen(wire.authorName) <= 192 {
      SingleBatchFits(wire);
    }
  }

  lemma {:induction false} OneOfBatch(wires: seq<WireEvent>, i: nat)
    requires i < |wires|
    ensures WireEventLen(wires[i]) <= WiresLen(wires)
  {
    if i > 0 {
      OneOfBatch(wires[1..], i - 1);
    }
  }

  lemma SingleWithinBatch(wires: seq<WireEvent>, i: nat)
    requires i < |wires|
    ensures BatchLen([wires[i]]) <= BatchLen(wires)
  {
    OneOfBatch(wires, i);
    assert [wires[i]][1..] == [];
    assert WiresLen([wires[i]]) == WireEventLen(wires[i]) + WiresLen([]);
  }

  /** Whatever went out in some batch fits a frame on its own. */
  lemma {:induction false} SentFits(frames: seq<Frame>)
    requires AllBatches(frames)
    ensures forall i :: 0 <= i < |Flatten(frames)| ==> BatchLen([Flatten(frames)[i]]) <= MAX_FRAME_BYTES
  {
    if frames != [] {
      SentFits(frames[1..]);
      forall i | 0 <= i < |frames[0].wires|
        ensures BatchLen([frames[0].wires[i]]) <= MAX_FRAME_BYTES
      {
        SingleWithinBatch(frames[0].wires, i);
      }
    }
  }

  lemma CarriedFit(history: History, frames: seq<Frame>, es: seq<EventEnvelope>)
    requires Carries(history, frames, es)
    ensures |history| == 1 ==> AllFitFrames(history[0], es)
  {
    SentFits(frames);
    var wires := Flatten(frames);
    EventsOfMembers(wires);
    hide Flatten, AllBatches, BatchLen, AuthorName;
    if |history| == 1 {
      forall e | e in es
        ensures BatchLen([WireEvent(e, AuthorName(history[0], e.header.author))]) <= MAX_FRAME_BYTES
      {
        var i :| 0 <= i < |es| && es[i] == e;
        assert KnownName(history, wires[i]);
        NameAtRest(history, wires[i]);
      }
    }
  }

  lemma NameAtRest(history: History, wire: WireEvent)
    requires |history| == 1 && KnownName(history, wire)
    ensures wire == WireEvent(wire.event, AuthorName(history[0], wire.event.header.author))
  {
    var clock :| NamedAt(history, clock, wire);
  }

  lemma {:induction false} EventsOfMembers(wires: seq<WireEvent>)
    ensures |EventsOf(wires)| == |wires|
    ensures forall i :: 0 <= i < |wires| ==> EventsOf(wires)[i] == wires[i].event
  {
    if wires != [] {
      EventsOfMembers(wires[1..]);
      assert forall i :: 1 <= i < |wires| ==> wires[i] == wires[1..][i - 1];
    }
  }

  lemma EndMarkAddsNothing(frames: seq<Frame>)
    ensures Flatten(frames + [SyncDone]) == Flatten(frames)
  {
    FlattenConcat(frames, [SyncDone]);
    assert [SyncDone][1..] == [];
    assert Flatten([SyncDone]) == WiresOf(SyncDone) + Flatten([]);
  }

  /** On a store at rest the stream carries one fixed list of events. */
  lemma {:induction false} AllServedAtRest(db: Db, requests: seq<RangeRequest>, segments: seq<seq<EventEnvelope>>)
    requires AllServed([db], requests, segments)
    ensures Joined(segments) == ServedEvents(db.events, requests[..|segments|])
    decreases |segments|
  {
    if segments != [] {
      var n := |segments| - 1;
      AllServedAtRest(db, requests, segments[..n]);
      ServesAtRest(db.events, requests[n], segments[n]);
      ServedEventsPush(db.events, requests[..n], requests[n]);
      assert requests[..n + 1] == requests[..n] + [requests[n]];
    }
  }

  lemma {:induction false} ServedEventsPush(events: Events, requests: seq<RangeRequest>, r: RangeRequest)
    ensures ServedEvents(events, requests + [r]) ==
            ServedEvents(events, requests) + RangeList(events, r.group, r.author, r.first, r.last)
  {
    if requests == [] {
      assert ([] + [r])[1..] == [];
    } else {
      ServedEventsPush(events, requests[1..], r);
      assert (requests + [r])[1..] == requests[1..] + [r];
    }
  }

  /** An event is served exactly when a request asks for it and the store holds it. */
  lemma {:induction false} ServedEventsExactly(events: Events, requests: seq<RangeRequest>, e: EventEnvelope)
    ensures e in ServedEvents(events, requests) <==>
            && StoredEvent(events, e)
            && exists r :: r in requests && Asks(r, e.header.group, e.header.author, e.header.sequence)
  {
    if requests != [] {
      var r, rest := requests[0], requests[1..];
      ServedEventsExactly(events, rest, e);
      RangeListExactly(events, r.group, r.author, r.first, r.last);
      assert forall q :: q in requests <==> q == r || q in rest;
      assert StoredInRange(events, r.group, r.author, r.first, r.last, e) <==>
             StoredEvent(events, e) && Asks(r, e.header.group, e.header.author, e.header.sequence);
      if Asks(r, e.header.group, e.header.author, e.header.sequence) {
        assert r in requests;
      }
    }
  }

  // ---------------------------------------------------------------- receiving

  /** The tables and the refusal, if any, after taking records up to the end mark. */
  function TakeFrames(db: Db, frames: seq<Frame>, remoteName: string): (Db, Option<Error>)
    decreases |frames|
  {
    if frames == [] then (db, Some(StreamEnded))
    else
      match frames[0]
      case EventBatch(wires) =>
        var r := Deliver(db, wires, remoteName);
        if r.error.Some? then (r.db, r.error) else TakeFrames(r.db, frames[1..], remoteName)
      case SyncDone => (db, None)
      case _ => (db, Some(UnexpectedRecord))
  }

  /** Delivering from position i on is inserting there and delivering the rest. */
  lemma DeliverFrom(db: Db, wires: seq<WireEvent>, i: nat, remoteName: string)
    requires i < |wires|
    ensures var inserted := InsertRemote(db, wires[i].event, NameFor(wires[i], remoteName));
            var whole := Deliver(db, wires[i..], remoteName);
            match inserted
            case Err(error) => whole.db == db && whole.error == Some(error)
            case Ok((later, _)) =>
              var rest := Deliver(later, wires[i + 1..], remoteName);
              whole.db == rest.db && whole.error == rest.error
  {
    assert wires[i..][0] == wires[i] && wires[i..][1..] == wires[i + 1..];
  }

  /** Inserts a batch into the store, event by event, up to the first refusal. */
  method ReceiveBatch(store: Store, wires: seq<WireEvent>, remoteName: string) returns (error: Option<Error>)
    requires store.Valid()
    modifies store
    ensures store.Valid()
    ensures store.Contents() == Deliver(old(store.Contents()), wires, remoteName).db
    ensures error == Deliver(old(store.Contents()), wires, remoteName).error
  {
    ghost var expected := Deliver(store.Contents(), wires, remoteName);
    assert wires[0..] == wires;
    for i := 0 to |wires|
      invariant store.Valid()
      invariant expected.db == Deliver(store.Contents(), wires[i..], remoteName).db
      invariant expected.error == Deliver(store.Contents(), wires[i..], remoteName).error
    {
      DeliverFrom(store.Contents(), wires, i, remoteName);
      var inserted := store.InsertRemoteEvent(wires[i].event, NameFor(wires[i], remoteName));
      if inserted.Err? {
        return Some(inserted.error);
      }
    }
    error := None;
  }

  method ReceiveRequestedEvents(store: Store, frames: seq<Frame>, remoteName: string) returns (error: Option<Error>)
    requires store.Valid()
    modifies store
    ensures store.Valid()
    ensures (store.Contents(), error) == TakeFrames(old(store.Contents()), frames, remoteName)
  {
    ghost var before := store.Contents();
    for i := 0 to |frames|
      invariant store.Valid()
      invariant TakeFrames(before, frames, remoteName) == TakeFrames(store.Contents(), frames[i..], remoteName)
    {
      assert frames[i..][0] == frames[i] && frames[i..][1..] == frames[i + 1..];
      match frames[i] {
        case EventBatch(wires) =>
          error := ReceiveBatch(store, wires, remoteName);
          if error.Some? {
            return;
          }
        case SyncDone =>
          return None;
        case _ =>
          return Some(UnexpectedRecord);
      }
    }
    error := Some(StreamEnded);
  }

  lemma {:induction false} DeliverConcat(db: Db, xs: seq<WireEvent>, ys: seq<WireEvent>, remoteName: string)
    ensures var r := Deliver(db, xs, remoteName);
            && Deliver(db, xs + ys, remoteName).db == (if r.error.Some? then r.db else Deliver(r.db, ys, remoteName).db)
            && Deliver(db, xs + ys, remoteName).error ==
                 (if r.error.Some? then r.error else Deliver(r.db, ys, remoteName).error)
    decreases |xs|
  {
    if xs == [] {
      assert xs + ys == ys;
    } else {
      assert (xs + ys)[0] == xs[0] && (xs + ys)[1..] == xs[1..] + ys;
      var inserted := InsertRemote(db, xs[0].event, NameFor(xs[0], remoteName));
      if inserted.Ok? {
        DeliverConcat(inserted.value.0, xs[1..], ys, remoteName);
      }
    }
  }

  /** However a list of events was cut into batches, taking the stream delivers
      exactly that list. */
  lemma {:induction false} BatchesDoNotMatter(db: Db, batches: seq<Frame>, remoteName: string)
    requires forall i :: 0 <= i < |batches| ==> batches[i].EventBatch?
    ensures var r := Deliver(db, Flatten(batches), remoteName);
            TakeFrames(db, batches + [SyncDone], remoteName) == (r.db, r.error)
    decreases |batches|
  {
    var all := batches + [SyncDone];
    if batches == [] {
      assert all[0] == SyncDone;
    } else {
      assert all[0] == batches[0] && all[1..] == batches[1..] + [SyncDone];
      var r := Deliver(db, batches[0].wires, remoteName);
      DeliverConcat(db, batches[0].wires, Flatten(batches[1..]), remoteName);
      if r.error.None? {
        BatchesDoNotMatter(r.db, batches[1..], remoteName);
      }
    }
  }

  /** How many records there are before the first that is no batch. */
  function LeadingBatches(frames: seq<Frame>): (n: nat)
    ensures n <= |frames|
    ensures forall i :: 0 <= i < n ==> frames[i].EventBatch?
    ensures n < |frames| ==> !frames[n].EventBatch?
  {
    if frames == [] || !frames[0].EventBatch? then 0 else 1 + LeadingBatches(frames[1..])
  }

  /** In every case the table left is that of delivering the batches before the first
      other record. The first refusal among them is the error; without one, a stream
      that breaks off there and a record out of place are errors, the end mark is not. */
  lemma {:induction false} TakesLeadingBatches(db: Db, frames: seq<Frame>, remoteName: string)
    ensures var n := LeadingBatches(frames);
            var r := Deliver(db, Flatten(frames[..n]), remoteName);
            && TakeFrames(db, frames, remoteName).0 == r.db
            && TakeFrames(db, frames, remoteName).1 ==
                 if r.error.Some? then r.error
                 else if n == |frames| then Some(StreamEnded)
                 else if frames[n] == SyncDone then None
                 else Some(UnexpectedRecord)
    decreases |frames|
  {
    var n := LeadingBatches(frames);
    if n == 0 {
      assert Flatten(frames[..0]) == [];
    } else {
      var first, rest := frames[0], frames[1..];
      assert frames[..n] == [first] + rest[..n - 1];
      assert frames[..n][1..] == rest[..n - 1];
      DeliverConcat(db, first.wires, Flatten(rest[..n - 1]), remoteName);
      var r := Deliver(db, first.wires, remoteName);
      if r.error.None? {
        TakesLeadingBatches(r.db, rest, remoteName);
      }
    }
  }

  /** A transfer is complete exactly when the end mark comes, after nothing but batches,
      and every event of these is taken. */
  lemma CompleteExactly(db: Db, frames: seq<Frame>, remoteName: string)
    ensures TakeFrames(db, frames, remoteName).1.None? <==>
            exists i :: 0 <= i < |frames| && frames[i] == SyncDone
                        && (forall j :: 0 <= j < i ==> frames[j].EventBatch?)
                        && Deliver(db, Flatten(frames[..i]), remoteName).error.None?
  {
    hide TakeFrames, Deliver, Flatten, LeadingBatches;
    TakesLeadingBatches(db, frames, remoteName);
    var n := LeadingBatches(frames);
    if i :| 0 <= i < |frames| && frames[i] == SyncDone && (forall j :: 0 <= j < i ==> frames[j].EventBatch?)
            && Deliver(db, Flatten(frames[..i]), remoteName).error.None? {
      assert i == n;
    }
  }

  /** A page is the first 128 events of the range, ascending; the bounds must be
      positive, in order and of 63 bits. */
  lemma PageExactly(db: Db, group: GroupId, author: PeerId, first: U64, last: U64)
    ensures EventsRange(db, group, author, first, last).Ok? <==> 0 < first <= last < 0x8000_0000_0000_0000
    ensures EventsRange(db, group, author, first, last).Ok? ==>
              var page := EventsRange(db, group, author, first, last).value;
              && |page| <= 128 && AscendingSequences(page)
              && (forall e :: e in page ==> StoredInRange(db.events, group, author, first, last, e))
              && (forall e :: StoredInRange(db.events, group, author, first, last, e) ==>
                    e in page || (|page| == 128 && page[127].header.sequence < e.header.sequence))
  {
    if 0 < first <= last <= I64_MAX {
      var all := RangeList(db.events, group, author, first, last);
      var page := EventsRange(db, group, author, first, last).value;
      RangeListExactly(db.events, group, author, first, last);
      AscendingIsPairwise(all);
      PrefixAscends(all, |page|);
      forall e | StoredInRange(db.events, group, author, first, last, e)
        ensures e in page || (|page| == 128 && page[127].header.sequence < e.header.sequence)
      {
        var i :| 0 <= i < |all| && all[i] == e;
        if i < |page| {
          assert page[i] == e;
        }
      }
    }
  }

  lemma {:induction false} PrefixAscends(es: seq<EventEnvelope>, n: nat)
    requires AscendingSequences(es) && n <= |es|
    ensures AscendingSequences(es[..n])
  {
    if n > 0 {
      assert es[..n][1..] == es[1..][..n - 1] && es[..n][0] == es[0];
      PrefixAscends(es[1..], n - 1);
    }
  }
}
