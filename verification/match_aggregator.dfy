/** `MatchAggregator`: the persistent actor that turns one ticker's matches into periodic
    price and volume samples.

    The moving averages (`MatchAggregate`) are not part of this model: they are a record of
    functions over an aggregate state `A`. The publish timer is a `PublishEvents` command
    carrying the current time. */
module MatchAggregation {
  import opened Wrappers
  import opened Time
  import opened Events
  import opened Mediator
  import opened MarketEvents
  import opened PriceTopics
  import opened BoundedBuffer

  /** Take a snapshot every this many journal entries. */
  const SnapshotEveryN: int := 10

  /** The moving-average aggregate's interface. */
  datatype AggregateOps<!A> = AggregateOps(
    create: (string, real, real) -> A,
    withMatch: (A, Match) -> A,
    fetchMetrics: (A, Instant) -> (PriceChanged, VolumeChanged),
    avgPrice: A -> real,
    avgVolume: A -> real)

  /** `MatchAggregatorSnapshot`, the record persisted both as a journal event and as a snapshot. */
  datatype AggregatorRecord = AggregatorRecord(avgPrice: real, avgVolume: real,
                                               recentPriceUpdates: seq<PriceChanged>,
                                               recentVolumeUpdates: seq<VolumeChanged>)

  /** The actor's state. `journal[n - 1]` is the record persisted with sequence number n. */
  datatype Aggregator<A> = Aggregator(ticker: string, aggregate: Option<A>,
                                      prices: Bounded<PriceChanged>, volumes: Bounded<VolumeChanged>,
                                      journal: seq<AggregatorRecord>)

  /** The reply to a fetch: the empty placeholder, or both sample buffers. */
  datatype PriceAndVolumeSnapshot =
    | NoPriceData(stockId: string)
    | PriceAndVolume(stockId: string, priceUpdates: seq<PriceChanged>, volumeUpdates: seq<VolumeChanged>)

  datatype Command =
    | MatchCmd(matched: Match)
    | PublishEvents(now: Instant)
    | FetchPriceAndVolume(stockId: string)
    | Ping
    | SaveSnapshotSuccess(sequenceNr: int)

  datatype Effect =
    | Persist(record: AggregatorRecord)
    | Publish(topic: string, event: MarketEvent)
    | SaveSnapshot(sequenceNr: int, record: AggregatorRecord)
    | DeleteSnapshots(maxSequenceNr: int)
    | DeleteMessages(toSequenceNr: int)
    | Reply(recipient: ActorRef, reply: PriceAndVolumeSnapshot)

  /** A new aggregator: no aggregate, empty buffers of the given sample size, empty journal. */
  function Init<A>(ticker: string, sampleSize: nat): (st: Aggregator<A>)
    requires 0 < sampleSize
    ensures st.aggregate.None? && st.prices.items == [] && st.volumes.items == [] && st.journal == []
    ensures st.prices.capacity == st.volumes.capacity == sampleSize
  {
    Aggregator(ticker, None, Empty(sampleSize), Empty(sampleSize), [])
  }

  /** A `Match`: for this ticker it creates the aggregate from the match's price and quantity,
      or feeds it to the existing aggregate; for any other ticker nothing changes. */
  function OnMatch<A>(ops: AggregateOps<A>, st: Aggregator<A>, m: Match): (r: Aggregator<A>)
    ensures m.stockId != st.ticker ==> r == st
    ensures m.stockId == st.ticker ==>
              && r.aggregate.Some?
              && r == st.(aggregate := r.aggregate)
              && (st.aggregate.None? ==> r.aggregate.value == ops.create(st.ticker, m.settlementPrice, m.quantity))
  {
    if m.stockId != st.ticker then st
    else match st.aggregate
      case None => st.(aggregate := Some(ops.create(st.ticker, m.settlementPrice, m.quantity)))
      case Some(a) => st.(aggregate := Some(ops.withMatch(a, m)))
  }

  /** `SaveAggregateData`: the current averages and buffer contents. */
  function SaveAggregateData<A>(ops: AggregateOps<A>, a: A, prices: Bounded<PriceChanged>,
                                volumes: Bounded<VolumeChanged>): AggregatorRecord {
    AggregatorRecord(ops.avgPrice(a), ops.avgVolume(a), prices.items, volumes.items)
  }

  /** A publish tick. Without an aggregate nothing happens. Otherwise one price and one
      volume sample are appended, the record (which contains them) is persisted, the samples
      are published to the price topic and, as written, the "-update" volume topic, and a
      snapshot of the record is saved when its sequence number is a multiple of
      `SnapshotEveryN`. */
  function OnPublishEvents<A>(ops: AggregateOps<A>, st: Aggregator<A>, now: Instant): (r: (Aggregator<A>, seq<Effect>))
    ensures st.aggregate.None? ==> r == (st, [])
    ensures st.aggregate.Some? ==>
              |r.0.journal| == |st.journal| + 1 && r.0.journal[..|st.journal|] == st.journal && |r.1| >= 3
    ensures st.aggregate.Some? ==>
              var (p, v) := ops.fetchMetrics(st.aggregate.value, now);
              var rec := r.0.journal[|st.journal|];
              && r.0.ticker == st.ticker && r.0.aggregate == st.aggregate
              && r.0.prices == Add(st.prices, p) && r.0.volumes == Add(st.volumes, v)
              && rec.recentPriceUpdates == r.0.prices.items && rec.recentVolumeUpdates == r.0.volumes.items
              && rec.recentPriceUpdates[|rec.recentPriceUpdates| - 1] == p
              && rec.recentVolumeUpdates[|rec.recentVolumeUpdates| - 1] == v
              && rec.avgPrice == ops.avgPrice(st.aggregate.value)
              && rec.avgVolume == ops.avgVolume(st.aggregate.value)
              && r.1[..3] == [Persist(rec), Publish(PriceUpdateTopic(st.ticker), PriceUpdate(p)),
                              Publish(VolumeUpdateTopic(st.ticker), VolumeUpdate(v))]
              && r.1[3..] == if |r.0.journal| % SnapshotEveryN == 0 then [SaveSnapshot(|r.0.journal|, rec)] else []
  {
    match st.aggregate
    case None => (st, [])
    case Some(a) =>
      var (p, v) := ops.fetchMetrics(a, now);
      var prices := Add(st.prices, p);
      var volumes := Add(st.volumes, v);
      var rec := SaveAggregateData(ops, a, prices, volumes);
      var journal := st.journal + [rec];
      assert journal[..|st.journal|] == st.journal;
      (st.(prices := prices, volumes := volumes, journal := journal),
       [Persist(rec), Publish(PriceUpdateTopic(st.ticker), PriceUpdate(p)),
        Publish(VolumeUpdateTopic(st.ticker), VolumeUpdate(v))]
       + (if |journal| % SnapshotEveryN == 0 then [SaveSnapshot(|journal|, rec)] else []))
  }

  /** As written, the volume sample goes to the "-update" topic, which no subscriber joins
      through `ToTopic`, for any ticker and event type. */
  lemma AsWrittenVolumeSamplesMissSubscribers<A>(ops: AggregateOps<A>, st: Aggregator<A>, now: Instant,
                                                 t: string, e: MarketEventType)
    requires st.aggregate.Some?
    ensures var effects := OnPublishEvents(ops, st, now).1;
            && effects[2].Publish? && effects[2].event.VolumeUpdate?
            && effects[2].topic != ToTopic(t, e)
  {
    VolumeTopicMismatch(st.ticker, t, e);
    var effects := OnPublishEvents(ops, st, now).1;
    assert effects[2] == effects[..3][2];
  }

  /** The publish tick with the volume topic corrected: the same state and effects, except
      that the volume sample goes to `VolumeUpdateTopicCorrected`. */
  function OnPublishEventsCorrected<A>(ops: AggregateOps<A>, st: Aggregator<A>, now: Instant): (r: (Aggregator<A>, seq<Effect>))
    ensures r.0 == OnPublishEvents(ops, st, now).0
    ensures |r.1| == |OnPublishEvents(ops, st, now).1|
    ensures forall i :: 0 <= i < |r.1| && i != 2 ==> r.1[i] == OnPublishEvents(ops, st, now).1[i]
    ensures st.aggregate.Some? ==>
              r.1[2] == Publish(VolumeUpdateTopicCorrected(st.ticker),
                                VolumeUpdate(ops.fetchMetrics(st.aggregate.value, now).1))
  {
    var (st', effects) := OnPublishEvents(ops, st, now);
    if st.aggregate.None? then (st', effects)
    else (st', effects[2 := Publish(VolumeUpdateTopicCorrected(st.ticker),
                                    VolumeUpdate(ops.fetchMetrics(st.aggregate.value, now).1))])
  }

  /** With the corrected topic, both samples of a publish tick go to the topics that price
      and volume subscribers join through `ToTopic`. */
  lemma PublishedSamplesReachSubscribers<A>(ops: AggregateOps<A>, st: Aggregator<A>, now: Instant)
    requires st.aggregate.Some?
    ensures var effects := OnPublishEventsCorrected(ops, st, now).1;
            && effects[1].Publish? && effects[1].topic == ToTopic(st.ticker, PriceChange)
            && effects[1].event.PriceUpdate?
            && effects[2].Publish? && effects[2].topic == ToTopic(st.ticker, VolumeChange)
            && effects[2].event.VolumeUpdate?
  {
    PriceTopicAgrees(st.ticker);
    VolumeTopicAgrees(st.ticker);
    var effects := OnPublishEvents(ops, st, now).1;
    assert effects[1] == effects[..3][1];
  }

  /** A fetch: the placeholder until both buffers hold a sample, then both buffers' contents. */
  function OnFetch<A>(st: Aggregator<A>): (r: PriceAndVolumeSnapshot)
    ensures r.stockId == st.ticker
    ensures r.NoPriceData? <==> |st.prices.items| == 0 || |st.volumes.items| == 0
    ensures r.PriceAndVolume? ==> r.priceUpdates == st.prices.items && r.volumeUpdates == st.volumes.items
  {
    if |st.prices.items| == 0 || |st.volumes.items| == 0 then NoPriceData(st.ticker)
    else PriceAndVolume(st.ticker, st.prices.items, st.volumes.items)
  }

  /** Handles one command from `sender`. */
  function Receive<A>(ops: AggregateOps<A>, st: Aggregator<A>, cmd: Command, sender: ActorRef): (r: (Aggregator<A>, seq<Effect>))
    ensures r.0.ticker == st.ticker
    ensures r.0.prices.capacity == st.prices.capacity && r.0.volumes.capacity == st.volumes.capacity
    ensures !cmd.PublishEvents? ==> r.0.journal == st.journal && r.0.prices == st.prices && r.0.volumes == st.volumes
    ensures cmd.MatchCmd? ==> r == (OnMatch(ops, st, cmd.matched), [])
    ensures cmd.PublishEvents? ==> r == OnPublishEvents(ops, st, cmd.now)
    ensures cmd.FetchPriceAndVolume? ==> r == (st, [Reply(sender, OnFetch(st))])
    ensures cmd.Ping? ==> r == (st, [])
    ensures cmd.SaveSnapshotSuccess? ==>
              r == (st, [DeleteSnapshots(cmd.sequenceNr - 1), DeleteMessages(cmd.sequenceNr)])
  {
    match cmd
    case MatchCmd(m) => (OnMatch(ops, st, m), [])
    case PublishEvents(now) => OnPublishEvents(ops, st, now)
    case FetchPriceAndVolume(_) => (st, [Reply(sender, OnFetch(st))])
    case Ping => (st, [])
    case SaveSnapshotSuccess(n) => (st, [DeleteSnapshots(n - 1), DeleteMessages(n)])
  }

  // ---------------------------------------------------------------- recovery

  /** `RecoverAggregateData` as written: a new aggregate from the saved averages, and the
      saved samples appended to whatever the buffers already hold. */
  function RecoverAggregateDataAsWritten<A>(ops: AggregateOps<A>, st: Aggregator<A>, rec: AggregatorRecord)
    : (r: Aggregator<A>)
    ensures r.aggregate == Some(ops.create(st.ticker, rec.avgPrice, rec.avgVolume))
    ensures r.prices.items == Newest(st.prices.items + rec.recentPriceUpdates, st.prices.capacity)
    ensures r.volumes.items == Newest(st.volumes.items + rec.recentVolumeUpdates, st.volumes.capacity)
  {
    st.(aggregate := Some(ops.create(st.ticker, rec.avgPrice, rec.avgVolume)),
        prices := Enqueue(st.prices, rec.recentPriceUpdates),
        volumes := Enqueue(st.volumes, rec.recentVolumeUpdates))
  }

  /** `RecoverAggregateData` as evidently intended: the saved samples replace the buffers'
      contents, so what is restored does not depend on what was recovered before. */
  function RecoverAggregateData<A>(ops: AggregateOps<A>, st: Aggregator<A>, rec: AggregatorRecord)
    : (r: Aggregator<A>)
    ensures r.aggregate == Some(ops.create(st.ticker, rec.avgPrice, rec.avgVolume))
    ensures r.prices.capacity == st.prices.capacity && r.volumes.capacity == st.volumes.capacity
    ensures r.prices.items == Newest(rec.recentPriceUpdates, st.prices.capacity)
    ensures r.volumes.items == Newest(rec.recentVolumeUpdates, st.volumes.capacity)
    ensures r.ticker == st.ticker && r.journal == st.journal
  {
    assert [] + rec.recentPriceUpdates == rec.recentPriceUpdates;
    assert [] + rec.recentVolumeUpdates == rec.recentVolumeUpdates;
    st.(aggregate := Some(ops.create(st.ticker, rec.avgPrice, rec.avgVolume)),
        prices := Enqueue(Empty(st.prices.capacity), rec.recentPriceUpdates),
        volumes := Enqueue(Empty(st.volumes.capacity), rec.recentVolumeUpdates))
  }

  /** What a snapshot store may hold; only an aggregator record is used. */
  datatype SnapshotPayload = RecordSnapshot(record: AggregatorRecord) | OtherSnapshot(typeName: string)

  /** `SnapshotOffer`: the newest snapshot and the sequence number it was saved at. */
  datatype SnapshotOffer = SnapshotOffer(sequenceNr: nat, snapshot: SnapshotPayload)

  /** The sequence number replay starts after: the offered snapshot's, else none. */
  function ReplayFrom(offer: Option<SnapshotOffer>): nat {
    if offer.Some? then offer.value.sequenceNr else 0
  }

  /** The price samples an offer carries: the record snapshot's, otherwise none. */
  function OfferedPrices(offer: Option<SnapshotOffer>): seq<PriceChanged> {
    if offer.Some? && offer.value.snapshot.RecordSnapshot? then offer.value.snapshot.record.recentPriceUpdates else []
  }

  /** The volume samples an offer carries: the record snapshot's, otherwise none. */
  function OfferedVolumes(offer: Option<SnapshotOffer>): seq<VolumeChanged> {
    if offer.Some? && offer.value.snapshot.RecordSnapshot? then offer.value.snapshot.record.recentVolumeUpdates else []
  }

  /** Every record's saved price samples, oldest record first. */
  function RecordedPrices(records: seq<AggregatorRecord>): seq<PriceChanged>
    decreases |records|
  {
    if |records| == 0 then [] else RecordedPrices(records[..|records| - 1]) + records[|records| - 1].recentPriceUpdates
  }

  /** Every record's saved volume samples, oldest record first. */
  function RecordedVolumes(records: seq<AggregatorRecord>): seq<VolumeChanged>
    decreases |records|
  {
    if |records| == 0 then [] else RecordedVolumes(records[..|records| - 1]) + records[|records| - 1].recentVolumeUpdates
  }

  /** Replay with the as-written handler: the offered snapshot, then each replayed record.
      Because each record's samples are enqueued on top of what the buffers hold, the buffers
      end with the newest samples of everything replayed, in order, starting from what they
      held before; the averages are the last record's, or the snapshot's when none follows. */
  function ReplayAsWritten<A>(ops: AggregateOps<A>, st: Aggregator<A>, offer: Option<SnapshotOffer>,
                              records: seq<AggregatorRecord>): (r: Aggregator<A>)
    ensures r.ticker == st.ticker && r.journal == st.journal
    ensures r.prices.capacity == st.prices.capacity && r.volumes.capacity == st.volumes.capacity
    ensures r.prices.items
            == Newest(st.prices.items + (OfferedPrices(offer) + RecordedPrices(records)), st.prices.capacity)
    ensures r.volumes.items
            == Newest(st.volumes.items + (OfferedVolumes(offer) + RecordedVolumes(records)), st.volumes.capacity)
    ensures |records| > 0 ==>
              var last := records[|records| - 1];
              r.aggregate == Some(ops.create(st.ticker, last.avgPrice, last.avgVolume))
    ensures |records| == 0 && offer.Some? && offer.value.snapshot.RecordSnapshot? ==>
              var rec := offer.value.snapshot.record;
              r.aggregate == Some(ops.create(st.ticker, rec.avgPrice, rec.avgVolume))
    ensures |records| == 0 && (offer.None? || offer.value.snapshot.OtherSnapshot?) ==> r == st
    decreases |records|
  {
    if |records| == 0 then
      EnqueueAll(st.prices.items, OfferedPrices(offer), st.prices.capacity);
      EnqueueAll(st.volumes.items, OfferedVolumes(offer), st.volumes.capacity);
      if offer.Some? && offer.value.snapshot.RecordSnapshot? then
        RecoverAggregateDataAsWritten(ops, st, offer.value.snapshot.record)
      else st
    else
      var last := records[|records| - 1];
      var prev := ReplayAsWritten(ops, st, offer, records[..|records| - 1]);
      EnqueueOneMore(st.prices.items, OfferedPrices(offer), RecordedPrices(records[..|records| - 1]),
                     last.recentPriceUpdates, st.prices.capacity);
      EnqueueOneMore(st.volumes.items, OfferedVolumes(offer), RecordedVolumes(records[..|records| - 1]),
                     last.recentVolumeUpdates, st.volumes.capacity);
      RecoverAggregateDataAsWritten(ops, prev, last)
  }

  /** Enqueueing a batch of samples onto buffers holding `held`: with nothing replayed after it,
      the batch's newest samples on top of what was held. */
  lemma EnqueueAll<T>(held: seq<T>, batch: seq<T>, cap: nat)
    requires |held| <= cap
    ensures Newest(held + (batch + []), cap) == Newest(held + batch, cap)
    ensures batch == [] ==> Newest(held + (batch + []), cap) == held
  {
    assert batch + [] == batch;
    assert held + [] == held;
  }

  /** One more record enqueued after `offered + replayed` extends the replayed samples. */
  lemma EnqueueOneMore<T>(held: seq<T>, offered: seq<T>, replayed: seq<T>, added: seq<T>, cap: nat)
    ensures Newest(Newest(held + (offered + replayed), cap) + added, cap)
            == Newest(held + (offered + (replayed + added)), cap)
  {
    NewestOfNewest(held + (offered + replayed), added, cap);
    assert held + (offered + replayed) + added == held + (offered + (replayed + added));
  }

  /** Replay with the corrected handler. */
  function Replay<A>(ops: AggregateOps<A>, st: Aggregator<A>, offer: Option<SnapshotOffer>,
                     records: seq<AggregatorRecord>): (r: Aggregator<A>)
    ensures r.ticker == st.ticker && r.journal == st.journal
    ensures r.prices.capacity == st.prices.capacity && r.volumes.capacity == st.volumes.capacity
    ensures |records| > 0 ==>
              var last := records[|records| - 1];
              && r.aggregate == Some(ops.create(st.ticker, last.avgPrice, last.avgVolume))
              && r.prices.items == Newest(last.recentPriceUpdates, st.prices.capacity)
              && r.volumes.items == Newest(last.recentVolumeUpdates, st.volumes.capacity)
    ensures |records| == 0 && offer.Some? && offer.value.snapshot.RecordSnapshot? ==>
              r == RecoverAggregateData(ops, st, offer.value.snapshot.record)
    ensures |records| == 0 && (offer.None? || offer.value.snapshot.OtherSnapshot?) ==> r == st
    decreases |records|
  {
    if |records| == 0 then
      if offer.Some? && offer.value.snapshot.RecordSnapshot? then
        RecoverAggregateData(ops, st, offer.value.snapshot.record)
      else st
    else RecoverAggregateData(ops, Replay(ops, st, offer, records[..|records| - 1]), records[|records| - 1])
  }

  /** Recovery as written from the store's journal `stored`: the offered snapshot, then the
      records after it. The journal survives the restart, so the recovered actor's sequence
      number is the journal's last. */
  function RecoverAsWritten<A>(ops: AggregateOps<A>, st: Aggregator<A>, offer: Option<SnapshotOffer>,
                               stored: seq<AggregatorRecord>): (r: Aggregator<A>)
    requires ReplayFrom(offer) <= |stored|
    ensures r.ticker == st.ticker && r.journal == stored
    ensures r.prices.items == Newest(st.prices.items + (OfferedPrices(offer)
                                     + RecordedPrices(stored[ReplayFrom(offer)..])), st.prices.capacity)
    ensures r.volumes.items == Newest(st.volumes.items + (OfferedVolumes(offer)
                                      + RecordedVolumes(stored[ReplayFrom(offer)..])), st.volumes.capacity)
    ensures ReplayFrom(offer) < |stored| ==>
              var last := stored[|stored| - 1];
              r.aggregate == Some(ops.create(st.ticker, last.avgPrice, last.avgVolume))
  {
    var records := stored[ReplayFrom(offer)..];
    assert |records| > 0 ==> records[|records| - 1] == stored[|stored| - 1];
    ReplayAsWritten(ops, st, offer, stored[ReplayFrom(offer)..]).(journal := stored)
  }

  /** Recovery with the corrected handler from the store's journal `stored`. */
  function Recover<A>(ops: AggregateOps<A>, st: Aggregator<A>, offer: Option<SnapshotOffer>,
                      stored: seq<AggregatorRecord>): (r: Aggregator<A>)
    requires ReplayFrom(offer) <= |stored|
    ensures r.ticker == st.ticker && r.journal == stored
    ensures r.prices.capacity == st.prices.capacity && r.volumes.capacity == st.volumes.capacity
    ensures ReplayFrom(offer) < |stored| ==>
              var last := stored[|stored| - 1];
              && r.aggregate == Some(ops.create(st.ticker, last.avgPrice, last.avgVolume))
              && r.prices.items == Newest(last.recentPriceUpdates, st.prices.capacity)
              && r.volumes.items == Newest(last.recentVolumeUpdates, st.volumes.capacity)
    ensures ReplayFrom(offer) == |stored| && offer.Some? && offer.value.snapshot.RecordSnapshot? ==>
              r == RecoverAggregateData(ops, st, offer.value.snapshot.record).(journal := stored)
    ensures ReplayFrom(offer) == |stored| && (offer.None? || offer.value.snapshot.OtherSnapshot?) ==>
              r == st.(journal := stored)
  {
    var records := stored[ReplayFrom(offer)..];
    assert |records| > 0 ==> records[|records| - 1] == stored[|stored| - 1];
    Replay(ops, st, offer, records).(journal := stored)
  }

  // ---------------------------------------------------------------- persistence invariants

  /** The newest journal record holds exactly the live buffers' contents, and the buffers are
      empty while nothing has been persisted. */
  ghost predicate BuffersPersisted<A>(st: Aggregator<A>) {
    if |st.journal| == 0 then st.prices.items == [] && st.volumes.items == []
    else
      && st.journal[|st.journal| - 1].recentPriceUpdates == st.prices.items
      && st.journal[|st.journal| - 1].recentVolumeUpdates == st.volumes.items
  }

  /** Every command keeps the newest record in step with the buffers. */
  lemma ReceivePreservesBuffersPersisted<A>(ops: AggregateOps<A>, st: Aggregator<A>, cmd: Command, sender: ActorRef)
    requires BuffersPersisted(st)
    ensures BuffersPersisted(Receive(ops, st, cmd, sender).0)
  {
  }

  /** An offer the actor itself can have left behind: none, or the snapshot saved at some
      sequence number n, which is the record persisted at n. */
  predicate SavedOffer(journal: seq<AggregatorRecord>, offer: Option<SnapshotOffer>) {
    offer.None? ||
    (0 < offer.value.sequenceNr <= |journal|
     && offer.value.snapshot == RecordSnapshot(journal[offer.value.sequenceNr - 1]))
  }

  /** With the corrected handler, a restart restores the live sample buffers and the journal,
      whether it replays the whole journal or starts from the snapshot saved at n, with or
      without records after n. */
  lemma RecoveryRestoresBuffers<A>(ops: AggregateOps<A>, st: Aggregator<A>, sampleSize: nat,
                                   offer: Option<SnapshotOffer>)
    requires BuffersPersisted(st)
    requires st.prices.capacity == st.volumes.capacity == sampleSize
    requires SavedOffer(st.journal, offer)
    ensures var r := Recover(ops, Init(st.ticker, sampleSize), offer, st.journal);
            r.journal == st.journal && r.prices.items == st.prices.items && r.volumes.items == st.volumes.items
  {
    var init: Aggregator<A> := Init(st.ticker, sampleSize);
    if ReplayFrom(offer) < |st.journal| {
      RecoverRestoresNewest(ops, init, offer, st.journal, st.prices.items, st.volumes.items);
    } else if offer.Some? {
      var rec := st.journal[|st.journal| - 1];
      assert offer.value.snapshot == RecordSnapshot(rec);
      var r := Recover(ops, init, offer, st.journal);
      assert r.prices.items == Newest(rec.recentPriceUpdates, sampleSize);
      assert r.volumes.items == Newest(rec.recentVolumeUpdates, sampleSize);
    }
  }

  /** Recovery that replays at least one record leaves the buffers holding the newest
      record's samples when they fit. */
  lemma RecoverRestoresNewest<A>(ops: AggregateOps<A>, init: Aggregator<A>, offer: Option<SnapshotOffer>,
                                 stored: seq<AggregatorRecord>, prices: seq<PriceChanged>, volumes: seq<VolumeChanged>)
    requires ReplayFrom(offer) < |stored|
    requires stored[|stored| - 1].recentPriceUpdates == prices
    requires stored[|stored| - 1].recentVolumeUpdates == volumes
    requires |prices| <= init.prices.capacity && |volumes| <= init.volumes.capacity
    ensures var r := Recover(ops, init, offer, stored);
            r.prices.items == prices && r.volumes.items == volumes
  {
  }

  /** A restarted aggregator numbers its records on from the journal's end, so its first
      publish tick persists record |stored| + 1 and snapshots it exactly when that is a
      multiple of `SnapshotEveryN`, as the live actor would have. */
  lemma RecoveryKeepsSequence<A>(ops: AggregateOps<A>, init: Aggregator<A>, offer: Option<SnapshotOffer>,
                                 stored: seq<AggregatorRecord>, now: Instant)
    requires ReplayFrom(offer) <= |stored|
    requires Recover(ops, init, offer, stored).aggregate.Some?
    ensures var (st', effects) := OnPublishEvents(ops, Recover(ops, init, offer, stored), now);
            && |st'.journal| == |stored| + 1 && st'.journal[..|stored|] == stored
            && effects[3..] == if (|stored| + 1) % SnapshotEveryN == 0
                               then [SaveSnapshot(|stored| + 1, st'.journal[|stored|])] else []
  {
    PublishNumbersNext(ops, Recover(ops, init, offer, stored), stored, now);
  }

  /** A publish tick on a journal `stored` persists record |stored| + 1 and snapshots exactly
      at multiples of 10. */
  lemma PublishNumbersNext<A>(ops: AggregateOps<A>, st: Aggregator<A>, stored: seq<AggregatorRecord>, now: Instant)
    requires st.aggregate.Some? && st.journal == stored
    ensures var (st', effects) := OnPublishEvents(ops, st, now);
            && |st'.journal| == |stored| + 1 && st'.journal[..|stored|] == stored
            && effects[3..] == if (|stored| + 1) % SnapshotEveryN == 0
                               then [SaveSnapshot(|stored| + 1, st'.journal[|stored|])] else []
  {
  }

  /** The snapshot saved at sequence n is the record persisted at n, so recovering from it
      alone (the journal up to n having been deleted) restores the buffers as of then. */
  lemma SnapshotIsNewestRecord<A>(ops: AggregateOps<A>, st: Aggregator<A>, now: Instant, n: int, rec: AggregatorRecord)
    requires SaveSnapshot(n, rec) in OnPublishEvents(ops, st, now).1
    ensures var st' := OnPublishEvents(ops, st, now).0;
            n == |st'.journal| && n % SnapshotEveryN == 0 && rec == st'.journal[n - 1]
            && rec.recentPriceUpdates == st'.prices.items && rec.recentVolumeUpdates == st'.volumes.items
  {
    if st.aggregate.Some? {
      var st', effects, last := TickEffects(ops, st, now);
      SavedIsLast(effects, |st'.journal|, last, n, rec);
    }
  }

  /** The parts of a publish tick that locate its snapshot: three leading effects, the new
      record at the journal's end, and the snapshot of that record at multiples of 10. */
  lemma TickEffects<A>(ops: AggregateOps<A>, st: Aggregator<A>, now: Instant)
    returns (st': Aggregator<A>, effects: seq<Effect>, last: AggregatorRecord)
    requires st.aggregate.Some?
    ensures (st', effects) == OnPublishEvents(ops, st, now)
    ensures |effects| >= 3 && effects[0] == Persist(last) && effects[1].Publish? && effects[2].Publish?
    ensures |st'.journal| == |st.journal| + 1 && last == st'.journal[|st.journal|]
    ensures effects[3..] == if |st'.journal| % SnapshotEveryN == 0 then [SaveSnapshot(|st'.journal|, last)] else []
    ensures last.recentPriceUpdates == st'.prices.items && last.recentVolumeUpdates == st'.volumes.items
  {
    st', effects := OnPublishEvents(ops, st, now).0, OnPublishEvents(ops, st, now).1;
    last := st'.journal[|st.journal|];
    assert effects[0] == effects[..3][0] && effects[1] == effects[..3][1] && effects[2] == effects[..3][2];
  }

  /** A snapshot saved among effects shaped like a tick's is the one of the newest record. */
  lemma SavedIsLast(effects: seq<Effect>, count: nat, last: AggregatorRecord, n: int, rec: AggregatorRecord)
    requires |effects| >= 3 && effects[0].Persist? && effects[1].Publish? && effects[2].Publish?
    requires effects[3..] == if count % SnapshotEveryN == 0 then [SaveSnapshot(count, last)] else []
    requires SaveSnapshot(n, rec) in effects
    ensures n == count && count % SnapshotEveryN == 0 && rec == last
  {
    var i :| 0 <= i < |effects| && effects[i] == SaveSnapshot(n, rec);
    assert effects[3..][i - 3] == SaveSnapshot(n, rec);
  }

  /** With the handler as written, replaying the journal duplicates samples. Two publish
      ticks after the first match persist records [p1] and [p1, p2]; replaying both yields
      buffers [p1, p1, p2] where the live actor holds [p1, p2]. The corrected handler
      restores [p1, p2]. */
  lemma AsWrittenRecoveryDuplicatesSamples<A>(ops: AggregateOps<A>, ticker: string, sampleSize: nat,
                                              m: Match, t1: Instant, t2: Instant)
    requires 3 <= sampleSize && m.stockId == ticker
    ensures var st1 := OnMatch(ops, Init(ticker, sampleSize), m);
            var st3 := OnPublishEvents(ops, OnPublishEvents(ops, st1, t1).0, t2).0;
            var p1 := ops.fetchMetrics(st1.aggregate.value, t1).0;
            var p2 := ops.fetchMetrics(st1.aggregate.value, t2).0;
            && st3.prices.items == [p1, p2]
            && RecoverAsWritten(ops, Init(ticker, sampleSize), None, st3.journal).prices.items == [p1, p1, p2]
            && Recover(ops, Init(ticker, sampleSize), None, st3.journal).prices.items == [p1, p2]
  {
    var st0: Aggregator<A> := Init(ticker, sampleSize);
    var st1 := OnMatch(ops, st0, m);
    var p1 := ops.fetchMetrics(st1.aggregate.value, t1).0;
    var p2 := ops.fetchMetrics(st1.aggregate.value, t2).0;
    assert st1.prices == st0.prices && st1.journal == [];
    var st3 := TwoTicks(ops, st1, t1, t2);
    var j := st3.journal;
    AsWrittenReplayOfTwo(ops, st0, j);
    ReplayedSamples(p1, p2, sampleSize);
    assert j[ReplayFrom(None)..] == j;
    var r := Recover(ops, st0, None, j);
    assert j[|j| - 1] == j[1];
    assert r.prices.items == Newest([p1, p2], sampleSize);
  }

  /** The buffer contents the as-written and the corrected replay of [p1] and [p1, p2] leave. */
  lemma ReplayedSamples<T>(p1: T, p2: T, cap: nat)
    requires 3 <= cap
    ensures Newest(Newest([p1], cap) + [p1, p2], cap) == [p1, p1, p2]
    ensures Newest([p1, p2], cap) == [p1, p2]
  {
    assert [p1] + [p1, p2] == [p1, p1, p2];
  }

  /** Two publish ticks on buffers that start empty: the first record holds the first
      sample, the second record and the buffers hold both. */
  lemma TwoTicks<A>(ops: AggregateOps<A>, st: Aggregator<A>, t1: Instant, t2: Instant) returns (st3: Aggregator<A>)
    requires st.aggregate.Some? && st.journal == [] && st.prices.items == [] && 2 <= st.prices.capacity
    ensures st3 == OnPublishEvents(ops, OnPublishEvents(ops, st, t1).0, t2).0
    ensures var p1 := ops.fetchMetrics(st.aggregate.value, t1).0;
            var p2 := ops.fetchMetrics(st.aggregate.value, t2).0;
            && |st3.journal| == 2
            && st3.journal[0].recentPriceUpdates == [p1]
            && st3.journal[1].recentPriceUpdates == [p1, p2]
            && st3.prices.items == [p1, p2]
  {
    var st2 := TickPrices(ops, st, t1);
    st3 := TickPrices(ops, st2, t2);
    TwoSamples(st, st2, st3, ops.fetchMetrics(st.aggregate.value, t1).0, ops.fetchMetrics(st.aggregate.value, t2).0);
  }

  /** Two price samples added to an empty buffer with room for both, each followed by a record
      of the buffer: the records hold [p1] and [p1, p2]. */
  lemma TwoSamples<A>(st: Aggregator<A>, st2: Aggregator<A>, st3: Aggregator<A>, p1: PriceChanged, p2: PriceChanged)
    requires st.journal == [] && st.prices.items == [] && 2 <= st.prices.capacity
    requires st2.prices == Add(st.prices, p1) && st3.prices == Add(st2.prices, p2)
    requires |st2.journal| == |st.journal| + 1 && st2.journal[..|st.journal|] == st.journal
    requires |st3.journal| == |st2.journal| + 1 && st3.journal[..|st2.journal|] == st2.journal
    requires st2.journal[|st.journal|].recentPriceUpdates == st2.prices.items
    requires st3.journal[|st2.journal|].recentPriceUpdates == st3.prices.items
    ensures |st3.journal| == 2
    ensures st3.journal[0].recentPriceUpdates == [p1]
    ensures st3.journal[1].recentPriceUpdates == [p1, p2]
    ensures st3.prices.items == [p1, p2]
  {
    assert st2.prices.items == [p1];
    assert st3.journal[0] == st2.journal[0];
  }

  /** One publish tick seen through its price buffer: the aggregate stays, the price sample is
      added to the buffer, and the new record holds the buffer. */
  lemma TickPrices<A>(ops: AggregateOps<A>, st: Aggregator<A>, now: Instant) returns (r: Aggregator<A>)
    requires st.aggregate.Some?
    ensures r == OnPublishEvents(ops, st, now).0
    ensures r.aggregate == st.aggregate
    ensures r.prices == Add(st.prices, ops.fetchMetrics(st.aggregate.value, now).0)
    ensures |r.journal| == |st.journal| + 1 && r.journal[..|st.journal|] == st.journal
    ensures r.journal[|st.journal|].recentPriceUpdates == r.prices.items
  {
    r := OnPublishEvents(ops, st, now).0;
  }

  /** Replaying two records with the as-written handler into empty buffers concatenates
      their samples (up to the capacity). */
  lemma AsWrittenReplayOfTwo<A>(ops: AggregateOps<A>, st: Aggregator<A>, j: seq<AggregatorRecord>)
    requires |j| == 2 && st.prices.items == []
    ensures ReplayAsWritten(ops, st, None, j).prices.items
            == Newest(Newest(j[0].recentPriceUpdates, st.prices.capacity) + j[1].recentPriceUpdates, st.prices.capacity)
  {
    var r0 := ReplayAsWritten(ops, st, None, j[..1][..0]);
    assert r0 == st;
    var r1 := ReplayAsWritten(ops, st, None, j[..1]);
    assert r1 == RecoverAggregateDataAsWritten(ops, r0, j[0]);
    assert r1.prices.items == Newest(j[0].recentPriceUpdates, st.prices.capacity) by {
      assert st.prices.items + j[0].recentPriceUpdates == j[0].recentPriceUpdates;
    }
    assert j[..|j| - 1] == j[..1];
    assert ReplayAsWritten(ops, st, None, j) == RecoverAggregateDataAsWritten(ops, r1, j[1]);
  }
}
