/** Market events (aggregated price and volume updates), their classification into
    `MarketEventType`s, and the pub-sub topic names they travel under. */
module MarketEvents {
  import opened Wrappers
  import opened Time

  /** The enum, in declaration order. */
  datatype MarketEventType = VolumeChange | PriceChange

  /** Every market event type, each once, in declaration order. */
  const AllMarketEventTypes: seq<MarketEventType> := [VolumeChange, PriceChange]

  /** A moving-average price sample. */
  datatype PriceChanged = PriceChanged(stockId: string, currentAvgPrice: real, timestamp: Instant)

  /** A moving-average volume sample. */
  datatype VolumeChanged = VolumeChanged(stockId: string, currentVolume: real, timestamp: Instant)

  /** A market event: a price update, a volume update, or some other market event,
      which the classifier rejects. */
  datatype MarketEvent =
    | PriceUpdate(price: PriceChanged)
    | VolumeUpdate(volume: VolumeChanged)
    | OtherMarketEvent(stockId: string, typeName: string)

  /** The fields of an `ArgumentOutOfRangeException`: its constructor takes the parameter
      name first and the message second. */
  datatype ArgumentOutOfRange = ArgumentOutOfRange(paramName: string, message: string)

  /** The name of the classifier's parameter. */
  const EventParamName: string := "event"

  /** The text the classifier means to report for an event of another type. */
  function UnsupportedText(typeName: string): string {
    "[" + typeName + "] is not a supported market event type."
  }

  /** The exception as written: the text is passed first, so it lands in the parameter-name
      slot and the parameter's name becomes the message. */
  function UnsupportedEventAsWritten(typeName: string): ArgumentOutOfRange {
    ArgumentOutOfRange(UnsupportedText(typeName), EventParamName)
  }

  /** The exception as evidently intended: parameter name first, the text as the message. */
  function UnsupportedEvent(typeName: string): ArgumentOutOfRange {
    ArgumentOutOfRange(EventParamName, UnsupportedText(typeName))
  }

  /** The exception's `Message` as the .NET Core runtime reports it: the constructor's
      message, followed by the parameter name when there is one. */
  function ExceptionMessage(e: ArgumentOutOfRange): string {
    if |e.paramName| == 0 then e.message else e.message + " (Parameter '" + e.paramName + "')"
  }

  /** As written, the parameter name holds the sentence and is no parameter of the
      classifier; the reported `Message` starts with the bare word "event" and differs from
      the intended one. */
  lemma AsWrittenExceptionSwapsArguments(typeName: string)
    ensures UnsupportedEventAsWritten(typeName).paramName == UnsupportedText(typeName)
    ensures UnsupportedEventAsWritten(typeName).paramName != EventParamName
    ensures ExceptionMessage(UnsupportedEventAsWritten(typeName))
            == EventParamName + " (Parameter '" + UnsupportedText(typeName) + "')"
    ensures ExceptionMessage(UnsupportedEventAsWritten(typeName)) != ExceptionMessage(UnsupportedEvent(typeName))
  {
    assert |UnsupportedText(typeName)| > |EventParamName|;
    assert ExceptionMessage(UnsupportedEventAsWritten(typeName))[0] == 'e';
    assert ExceptionMessage(UnsupportedEvent(typeName))[0] == '[';
  }

  /** Corrected, the parameter name is the classifier's parameter and the reported `Message`
      opens with the sentence naming the rejected type. */
  lemma CorrectedExceptionNamesType(typeName: string)
    ensures UnsupportedEvent(typeName).paramName == EventParamName
    ensures ExceptionMessage(UnsupportedEvent(typeName))
            == UnsupportedText(typeName) + " (Parameter '" + EventParamName + "')"
    ensures ExceptionMessage(UnsupportedEvent(typeName))[1..1 + |typeName|] == typeName
  {
  }

  /** `ToMarketEventType`: price updates are `PriceChange`, volume updates are `VolumeChange`,
      anything else is an out-of-range error carrying the as-written exception's `Message`,
      which still names the event's type inside the parameter part. */
  function ToMarketEventType(ev: MarketEvent): (r: Result<MarketEventType>)
    ensures r.Ok? <==> !ev.OtherMarketEvent?
    ensures r == Ok(PriceChange) <==> ev.PriceUpdate?
    ensures r == Ok(VolumeChange) <==> ev.VolumeUpdate?
    ensures r.Ok? ==> r.value in AllMarketEventTypes
    ensures ev.OtherMarketEvent? ==> r == Err(ExceptionMessage(UnsupportedEventAsWritten(ev.typeName)))
    ensures ev.OtherMarketEvent? ==>
              r.message[..|EventParamName|] == EventParamName
              && r.message[19..19 + |ev.typeName|] == ev.typeName
  {
    match ev
    case PriceUpdate(_) => Ok(PriceChange)
    case VolumeUpdate(_) => Ok(VolumeChange)
    case OtherMarketEvent(_, typeName) => Err(ExceptionMessage(UnsupportedEventAsWritten(typeName)))
  }

  /** `AllMarketEventTypes` lists every enum value exactly once. */
  lemma AllMarketEventTypesComplete()
    ensures forall e :: e in AllMarketEventTypes
    ensures |AllMarketEventTypes| == 2 && AllMarketEventTypes[0] != AllMarketEventTypes[1]
  {
    forall e: MarketEventType
      ensures e in AllMarketEventTypes
    {
      assert e == AllMarketEventTypes[if e.VolumeChange? then 0 else 1];
    }
  }
}

/** `DistributedPubSubPriceTopicFormatter`: topic names for market events. */
module PriceTopics {
  import opened MarketEvents

  /** The topic the match aggregator publishes prices to. */
  function PriceUpdateTopic(ticker: string): string {
    ticker + "-price"
  }

  /** The topic the match aggregator publishes volumes to, as written. */
  function VolumeUpdateTopic(ticker: string): string {
    ticker + "-update"
  }

  /** The volume topic as evidently intended: the one volume subscribers listen on. */
  function VolumeUpdateTopicCorrected(ticker: string): string {
    ticker + "-volume"
  }

  function TypeName(e: MarketEventType): string {
    match e
    case PriceChange => "price"
    case VolumeChange => "volume"
  }

  /** The topic subscribers and the market event publisher use for one event type. */
  function ToTopic(ticker: string, e: MarketEventType): string {
    ticker + "-" + TypeName(e)
  }

  /** The two characters before the last one tell the suffixes apart. */
  lemma TopicSuffixes(t: string)
    ensures |PriceUpdateTopic(t)| == |t| + 6 && PriceUpdateTopic(t)[|t| + 4] == 'c'
    ensures |ToTopic(t, VolumeChange)| == |t| + 7 && ToTopic(t, VolumeChange)[|t| + 5] == 'm'
    ensures |VolumeUpdateTopic(t)| == |t| + 7 && VolumeUpdateTopic(t)[|t| + 5] == 't'
    ensures PriceUpdateTopic(t)[..|t|] == ToTopic(t, VolumeChange)[..|t|] == VolumeUpdateTopic(t)[..|t|] == t
  {
  }

  /** A topic names one (ticker, event type) pair: `ToTopic` is injective. */
  lemma ToTopicInjective(t1: string, e1: MarketEventType, t2: string, e2: MarketEventType)
    ensures ToTopic(t1, e1) == ToTopic(t2, e2) <==> t1 == t2 && e1 == e2
  {
    if ToTopic(t1, e1) == ToTopic(t2, e2) {
      var s := ToTopic(t1, e1);
      TopicSuffixes(t1);
      TopicSuffixes(t2);
      PriceTopicAgrees(t1);
      PriceTopicAgrees(t2);
      if e1 == e2 {
        assert |t1| == |t2|;
        assert t1 == s[..|t1|] == t2;
      }
    }
  }

  /** Prices are published where price subscribers listen. */
  lemma PriceTopicAgrees(t: string)
    ensures PriceUpdateTopic(t) == ToTopic(t, PriceChange)
  {
  }

  /** As written, volumes are not: the "-update" topic is never a topic anyone subscribes
      to through `ToTopic`, for any ticker and either event type. */
  lemma VolumeTopicMismatch(t: string, t': string, e: MarketEventType)
    ensures VolumeUpdateTopic(t) != ToTopic(t', e)
  {
    TopicSuffixes(t);
    TopicSuffixes(t');
    PriceTopicAgrees(t');
  }

  /** The corrected volume topic is where volume subscribers listen. */
  lemma VolumeTopicAgrees(t: string)
    ensures VolumeUpdateTopicCorrected(t) == ToTopic(t, VolumeChange)
  {
  }
}
