/** The streaming-value timer: two playback-second counters advanced on every
    timer tick while audio plays, a minute handler that may enqueue a streaming
    payment, and a flush of the payment queue requested every 300 seconds. */
module V4VStreaming {
  import opened Js
  import opened V4VTypes

  /** Accumulated seconds at which the minute handler runs. */
  const MinuteSeconds: real := 60.0
  /** Queue-counter seconds at which a minute boundary asks for a flush. */
  const FlushSeconds: real := 300.0
  /** The banner text key shown after a successful flush. */
  const StreamingValueSent: string := "Streaming Value Sent"

  /** The two module-level counters: `valueStreamingAccumulatorSecondCount`
      and `valueStreamingProcessQueueSecondCount`. */
  datatype Counters = Counters(accumulatorSecondCount: real, processQueueSecondCount: real)

  /** The value tags carried by the now-playing item. */
  datatype NowPlayingValue = NowPlayingValue(
    episodeValue: Option<seq<ValueTag>>,
    podcastValue: Option<seq<ValueTag>>)

  /** What the provider lookups report: the configured per-minute amount and
      the active provider's key. */
  datatype ProviderInfo = ProviderInfo(streamingAmount: Option<int>, activeProviderKey: Option<string>)

  /** The arguments of one call that saves streaming transactions to the queue. */
  datatype StreamingPayment = StreamingPayment(valueTags: seq<ValueTag>, streamingAmount: int, providerKey: string)

  /** Calls into the transaction-queue service, in the order they are made. */
  datatype Effect = SaveToQueue(payment: StreamingPayment) | ProcessQueue

  /** What processing the transaction queue reports. */
  datatype FlushResult = FlushResult(
    errors: seq<ValueTransactionRouteError>,
    transactions: seq<ValueTransaction>,
    totalAmount: int)

  datatype BannerInfo = BannerInfo(
    show: bool,
    description: string,
    errors: seq<ValueTransactionRouteError>,
    transactions: seq<ValueTransaction>,
    totalAmount: int)

  /** Playback seconds one tick adds to each counter: compensated for the
      playback speed on iOS, exactly one elsewhere. */
  function Increment(isIOS: bool, playbackSpeed: real): (d: real)
    requires playbackSpeed > 0.0
    ensures d > 0.0
    ensures isIOS ==> d * playbackSpeed == 1.0
    ensures !isIOS ==> d == 1.0
  {
    if isIOS then 1.0 / playbackSpeed else 1.0
  }

  datatype TickOutcome = TickOutcome(counters: Counters, minutePassed: bool, shouldProcessQueue: bool)

  /** The counter part of one tick: increment while playing, then the minute
      handler's reset when the accumulator has reached a minute. */
  function TickCounters(isIOS: bool, playing: bool, playbackSpeed: real, c: Counters): (t: TickOutcome)
    requires playbackSpeed > 0.0
    // a tick while not playing changes nothing and never flushes
    ensures !playing ==> t == TickOutcome(c, false, false)
    // the minute handler runs exactly when the incremented accumulator reaches 60
    ensures t.minutePassed <==> playing && c.accumulatorSecondCount + Increment(isIOS, playbackSpeed) >= MinuteSeconds
    // without a minute boundary both counters advance by the same increment
    ensures playing && !t.minutePassed ==>
      t.counters == Counters(c.accumulatorSecondCount + Increment(isIOS, playbackSpeed),
                             c.processQueueSecondCount + Increment(isIOS, playbackSpeed))
    ensures t.minutePassed ==> t.counters.accumulatorSecondCount == 0.0
    // the queue counter is only looked at inside the minute handler
    ensures t.shouldProcessQueue <==>
      t.minutePassed && c.processQueueSecondCount + Increment(isIOS, playbackSpeed) >= FlushSeconds
    ensures t.minutePassed ==>
      t.counters.processQueueSecondCount ==
        if t.shouldProcessQueue then 0.0 else c.processQueueSecondCount + Increment(isIOS, playbackSpeed)
    // between ticks the accumulator stays in [0, 60) and the queue counter non-negative
    ensures 0.0 <= c.accumulatorSecondCount < MinuteSeconds ==>
      0.0 <= t.counters.accumulatorSecondCount < MinuteSeconds
    ensures 0.0 <= c.processQueueSecondCount ==> 0.0 <= t.counters.processQueueSecondCount
  {
    if !playing then TickOutcome(c, false, false)
    else
      var d := Increment(isIOS, playbackSpeed);
      var accumulator := c.accumulatorSecondCount + d;
      var processQueue := c.processQueueSecondCount + d;
      if accumulator != 0.0 && accumulator >= MinuteSeconds then
        var flush := processQueue >= FlushSeconds;
        TickOutcome(Counters(0.0, if flush then 0.0 else processQueue), true, flush)
      else
        TickOutcome(Counters(accumulator, processQueue), false, false)
  }

  /** The value tags a payment is made for: the episode's when present (an
      empty array is present), else the podcast's, else none. */
  function SelectValueTags(item: NowPlayingValue): (tags: seq<ValueTag>)
    ensures item.episodeValue.Some? ==> tags == item.episodeValue.value
    ensures item.episodeValue.None? ==> tags == item.podcastValue.GetOr([])
  {
    if item.episodeValue.Some? then item.episodeValue.value
    else if item.podcastValue.Some? then item.podcastValue.value
    else []
  }

  /** The streaming payment the minute handler saves to the queue, if any. */
  function StreamingPaymentFor(item: NowPlayingValue, provider: ProviderInfo): (p: Option<StreamingPayment>)
    ensures p.Some? <==>
      |SelectValueTags(item)| > 0 && NumTruthy(provider.streamingAmount) && StrTruthy(provider.activeProviderKey)
    ensures p.Some? ==>
      p.value.valueTags == SelectValueTags(item) &&
      Some(p.value.streamingAmount) == provider.streamingAmount &&
      Some(p.value.providerKey) == provider.activeProviderKey
  {
    var valueTags := SelectValueTags(item);
    if |valueTags| > 0 && NumTruthy(provider.streamingAmount) && StrTruthy(provider.activeProviderKey) then
      Some(StreamingPayment(valueTags, provider.streamingAmount.value, provider.activeProviderKey.value))
    else None
  }

  /** The queue calls one minute handler makes. */
  function SaveEffects(item: NowPlayingValue, provider: ProviderInfo): (effects: seq<Effect>)
    ensures |effects| <= 1
    ensures |effects| == 1 <==>
      |SelectValueTags(item)| > 0 && NumTruthy(provider.streamingAmount) && StrTruthy(provider.activeProviderKey)
    ensures forall i :: 0 <= i < |effects| ==>
      effects[i].SaveToQueue? && effects[i].payment.valueTags == SelectValueTags(item)
  {
    var p := StreamingPaymentFor(item, provider);
    if p.Some? then [SaveToQueue(p.value)] else []
  }

  /** An episode whose value tags are an empty array hides the podcast's tags:
      no payment is made even when the podcast has tags. */
  lemma EmptyEpisodeValueHidesPodcastValue(tags: seq<ValueTag>, provider: ProviderInfo)
    ensures StreamingPaymentFor(NowPlayingValue(Some([]), Some(tags)), provider).None?
  {
  }

  /** The banner a flush raises: only when at least one transaction went out
      and the total is positive; it then carries the whole flush result. */
  function BannerFor(result: FlushResult): (b: Option<BannerInfo>)
    ensures b.Some? <==> |result.transactions| > 0 && result.totalAmount > 0
    ensures b.Some? ==>
      b.value.show && b.value.description == StreamingValueSent &&
      b.value.errors == result.errors && b.value.transactions == result.transactions &&
      b.value.totalAmount == result.totalAmount
  {
    if |result.transactions| > 0 && result.totalAmount > 0 then
      Some(BannerInfo(true, StreamingValueSent, result.errors, result.transactions, result.totalAmount))
    else None
  }

  /** The counters after `n` playing ticks at a constant speed, from the zeros
      the module starts with. */
  function RunPlayingTicks(isIOS: bool, playbackSpeed: real, n: nat): Counters
    requires playbackSpeed > 0.0
  {
    if n == 0 then Counters(0.0, 0.0)
    else TickCounters(isIOS, true, playbackSpeed, RunPlayingTicks(isIOS, playbackSpeed, n - 1)).counters
  }

  lemma FiveMinutesAreWholeMinutes(m: nat)
    requires m % 300 == 299
    ensures m % 60 == 59
  {
    var k := m / 300;
    assert m == 60 * (5 * k + 4) + 59;
  }

  lemma SuccessorModulo(m: nat)
    ensures (m + 1) % 60 == if m % 60 == 59 then 0 else m % 60 + 1
    ensures (m + 1) % 300 == if m % 300 == 299 then 0 else m % 300 + 1
  {
  }

  /** Off iOS, after `n` playing ticks the accumulator is `n % 60` and the queue
      counter `n % 300`. */
  lemma {:induction false} IntegerTickSchedule(n: nat)
    ensures RunPlayingTicks(false, 1.0, n) == Counters((n % 60) as real, (n % 300) as real)
  {
    if n > 0 {
      var m := n - 1;
      IntegerTickSchedule(m);
      SuccessorModulo(m);
      var a, q := m % 60, m % 300;
      var t := TickCounters(false, true, 1.0, Counters(a as real, q as real));
      if a == 59 {
        assert t.minutePassed;
        if q == 299 {
          assert t.counters == Counters(0.0, 0.0);
        } else {
          assert t.counters == Counters(0.0, (q + 1) as real);
        }
      } else {
        if q == 299 {
          FiveMinutesAreWholeMinutes(m);
        }
        assert t.counters == Counters((a + 1) as real, (q + 1) as real);
      }
    }
  }

  /** Off iOS the minute handler runs on every 60th playing tick and a flush is
      requested on every 300th, and on no other tick. */
  lemma IntegerTickFiring(n: nat)
    ensures var t := TickCounters(false, true, 1.0, RunPlayingTicks(false, 1.0, n));
      (t.minutePassed <==> (n + 1) % 60 == 0) && (t.shouldProcessQueue <==> (n + 1) % 300 == 0)
  {
    IntegerTickSchedule(n);
    SuccessorModulo(n);
    if n % 300 == 299 {
      FiveMinutesAreWholeMinutes(n);
    }
  }

  /** On iOS at double speed each tick counts half a second, so the first
      minute handler runs on the 120th playing tick. */
  lemma {:induction false} DoubleSpeedHalfSeconds(n: nat)
    requires n < 120
    ensures RunPlayingTicks(true, 2.0, n) == Counters(n as real / 2.0, n as real / 2.0)
  {
    if n > 0 {
      DoubleSpeedHalfSeconds(n - 1);
    }
  }

  lemma DoubleSpeedFirstMinute()
    ensures !TickCounters(true, true, 2.0, RunPlayingTicks(true, 2.0, 118)).minutePassed
    ensures TickCounters(true, true, 2.0, RunPlayingTicks(true, 2.0, 119)).minutePassed
  {
    DoubleSpeedHalfSeconds(118);
    DoubleSpeedHalfSeconds(119);
  }

  /** The module state of the streaming timer, with the queue service calls it
      makes and the banner it sets in the global state. */
  class ValueStreamingTimer {
    /** `Platform.OS === 'ios'`, fixed for the process. */
    const isIOS: bool
    var accumulatorSecondCount: real
    var processQueueSecondCount: real
    var effects: seq<Effect>
    var bannerInfo: Option<BannerInfo>

    ghost predicate Valid()
      reads this
    {
      0.0 <= accumulatorSecondCount < MinuteSeconds && 0.0 <= processQueueSecondCount
    }

    function Counts(): Counters
      reads this
    {
      Counters(accumulatorSecondCount, processQueueSecondCount)
    }

    constructor (isIOS: bool)
      ensures Valid()
      ensures this.isIOS == isIOS && Counts() == Counters(0.0, 0.0)
      ensures effects == [] && bannerInfo == None
    {
      this.isIOS := isIOS;
      accumulatorSecondCount := 0.0;
      processQueueSecondCount := 0.0;
      effects := [];
      bannerInfo := None;
    }

    method IncrementStreamingIntervalCount(playbackSpeed: real)
      requires playbackSpeed > 0.0
      modifies this
      ensures accumulatorSecondCount == old(accumulatorSecondCount) + Increment(isIOS, playbackSpeed)
      ensures processQueueSecondCount == old(processQueueSecondCount) + Increment(isIOS, playbackSpeed)
      ensures effects == old(effects) && bannerInfo == old(bannerInfo)
    {
      if isIOS {
        accumulatorSecondCount := accumulatorSecondCount + 1.0 / playbackSpeed;
        processQueueSecondCount := processQueueSecondCount + 1.0 / playbackSpeed;
      } else {
        accumulatorSecondCount := accumulatorSecondCount + 1.0;
        processQueueSecondCount := processQueueSecondCount + 1.0;
      }
    }

    method HandleValueStreamingMinutePassed(item: NowPlayingValue, provider: ProviderInfo)
      returns (shouldProcessQueue: bool)
      modifies this
      ensures accumulatorSecondCount == 0.0
      ensures shouldProcessQueue <==> old(processQueueSecondCount) >= FlushSeconds
      ensures processQueueSecondCount == if shouldProcessQueue then 0.0 else old(processQueueSecondCount)
      ensures effects == old(effects) + SaveEffects(item, provider)
      ensures bannerInfo == old(bannerInfo)
    {
      var valueTags := SelectValueTags(item);
      accumulatorSecondCount := 0.0;
      shouldProcessQueue := processQueueSecondCount >= FlushSeconds;
      if shouldProcessQueue {
        processQueueSecondCount := 0.0;
      }
      if |valueTags| > 0 && NumTruthy(provider.streamingAmount) && StrTruthy(provider.activeProviderKey) {
        effects := effects + [SaveToQueue(StreamingPayment(valueTags, provider.streamingAmount.value, provider.activeProviderKey.value))];
      }
    }

    /** One timer tick. The player state, the now-playing item, the provider
        lookups and what processing the queue returns are inputs. */
    method HandleValueStreamingTimerIncrement(
      streamingValueOn: bool, playing: bool, playbackSpeed: real,
      item: NowPlayingValue, provider: ProviderInfo, flushResult: FlushResult)
      requires Valid() && playbackSpeed > 0.0
      modifies this
      ensures Valid()
      ensures !streamingValueOn ==>
        Counts() == old(Counts()) && effects == old(effects) && bannerInfo == old(bannerInfo)
      ensures streamingValueOn ==>
        var t := TickCounters(isIOS, playing, playbackSpeed, old(Counts()));
        && Counts() == t.counters
        && effects == old(effects) + (if t.minutePassed then SaveEffects(item, provider) else [])
                                   + (if t.shouldProcessQueue then [ProcessQueue] else [])
        && bannerInfo == if t.shouldProcessQueue && BannerFor(flushResult).Some?
                         then BannerFor(flushResult) else old(bannerInfo)
    {
      if streamingValueOn {
        var shouldProcessQueue := false;
        if playing {
          IncrementStreamingIntervalCount(playbackSpeed);
          if accumulatorSecondCount != 0.0 && accumulatorSecondCount >= MinuteSeconds {
            shouldProcessQueue := HandleValueStreamingMinutePassed(item, provider);
          }
        }
        if shouldProcessQueue {
          effects := effects + [ProcessQueue];
          if |flushResult.transactions| > 0 && flushResult.totalAmount > 0 {
            bannerInfo := Some(BannerInfo(true, StreamingValueSent, flushResult.errors,
                                          flushResult.transactions, flushResult.totalAmount));
          }
        }
      }
    }
  }
}
