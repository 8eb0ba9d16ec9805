/**
  The firmware's sensor model: a server that, once given a periodic
  publication cadence, reads the on-chip temperature on every tick and
  publishes it as a Sensor Status.

  The object's only state is the optional ticker; the context channel's
  `publish` is recorded as the list of statuses handed to it. One pass of
  the endless `run` loop is `Step`; what the environment made ready at that
  point (an inbound payload, a due tick together with the outcome of the
  read and the publish it triggers) is its argument.
 */
module SensorModel {
  import opened Prelude
  import opened Mesh

  /** The sensor setup server's messages: sensor messages and setup
      messages (the latter are not broken down). */
  datatype SetupMessage = SensorMsg(message: SensorMessage) | SetupMsg

  type Payload = Inbound<SetupMessage>

  /** A recurring timer with its period. */
  datatype Ticker = Ticker(periodMs: nat)

  /** The cadence transition `process` applies: a periodic cadence arms a
      fresh ticker, the other two cadences disarm it, and every other
      payload leaves it alone. */
  function NextTicker(ticker: Option<Ticker>, data: Payload): (r: Option<Ticker>)
    ensures data.Message? ==> r == ticker
    ensures data.Control? ==> (r.Some? <==> data.event.cadence.Periodic?)
    ensures data.Control? && r.Some? ==> r.value.periodMs == data.event.cadence.periodMs
  {
    match data
    case Control(PublicationCadence(Periodic(d))) => Some(Ticker(d))
    case Control(PublicationCadence(_)) => None
    case Message(_) => ticker
  }

  /** `read`: the driver's integer reading in degrees Celsius (`None` when
      the driver fails) doubled into half-degree units. The doubling is i8
      arithmetic and is exact only for readings in [-64, 63]. */
  function Read(celsius: Option<I8>): (r: Result<SensorPayload, ()>)
    ensures r.Err? <==> celsius.None?
    ensures r.Ok? ==> (r.value.temperature - 2 * celsius.value) % 0x100 == 0
    ensures r.Ok? && -64 <= celsius.value < 64 ==> r.value.temperature == 2 * celsius.value
  {
    match celsius
    case None => Err(())
    case Some(t) => Ok(SensorPayload(WrapI8(2 * t)))
  }

  /** What a tick triggers: the driver's reading, and whether the publish
      of the resulting status succeeds. */
  datatype TickIo = TickIo(reading: Option<I8>, publishOk: bool)

  /** What was ready when the loop last woke up. */
  datatype Poll = Poll(inbound: Option<Payload>, tick: Option<TickIo>)

  /** What one pass of the loop did; `Published` records the status handed
      to `publish` and whether the publish succeeded (a failure is only
      logged). */
  datatype StepOutcome =
    | Waiting
    | Processed(payload: Payload)
    | Published(status: SensorMessage, ok: bool)
    | ReadFailed

  /** One pass of the run loop. Disarmed, the loop only receives; armed, it
      races `receive` against the tick with the message branch first. */
  function Outcome(ticker: Option<Ticker>, poll: Poll): (r: StepOutcome)
    ensures ticker.None? ==> (r.Processed? <==> poll.inbound.Some?) && (r.Waiting? <==> poll.inbound.None?)
    ensures poll.inbound.Some? ==> r == Processed(poll.inbound.value)
    ensures r.Waiting? <==> poll.inbound.None? && (ticker.None? || poll.tick.None?)
    ensures (r.Published? || r.ReadFailed?) <==> ticker.Some? && poll.inbound.None? && poll.tick.Some?
    ensures r.Published? ==>
              && poll.tick.value.reading.Some?
              && r.status == SensorStatus(Read(poll.tick.value.reading).value)
              && r.ok == poll.tick.value.publishOk
    ensures r.ReadFailed? ==> poll.tick.value.reading.None?
  {
    if ticker.None? then
      if poll.inbound.Some? then Processed(poll.inbound.value) else Waiting
    else
      match Select(poll.inbound, poll.tick)
      case None => Waiting
      case Some(First(data)) => Processed(data)
      case Some(Second(io)) =>
        match Read(io.reading)
        case Ok(payload) => Published(SensorStatus(payload), io.publishOk)
        case Err(_) => ReadFailed
  }

  /** The ticker after a pass: only a processed payload can change it. */
  function TickerAfter(ticker: Option<Ticker>, outcome: StepOutcome): Option<Ticker> {
    if outcome.Processed? then NextTicker(ticker, outcome.payload) else ticker
  }

  /** The statuses a pass hands to `publish`. */
  function PublishedBy(outcome: StepOutcome): seq<SensorMessage> {
    if outcome.Published? then [outcome.status] else []
  }

  /** The ticker after a sequence of passes. */
  function TickerAfterTrace(ticker: Option<Ticker>, trace: seq<Poll>): Option<Ticker>
    decreases |trace|
  {
    if trace == [] then ticker
    else
      var before := TickerAfterTrace(ticker, trace[..|trace| - 1]);
      TickerAfter(before, Outcome(before, trace[|trace| - 1]))
  }

  /** Everything handed to `publish` during a sequence of passes. */
  function PublishedDuring(ticker: Option<Ticker>, trace: seq<Poll>): seq<SensorMessage>
    decreases |trace|
  {
    if trace == [] then []
    else
      var init := trace[..|trace| - 1];
      var before := TickerAfterTrace(ticker, init);
      PublishedDuring(ticker, init) + PublishedBy(Outcome(before, trace[|trace| - 1]))
  }

  class Sensor {
    /** The publication timer, present iff the cadence is periodic. */
    var ticker: Option<Ticker>
    /** Every status handed to the context's `publish`, in order. */
    var published: seq<SensorMessage>

    /** `Sensor::new`: publishing starts disabled. */
    constructor ()
      ensures ticker == None && published == []
    {
      ticker := None;
      published := [];
    }

    /** `process`: apply an inbound payload to the cadence state. */
    method Process(data: Payload)
      modifies this`ticker
      ensures ticker == NextTicker(old(ticker), data)
    {
      match data {
        case Control(PublicationCadence(Periodic(d))) =>
          ticker := Some(Ticker(d));
        case Control(PublicationCadence(OnChange)) =>
          ticker := None;
        case Control(PublicationCadence(Disabled)) =>
          ticker := None;
        case Message(_) =>
      }
    }

    /** One pass of `run`. */
    method Step(poll: Poll) returns (outcome: StepOutcome)
      modifies this
      ensures outcome == Outcome(old(ticker), poll)
      ensures ticker == TickerAfter(old(ticker), outcome)
      ensures published == old(published) + PublishedBy(outcome)
    {
      if ticker.Some? {
        match Select(poll.inbound, poll.tick) {
          case None =>
            outcome := Waiting;
          case Some(First(data)) =>
            Process(data);
            outcome := Processed(data);
          case Some(Second(io)) =>
            match Read(io.reading) {
              case Ok(payload) =>
                var message := SensorStatus(payload);
                published := published + [message];
                outcome := Published(message, io.publishOk);
              case Err(_) =>
                outcome := ReadFailed;
            }
        }
      } else {
        if poll.inbound.Some? {
          Process(poll.inbound.value);
          outcome := Processed(poll.inbound.value);
        } else {
          outcome := Waiting;
        }
      }
    }

    /** `run` over any finite stretch of its environment: the loop has no
        exit, so it makes one pass per poll and handles every one of them. */
    method Run(trace: seq<Poll>) returns (outcomes: seq<StepOutcome>)
      modifies this
      ensures |outcomes| == |trace|
      ensures ticker == TickerAfterTrace(old(ticker), trace)
      ensures published == old(published) + PublishedDuring(old(ticker), trace)
    {
      outcomes := [];
      for i := 0 to |trace|
        invariant |outcomes| == i
        invariant ticker == TickerAfterTrace(old(ticker), trace[..i])
        invariant published == old(published) + PublishedDuring(old(ticker), trace[..i])
      {
        assert trace[..i + 1][..i] == trace[..i];
        var outcome := Step(trace[i]);
        outcomes := outcomes + [outcome];
      }
      assert trace[..|trace|] == trace;
    }
  }

  // -----------------------------------------------------------------------
  // Properties

  /** Periodic, then on-change, then none: no timer is left. On-change and
      none have the same effect on any state. */
  lemma CadenceSequence(d: nat, t: Option<Ticker>)
    ensures NextTicker(NextTicker(NextTicker(None, Control(PublicationCadence(Periodic(d)))),
              Control(PublicationCadence(OnChange))), Control(PublicationCadence(Disabled))) == None
    ensures NextTicker(t, Control(PublicationCadence(OnChange))) == NextTicker(t, Control(PublicationCadence(Disabled)))
  {
  }

  /** A pass that does not process a payload (a tick, whatever its read and
      publish outcome, or waiting) leaves the ticker as it was. */
  lemma TickKeepsTicker(ticker: Option<Ticker>, poll: Poll)
    requires poll.inbound.None?
    ensures TickerAfter(ticker, Outcome(ticker, poll)) == ticker
  {
  }

  /** A trace with no periodic cadence event never arms the ticker, so a
      sensor that starts disarmed publishes nothing. */
  lemma {:induction false} DisarmedNeverPublishes(trace: seq<Poll>)
    requires forall i :: 0 <= i < |trace| && trace[i].inbound.Some? && trace[i].inbound.value.Control?
               ==> !trace[i].inbound.value.event.cadence.Periodic?
    ensures TickerAfterTrace(None, trace) == None
    ensures PublishedDuring(None, trace) == []
  {
    if trace != [] {
      var init := trace[..|trace| - 1];
      assert forall i :: 0 <= i < |init| ==> init[i] == trace[i];
      DisarmedNeverPublishes(init);
    }
  }

  /** At most one status is published per tick: the statuses published
      during a trace are no more than the polls that carry a due tick. */
  function TicksIn(trace: seq<Poll>): nat
    decreases |trace|
  {
    if trace == [] then 0
    else TicksIn(trace[..|trace| - 1]) + (if trace[|trace| - 1].tick.Some? then 1 else 0)
  }

  lemma {:induction false} AtMostOnePublishPerTick(ticker: Option<Ticker>, trace: seq<Poll>)
    ensures |PublishedDuring(ticker, trace)| <= TicksIn(trace)
  {
    if trace != [] {
      AtMostOnePublishPerTick(ticker, trace[..|trace| - 1]);
    }
  }

  /** Every published status carries a reading the driver produced, doubled:
      with the reading in [-64, 63] it is exactly twice the reading. */
  lemma PublishedReading(ticker: Option<Ticker>, t: I8, ok: bool)
    requires ticker.Some? && -64 <= t < 64
    ensures Outcome(ticker, Poll(None, Some(TickIo(Some(t), ok)))) == Published(SensorStatus(SensorPayload(2 * t)), ok)
  {
  }

  /** A message ready at the same time as a tick is processed first, and
      the tick does not publish in that pass. */
  lemma MessageBeatsTick(ticker: Option<Ticker>, data: Payload, io: TickIo)
    requires ticker.Some?
    ensures Outcome(ticker, Poll(Some(data), Some(io))) == Processed(data)
    ensures PublishedBy(Outcome(ticker, Poll(Some(data), Some(io)))) == []
  {
  }
}
