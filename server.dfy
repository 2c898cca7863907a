/**
 * The request-rate core of the Flask server: the pending request count and
 * the last published rate, the root endpoint that counts a request, the
 * once-a-second sampler that publishes the count, the health endpoint and the
 * server-sent-event messages that read the published rate, and the rule
 * that picks the listening port.
 *
 * Each block the source guards with its lock is one atomic method here.
 */
module Server {
  import opened Wrappers
  import Decimal

  // ---------------------------------------------------------------------
  // The counter state as a value, and what each event does to it
  // ---------------------------------------------------------------------

  /** `pending` is the source's `request_counter`, `published` its `current_rps`. */
  datatype CounterState = CounterState(pending: nat, published: nat)

  /** Both globals start at 0. */
  const Init := CounterState(0, 0)

  /** The locked increment of the root endpoint: one more pending, the rate untouched. */
  function AfterRequest(s: CounterState): (t: CounterState)
    ensures t.pending == s.pending + 1 && t.published == s.published
  {
    s.(pending := s.pending + 1)
  }

  /** One pass of the sampler: publish the pending count and start a new interval. */
  function AfterTick(s: CounterState): (t: CounterState)
    ensures t.published == s.pending && t.pending == 0
  {
    CounterState(0, s.pending)
  }

  /** What can happen to the counter: a root request, a health check, a sampler tick, a stream push. */
  datatype Event = Request | HealthCheck | Tick | StreamPush

  /**
   * Only a tick writes the published rate, only a request adds to the
   * pending count, and the two readers change nothing.
   */
  function Step(s: CounterState, e: Event): (t: CounterState)
    ensures e != Tick ==> t.published == s.published
    ensures e != Tick ==> t.pending >= s.pending
    ensures e == Tick ==> t.pending == 0 && t.published == s.pending
    ensures e == Request ==> t.pending == s.pending + 1
    ensures e == HealthCheck || e == StreamPush ==> t == s
  {
    match e
    case Request => AfterRequest(s)
    case Tick => AfterTick(s)
    case HealthCheck => s
    case StreamPush => s
  }

  /** The state after the events, in order. */
  function Run(s: CounterState, evs: seq<Event>): CounterState
    decreases |evs|
  {
    if evs == [] then s else Run(Step(s, evs[0]), evs[1..])
  }

  /** The rates the sampler publishes along the events, one per tick. */
  function Published(s: CounterState, evs: seq<Event>): seq<nat>
    decreases |evs|
  {
    if evs == [] then []
    else (if evs[0] == Tick then [s.pending] else []) + Published(Step(s, evs[0]), evs[1..])
  }

  function CountRequests(evs: seq<Event>): nat {
    if evs == [] then 0 else (if evs[0] == Request then 1 else 0) + CountRequests(evs[1..])
  }

  function Sum(xs: seq<nat>): nat {
    if xs == [] then 0 else xs[0] + Sum(xs[1..])
  }

  function Requests(n: nat): (evs: seq<Event>)
    ensures |evs| == n && forall i :: 0 <= i < n ==> evs[i] == Request
  {
    seq(n, _ => Request)
  }

  lemma {:induction false} SumAppend(xs: seq<nat>, ys: seq<nat>)
    ensures Sum(xs + ys) == Sum(xs) + Sum(ys)
  {
    if xs != [] {
      assert (xs + ys)[1..] == xs[1..] + ys;
      SumAppend(xs[1..], ys);
    } else {
      assert xs + ys == ys;
    }
  }

  /**
   * Every request is published by exactly one tick or is still pending:
   * the published rates plus what is pending account for every request,
   * nothing lost and nothing counted twice.
   */
  lemma {:induction false} RequestsConserved(s: CounterState, evs: seq<Event>)
    ensures Sum(Published(s, evs)) + Run(s, evs).pending == s.pending + CountRequests(evs)
    decreases |evs|
  {
    if evs != [] {
      var t := Step(s, evs[0]);
      RequestsConserved(t, evs[1..]);
      SumAppend(if evs[0] == Tick then [s.pending] else [], Published(t, evs[1..]));
    }
  }

  /** Without a tick the published rate stays as it is and every request stays pending. */
  lemma {:induction false} NoTickKeepsRate(s: CounterState, evs: seq<Event>)
    requires forall i :: 0 <= i < |evs| ==> evs[i] != Tick
    ensures Run(s, evs).published == s.published
    ensures Run(s, evs).pending == s.pending + CountRequests(evs)
    ensures Published(s, evs) == []
    decreases |evs|
  {
    if evs != [] {
      NoTickKeepsRate(Step(s, evs[0]), evs[1..]);
    }
  }

  lemma {:induction false} RunAppend(s: CounterState, evs: seq<Event>, more: seq<Event>)
    ensures Run(s, evs + more) == Run(Run(s, evs), more)
    decreases |evs|
  {
    if evs != [] {
      assert (evs + more)[1..] == evs[1..] + more;
      RunAppend(Step(s, evs[0]), evs[1..], more);
    } else {
      assert evs + more == more;
    }
  }

  /**
   * From any state, `n` requests and then a tick publish the count pending
   * before them plus `n` and leave nothing pending; a second tick straight
   * after publishes 0.
   */
  lemma RequestsThenTicks(s: CounterState, n: nat)
    ensures Run(s, Requests(n) + [Tick]) == CounterState(0, s.pending + n)
    ensures Run(s, Requests(n) + [Tick, Tick]) == CounterState(0, 0)
  {
    NoTickKeepsRate(s, Requests(n));
    assert CountRequests(Requests(n)) == n by { CountAll(n); }
    RunAppend(s, Requests(n), [Tick]);
    RunAppend(s, Requests(n), [Tick, Tick]);
  }

  lemma {:induction false} CountAll(n: nat)
    ensures CountRequests(Requests(n)) == n
  {
    if n > 0 {
      assert Requests(n)[1..] == Requests(n - 1);
      CountAll(n - 1);
    }
  }

  /** At the start of an interval (right after a tick), `n` requests and a tick publish exactly `n`. */
  lemma IntervalPublishesItsRequests(s: CounterState, n: nat)
    requires s.pending == 0
    ensures Run(s, Requests(n) + [Tick]).published == n
  {
    RequestsThenTicks(s, n);
  }

  // ---------------------------------------------------------------------
  // Responses and the event-stream message
  // ---------------------------------------------------------------------

  /** The JSON body of the root endpoint. */
  datatype IndexReply = IndexReply(status: string, message: string, currentRps: nat)

  /** The JSON body of the health endpoint. */
  datatype HealthReply = HealthReply(status: string, rps: nat)

  function IndexBody(published: nat): (r: IndexReply)
    ensures r.status == "ok" && r.message == "Request received" && r.currentRps == published
  {
    IndexReply("ok", "Request received", published)
  }

  /** One event the stream carries: the rate and the time it was read. */
  datatype SampleEvent = SampleEvent(rps: nat, timestamp: string)

  /** The shape `strftime("%Y-%m-%d %H:%M:%S")` produces: `YYYY-MM-DD HH:MM:SS`. */
  predicate IsTimestamp(ts: string) {
    && |ts| == 19
    && ts[4] == '-' && ts[7] == '-' && ts[10] == ' ' && ts[13] == ':' && ts[16] == ':'
    && forall i :: 0 <= i < 19 && i !in {4, 7, 10, 13, 16} ==> Decimal.IsDigit(ts[i])
  }

  const DataField := "data: "
  const RpsMember := "{\"rps\": "
  const TimestampMember := ", \"timestamp\": \""
  const PayloadClose := "\"}"
  /** A blank line ends an event in the text/event-stream format. */
  const EventEnd := "\n\n"

  /**
   * What `json.dumps({"rps": rps, "timestamp": ts})` writes with its default
   * separators; a timestamp of the strftime shape needs no escaping.
   */
  function Payload(rps: nat, ts: string): (p: string)
    requires IsTimestamp(ts)
    ensures forall i :: 0 <= i < |p| ==> p[i] != '\n' && p[i] != '\r'
  {
    RpsMember + Decimal.Digits(rps) + TimestampMember + ts + PayloadClose
  }

  /**
   * One stream message: it starts with the `data: ` field name, ends with the
   * blank line that dispatches one event, and has no line break in between.
   */
  function StreamMessage(rps: nat, ts: string): (m: string)
    requires IsTimestamp(ts)
    ensures |m| > 8 && m[..6] == "data: " && m[|m| - 2..] == "\n\n"
    ensures forall i :: 6 <= i < |m| - 2 ==> m[i] != '\n' && m[i] != '\r'
  {
    var p := Payload(rps, ts);
    var m := DataField + p + EventEnd;
    assert forall i :: 6 <= i < |m| - 2 ==> m[i] == p[i - 6];
    m
  }

  /**
   * What a client reads back from one message: the `data:` line, then the JSON object.
   * JSON writes a number without leading zeros, so only the canonical decimal text is accepted.
   */
  function ParseMessage(m: string): Option<SampleEvent> {
    var fixed := |DataField| + |RpsMember| + |TimestampMember| + 19 + |PayloadClose| + |EventEnd|;
    if |m| <= fixed then None
    else
      var head := |DataField| + |RpsMember|;
      var tail := |m| - |PayloadClose| - |EventEnd|;
      var digits := m[head .. tail - 19 - |TimestampMember|];
      var ts := m[tail - 19 .. tail];
      if && m[..head] == DataField + RpsMember
         && m[tail - 19 - |TimestampMember| .. tail - 19] == TimestampMember
         && m[tail..] == PayloadClose + EventEnd
         && Decimal.AllDigits(digits)
         && digits == Decimal.Digits(Decimal.Value(digits))
         && IsTimestamp(ts)
      then Some(SampleEvent(Decimal.Value(digits), ts))
      else None
  }

  /** A client recovers the rate and the timestamp from every message the stream sends. */
  lemma ParseStreamMessage(rps: nat, ts: string)
    requires IsTimestamp(ts)
    ensures ParseMessage(StreamMessage(rps, ts)) == Some(SampleEvent(rps, ts))
  {
    var d := Decimal.Digits(rps);
    var m := StreamMessage(rps, ts);
    assert m == DataField + RpsMember + d + TimestampMember + ts + PayloadClose + EventEnd;
    var head := |DataField| + |RpsMember|;
    var tail := |m| - |PayloadClose| - |EventEnd|;
    assert m[..head] == DataField + RpsMember;
    assert m[head .. tail - 19 - |TimestampMember|] == d;
    assert m[tail - 19 - |TimestampMember| .. tail - 19] == TimestampMember;
    assert m[tail - 19 .. tail] == ts;
    assert m[tail..] == PayloadClose + EventEnd;
    Decimal.ValueOfDigits(rps);
  }

  /** A string is the concatenation of its pieces between four cut points. */
  lemma SplitAt(m: string, a: nat, b: nat, c: nat, d: nat)
    requires a <= b <= c <= d <= |m|
    ensures m == m[..a] + m[a..b] + m[b..c] + m[c..d] + m[d..]
  {
    assert m == m[..a] + m[a..];
    assert m[a..] == m[a..b] + m[b..];
    assert m[b..] == m[b..c] + m[c..];
    assert m[c..] == m[c..d] + m[d..];
  }

  /** Conversely, every message a client accepts is the stream message of what it read. */
  lemma ParsedMessageIsStreamMessage(m: string, e: SampleEvent)
    requires ParseMessage(m) == Some(e)
    ensures IsTimestamp(e.timestamp) && m == StreamMessage(e.rps, e.timestamp)
  {
    var head := |DataField| + |RpsMember|;
    var tail := |m| - |PayloadClose| - |EventEnd|;
    var b := tail - 19 - |TimestampMember|;
    var c := tail - 19;
    var digits, ts := m[head .. b], m[c .. tail];
    assert m[..head] == DataField + RpsMember;
    assert m[b .. c] == TimestampMember;
    assert m[tail..] == PayloadClose + EventEnd;
    assert digits == Decimal.Digits(e.rps) && ts == e.timestamp;
    SplitAt(m, head, b, c, tail);
    StreamMessageParts(e.rps, e.timestamp);
  }

  /** The stream message of a rate and a timestamp, written out piece by piece. */
  lemma StreamMessageParts(rps: nat, ts: string)
    requires IsTimestamp(ts)
    ensures StreamMessage(rps, ts)
         == (DataField + RpsMember) + Decimal.Digits(rps) + TimestampMember + ts + (PayloadClose + EventEnd)
  {
  }

  // ---------------------------------------------------------------------
  // The listening port
  // ---------------------------------------------------------------------

  /** The default of the `--port` flag. */
  const DefaultPort := 5000

  /** `--port` as parsed: the flag's value when given, else its default. */
  function PortFlag(flag: Option<int>): (p: int)
    ensures flag.Some? ==> p == flag.value
    ensures flag.None? ==> p == 5000
  {
    match flag
    case Some(p) => p
    case None => DefaultPort
  }

  /**
   * The `APP_PORT` environment value (already converted to an integer) when
   * set, else the flag; once `APP_PORT` is set the flag has no effect.
   */
  function ListeningPort(appPort: Option<int>, flag: Option<int>): (port: int)
    ensures appPort.Some? ==> port == appPort.value
    ensures appPort.None? && flag.Some? ==> port == flag.value
    ensures appPort.None? && flag.None? ==> port == 5000
  {
    match appPort
    case Some(p) => p
    case None => PortFlag(flag)
  }

  // ---------------------------------------------------------------------
  // The shared counter object
  // ---------------------------------------------------------------------

  class RateCounter {
    /** Requests counted since the last tick. */
    var requestCounter: nat
    /** The rate the last tick published. */
    var currentRps: nat

    function State(): CounterState
      reads this
    {
      CounterState(requestCounter, currentRps)
    }

    constructor ()
      ensures State() == Init
    {
      requestCounter := 0;
      currentRps := 0;
    }

    /** The root endpoint: count one request and reply with the published, not the pending, rate. */
    method Index() returns (reply: IndexReply)
      modifies this
      ensures State() == AfterRequest(old(State()))
      ensures requestCounter == old(requestCounter) + 1 && currentRps == old(currentRps)
      ensures reply.status == "ok" && reply.message == "Request received"
      ensures reply.currentRps == old(currentRps) == currentRps
    {
      requestCounter := requestCounter + 1;
      reply := IndexBody(currentRps);
    }

    /** One pass of the sampler loop after its sleep. */
    method SampleTick()
      modifies this
      ensures State() == AfterTick(old(State()))
      ensures currentRps == old(requestCounter) && requestCounter == 0
    {
      currentRps := requestCounter;
      requestCounter := 0;
    }

    /** The health endpoint reads the published rate only. */
    function Health(): (reply: HealthReply)
      reads this
      ensures reply.status == "healthy" && reply.rps == State().published
    {
      HealthReply("healthy", currentRps)
    }

    /**
     * The message one pass of the stream generator sends: exactly the stream message of the
     * published rate, which a client reads back as that rate and the given timestamp.
     */
    function NextStreamMessage(ts: string): (m: string)
      reads this
      requires IsTimestamp(ts)
      ensures m == StreamMessage(State().published, ts)
      ensures ParseMessage(m) == Some(SampleEvent(State().published, ts))
    {
      ParseStreamMessage(currentRps, ts);
      StreamMessage(currentRps, ts)
    }

    /**
     * Apply one event through the object's operations; the state follows
     * `Step`, and only a tick writes the published rate.
     */
    method Handle(e: Event, ts: string)
      requires IsTimestamp(ts)
      modifies this
      ensures State() == Step(old(State()), e)
    {
      match e
      case Request =>
        var _ := Index();
      case Tick =>
        SampleTick();
      case HealthCheck =>
        var _ := Health();
      case StreamPush =>
        var _ := NextStreamMessage(ts);
    }

    /**
     * The sampler loop run for `|arrivals|` passes: during the sleep of pass
     * `i`, `arrivals[i]` root requests are served, then the tick publishes.
     * Each pass publishes exactly the requests of its own interval.
     */
    method RunSampler(arrivals: seq<nat>) returns (published: seq<nat>)
      modifies this
      ensures |published| == |arrivals|
      ensures forall i :: 0 < i < |arrivals| ==> published[i] == arrivals[i]
      ensures |arrivals| > 0 ==> published[0] == old(requestCounter) + arrivals[0]
      ensures |arrivals| > 0 ==> State() == CounterState(0, arrivals[|arrivals| - 1] + (if |arrivals| == 1 then old(requestCounter) else 0))
      ensures |arrivals| == 0 ==> State() == old(State())
    {
      published := [];
      var i := 0;
      while i < |arrivals|
        invariant 0 <= i <= |arrivals|
        invariant |published| == i
        invariant i > 0 ==> published[0] == old(requestCounter) + arrivals[0]
        invariant forall k :: 0 < k < i ==> published[k] == arrivals[k]
        invariant i > 0 ==> requestCounter == 0 && currentRps == published[i - 1]
        invariant i == 0 ==> State() == old(State())
      {
        // the sleep: other threads serve this interval's requests
        var before := requestCounter;
        var j := 0;
        while j < arrivals[i]
          invariant 0 <= j <= arrivals[i]
          invariant requestCounter == before + j
        {
          var _ := Index();
          j := j + 1;
        }
        SampleTick();
        published := published + [currentRps];
        i := i + 1;
      }
    }
  }
}
