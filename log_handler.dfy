/**
 * The correlated, buffered, rate-limited log handler that the SSH library's
 * java.util.logging output is routed through.
 *
 * The handler is bound to one execution id and ignores records logged under
 * any other id; it counts lines in a one-second window, drops the excess and
 * inserts one marker line per window; it buffers accepted lines and writes
 * them to the step's print stream when the buffer is full or the flush
 * interval has elapsed.
 *
 * The print stream is the `sink` sequence (one element per `println`), the
 * wall clock is the `now` argument of `Publish`, and the ambient execution id
 * (MDC "execution.id") is the `currentId` argument.
 */
module LogHandler {
  import opened Wrappers

  const DefaultBufferSize: int := 50
  const DefaultFlushIntervalMs: int := 100
  const DefaultRateLimitLinesPerSec: int := 1000

  /** Length of a rate-limit window, in milliseconds. */
  const WindowMs: int := 1000

  /** The line put in place of the first dropped line of a window. */
  const RateLimitMarker: string := "[Rate limit exceeded: some output suppressed]"

  /** The handler's final fields. A rate limit of 0 (or less) disables rate limiting. */
  datatype Config = Config(bufferSize: int, flushIntervalMs: int, rateLimit: int)

  /** The handler's mutable fields together with everything written to the sink so far. */
  datatype HandlerState = HandlerState(
    uuid: Option<string>,
    buffer: seq<string>,
    sink: seq<string>,
    lineCount: int,
    lastRateLimitReset: int,
    lastFlushTime: int)

  /** One call of `publish`: the record's message, the execution id current at the call, the clock. */
  datatype Record = Record(message: string, currentId: Option<string>, now: int)

  /** Every line the handler has written or will write on the next flush, in order. */
  function Output(s: HandlerState): seq<string>
  {
    s.sink + s.buffer
  }

  function Max(a: int, b: int): int
  {
    if a < b then b else a
  }

  function Min(a: int, b: int): int
  {
    if a < b then a else b
  }

  /**
   * The handler's invariant: a non-negative capacity and counter, and a buffer
   * that holds fewer than `bufferSize` lines except for the one marker line of
   * the current window.
   */
  ghost predicate Inv(cfg: Config, s: HandlerState)
  {
    && cfg.bufferSize >= 0
    && s.lineCount >= 0
    && |s.buffer| <= Max(cfg.bufferSize - 1, 0) + (if cfg.rateLimit > 0 && s.lineCount > cfg.rateLimit then 1 else 0)
  }

  /** `flushBuffer`: the buffered lines go to the sink, in order, and the buffer is emptied. */
  function Flushed(s: HandlerState): (r: HandlerState)
    ensures r.buffer == [] && Output(r) == Output(s)
    ensures s.buffer == [] ==> r == s
  {
    s.(sink := s.sink + s.buffer, buffer := [])
  }

  /** The id the handler is bound to once a record with `currentId` reaches it. */
  function BoundId(s: HandlerState, currentId: Option<string>): Option<string>
  {
    if s.uuid.None? then currentId else s.uuid
  }

  /** The number of lines already counted in the window that a record at `now` falls into. */
  function WindowCount(cfg: Config, s: HandlerState, now: int): int
  {
    if now - s.lastRateLimitReset >= WindowMs then 0 else s.lineCount
  }

  /** A record that passes the id check and the rate limit, so that its message is buffered. */
  predicate LineAccepted(cfg: Config, s: HandlerState, rec: Record)
  {
    && BoundId(s, rec.currentId) == rec.currentId
    && (cfg.rateLimit <= 0 || WindowCount(cfg, s, rec.now) < cfg.rateLimit)
  }

  /** The buffering part of `publish`: append the message, then flush if full or due. */
  function Buffered(cfg: Config, s: HandlerState, rec: Record): HandlerState
  {
    var a := s.(buffer := s.buffer + [rec.message]);
    if |a.buffer| >= cfg.bufferSize || rec.now - a.lastFlushTime >= cfg.flushIntervalMs then
      Flushed(a).(lastFlushTime := rec.now)
    else
      a
  }

  /** The state after one call of `publish`. */
  function Published(cfg: Config, s: HandlerState, rec: Record): HandlerState
  {
    var bound := BoundId(s, rec.currentId);
    var t := s.(uuid := bound);
    if bound != rec.currentId then
      t
    else if cfg.rateLimit > 0 then
      var w := if rec.now - t.lastRateLimitReset >= WindowMs
               then t.(lineCount := 0, lastRateLimitReset := rec.now)
               else t;
      var count := w.lineCount + 1;
      if count > cfg.rateLimit then
        w.(lineCount := count,
           buffer := if count == cfg.rateLimit + 1 then w.buffer + [RateLimitMarker] else w.buffer)
      else
        Buffered(cfg, w.(lineCount := count), rec)
    else
      Buffered(cfg, t, rec)
  }

  /** The state after publishing `recs` in order. */
  function Run(cfg: Config, s: HandlerState, recs: seq<Record>): HandlerState
    decreases |recs|
  {
    if recs == [] then s
    else Published(cfg, Run(cfg, s, recs[..|recs| - 1]), recs[|recs| - 1])
  }

  /** The messages of `recs`, in order. */
  function Messages(recs: seq<Record>): seq<string>
  {
    seq(|recs|, i requires 0 <= i < |recs| => recs[i].message)
  }

  /** The records of `recs` logged under execution id `id`, in order. */
  function OwnRecords(recs: seq<Record>, id: Option<string>): seq<Record>
    decreases |recs|
  {
    if recs == [] then []
    else
      var last := recs[|recs| - 1];
      OwnRecords(recs[..|recs| - 1], id) + (if last.currentId == id then [last] else [])
  }

  // ---------------------------------------------------------------------------
  // One call of publish
  // ---------------------------------------------------------------------------

  /** `publish` keeps the handler's invariant. */
  lemma PublishedKeepsInv(cfg: Config, s: HandlerState, rec: Record)
    requires Inv(cfg, s)
    ensures Inv(cfg, Published(cfg, s, rec))
  {
  }

  /** An unbound handler binds to the id current at its first record (which may be null) and processes it. */
  lemma BindsOnFirstPublish(cfg: Config, s: HandlerState, rec: Record)
    requires s.uuid.None?
    ensures Published(cfg, s, rec).uuid == rec.currentId
    ensures cfg.rateLimit <= 0 ==> Output(Published(cfg, s, rec)) == Output(s) + [rec.message]
  {
  }

  /** A record logged under another execution id changes nothing at all. */
  lemma ForeignRecordIgnored(cfg: Config, s: HandlerState, rec: Record)
    requires s.uuid.Some? && s.uuid != rec.currentId
    ensures Published(cfg, s, rec) == s
  {
  }

  /**
   * A record one second or more after the window start opens a new window:
   * the counter restarts at 1, the window starts at `now`, and the line is kept.
   */
  lemma NewWindowAcceptsLine(cfg: Config, s: HandlerState, rec: Record)
    requires cfg.rateLimit > 0
    requires BoundId(s, rec.currentId) == rec.currentId
    requires rec.now - s.lastRateLimitReset >= WindowMs
    ensures Published(cfg, s, rec).uuid == rec.currentId
    ensures Published(cfg, s, rec).lineCount == 1
    ensures Published(cfg, s, rec).lastRateLimitReset == rec.now
    ensures Output(Published(cfg, s, rec)) == Output(s) + [rec.message]
  {
  }

  /**
   * Within a window whose quota is spent, a line is dropped but still counted;
   * the marker is added only for the line that makes the count `rateLimit + 1`,
   * and nothing is flushed.
   */
  lemma OverQuotaLineDropped(cfg: Config, s: HandlerState, rec: Record)
    requires cfg.rateLimit > 0
    requires BoundId(s, rec.currentId) == rec.currentId
    requires WindowCount(cfg, s, rec.now) >= cfg.rateLimit
    ensures Published(cfg, s, rec).lineCount == s.lineCount + 1
    ensures Published(cfg, s, rec).sink == s.sink
    ensures Published(cfg, s, rec).lastFlushTime == s.lastFlushTime
    ensures Published(cfg, s, rec).buffer
         == s.buffer + (if s.lineCount == cfg.rateLimit then [RateLimitMarker] else [])
  {
  }

  /**
   * The flush rule for an accepted line: after it is buffered, the buffer is
   * flushed and the flush time set to `now` exactly when the buffer reached
   * `bufferSize` or the flush interval elapsed; so an accepted line never
   * leaves `bufferSize` or more lines behind.
   */
  lemma AcceptedLineFlushRule(cfg: Config, s: HandlerState, rec: Record)
    requires LineAccepted(cfg, s, rec)
    ensures var r := Published(cfg, s, rec);
            var due := |s.buffer| + 1 >= cfg.bufferSize || rec.now - s.lastFlushTime >= cfg.flushIntervalMs;
            && (due ==> r.buffer == [] && r.sink == s.sink + s.buffer + [rec.message] && r.lastFlushTime == rec.now)
            && (!due ==> r.buffer == s.buffer + [rec.message] && r.sink == s.sink && r.lastFlushTime == s.lastFlushTime)
            && (r.buffer == [] || |r.buffer| < cfg.bufferSize)
  {
  }

  // ---------------------------------------------------------------------------
  // Sequences of calls
  // ---------------------------------------------------------------------------

  lemma MessagesPrefix(recs: seq<Record>, k: nat)
    requires k <= |recs|
    ensures Messages(recs[..k]) == Messages(recs)[..k]
  {
  }

  /** One record inside the current window, of the bound execution, with rate limiting on. */
  lemma InWindowStep(cfg: Config, p: HandlerState, rec: Record)
    requires cfg.rateLimit > 0
    requires rec.currentId == p.uuid && rec.now - p.lastRateLimitReset < WindowMs
    ensures var r := Published(cfg, p, rec);
            && r.uuid == p.uuid
            && r.lastRateLimitReset == p.lastRateLimitReset
            && r.lineCount == p.lineCount + 1
            && Output(r) == Output(p) + (if p.lineCount < cfg.rateLimit then [rec.message]
                                         else if p.lineCount == cfg.rateLimit then [RateLimitMarker]
                                         else [])
  {
  }

  /**
   * Rate limiting over one window: starting from a counter `c`, a burst of
   * records that all fall into the current window is written as the first
   * `rateLimit - c` messages, in order, followed by one marker if the quota is
   * exceeded during the burst; every record is counted.
   */
  lemma {:induction false} BurstInOneWindow(cfg: Config, s: HandlerState, recs: seq<Record>)
    requires cfg.rateLimit > 0 && s.lineCount >= 0
    requires forall i :: 0 <= i < |recs| ==> recs[i].currentId == s.uuid
    requires forall i :: 0 <= i < |recs| ==> recs[i].now - s.lastRateLimitReset < WindowMs
    ensures var r := Run(cfg, s, recs);
            && r.uuid == s.uuid
            && r.lastRateLimitReset == s.lastRateLimitReset
            && r.lineCount == s.lineCount + |recs|
            && Output(r) == Output(s)
                            + Messages(recs)[..Min(|recs|, Max(cfg.rateLimit - s.lineCount, 0))]
                            + (if s.lineCount <= cfg.rateLimit < s.lineCount + |recs| then [RateLimitMarker] else [])
    decreases |recs|
  {
    if recs != [] {
      var n, c, lim := |recs|, s.lineCount, cfg.rateLimit;
      var prefix, last := recs[..n - 1], recs[n - 1];
      BurstInOneWindow(cfg, s, prefix);
      var p := Run(cfg, s, prefix);
      assert Run(cfg, s, recs) == Published(cfg, p, last);
      InWindowStep(cfg, p, last);
      var k := Min(n, Max(lim - c, 0));
      var k' := Min(n - 1, Max(lim - c, 0));
      var marks: seq<string> := if c <= lim < c + n then [RateLimitMarker] else [];
      var marks': seq<string> := if c <= lim < c + n - 1 then [RateLimitMarker] else [];
      MessagesPrefix(recs, n - 1);
      assert Messages(recs)[..k'] == Messages(prefix)[..k'];
      assert Output(p) == Output(s) + Messages(prefix)[..k'] + marks';
      if c + n <= lim {
        assert Messages(recs)[..k] == Messages(prefix)[..k'] + [last.message];
        assert marks == [] && marks' == [];
      } else if c + n == lim + 1 {
        assert k == k' && marks' == [] && marks == [RateLimitMarker];
      } else {
        assert k == k' && marks == marks';
      }
    }
  }

  /** A burst from a fresh window: `rateLimit + m` lines give the first `rateLimit` lines and one marker. */
  lemma FreshWindowBurst(cfg: Config, s: HandlerState, recs: seq<Record>)
    requires cfg.rateLimit > 0 && s.lineCount == 0
    requires |recs| > cfg.rateLimit
    requires forall i :: 0 <= i < |recs| ==> recs[i].currentId == s.uuid
    requires forall i :: 0 <= i < |recs| ==> recs[i].now - s.lastRateLimitReset < WindowMs
    ensures Output(Run(cfg, s, recs)) == Output(s) + Messages(recs[..cfg.rateLimit]) + [RateLimitMarker]
  {
    BurstInOneWindow(cfg, s, recs);
    MessagesPrefix(recs, cfg.rateLimit);
  }

  /** Publishing `a` and then `b` is publishing `a + b`. */
  lemma {:induction false} RunAppend(cfg: Config, s: HandlerState, a: seq<Record>, b: seq<Record>)
    ensures Run(cfg, s, a + b) == Run(cfg, Run(cfg, s, a), b)
    decreases |b|
  {
    if b == [] {
      assert a + b == a;
    } else {
      var n := |b|;
      RunAppend(cfg, s, a, b[..n - 1]);
      assert (a + b)[..|a + b| - 1] == a + b[..n - 1];
      assert (a + b)[|a + b| - 1] == b[n - 1];
    }
  }

  /**
   * A burst whose first record opens a new window (one second or more after
   * the previous window's start) and whose other records fall within one
   * second of it: the first `rateLimit` lines are written, in order, then one
   * marker if there are more; the window starts at the first record.
   */
  lemma NewWindowBurst(cfg: Config, s: HandlerState, recs: seq<Record>)
    requires cfg.rateLimit > 0 && |recs| > 0
    requires BoundId(s, recs[0].currentId) == recs[0].currentId
    requires forall i :: 0 <= i < |recs| ==> recs[i].currentId == recs[0].currentId
    requires recs[0].now - s.lastRateLimitReset >= WindowMs
    requires forall i :: 0 <= i < |recs| ==> recs[i].now - recs[0].now < WindowMs
    ensures var r := Run(cfg, s, recs);
            && r.lineCount == |recs|
            && r.lastRateLimitReset == recs[0].now
            && Output(r) == Output(s) + Messages(recs)[..Min(|recs|, cfg.rateLimit)]
                            + (if cfg.rateLimit < |recs| then [RateLimitMarker] else [])
  {
    var n, lim := |recs|, cfg.rateLimit;
    var rest := recs[1..];
    var p := Published(cfg, s, recs[0]);
    RunFirst(cfg, s, recs);
    NewWindowAcceptsLine(cfg, s, recs[0]);
    forall i | 0 <= i < |rest|
      ensures rest[i].currentId == p.uuid && rest[i].now - p.lastRateLimitReset < WindowMs
    {
      assert rest[i] == recs[i + 1];
    }
    BurstInOneWindow(cfg, p, rest);
    var k := Min(n, lim);
    var marks: seq<string> := if lim < n then [RateLimitMarker] else [];
    assert Min(|rest|, Max(lim - 1, 0)) == k - 1;
    assert (1 <= lim < 1 + |rest|) == (lim < n);
    MessagesOfTail(recs, k);
    var r := Run(cfg, p, rest);
    assert Output(r) == Output(p) + Messages(rest)[..k - 1] + marks;
    assert Output(r) == Output(s) + ([recs[0].message] + Messages(rest)[..k - 1]) + marks;
  }

  /** The run over a non-empty sequence publishes its first record, then the rest. */
  lemma RunFirst(cfg: Config, s: HandlerState, recs: seq<Record>)
    requires |recs| > 0
    ensures Run(cfg, s, recs) == Run(cfg, Published(cfg, s, recs[0]), recs[1..])
  {
    assert recs == recs[..1] + recs[1..];
    RunAppend(cfg, s, recs[..1], recs[1..]);
    assert recs[..1][..0] == [];
  }

  lemma MessagesOfTail(recs: seq<Record>, k: nat)
    requires 1 <= k <= |recs|
    ensures Messages(recs)[..k] == [recs[0].message] + Messages(recs[1..])[..k - 1]
  {
    var lhs := Messages(recs)[..k];
    var rhs := [recs[0].message] + Messages(recs[1..])[..k - 1];
    assert |lhs| == |rhs|;
    forall i | 0 <= i < k
      ensures lhs[i] == rhs[i]
    {
      if i > 0 {
        assert rhs[i] == Messages(recs[1..])[i - 1] == recs[1..][i - 1].message;
      }
    }
  }

  /** One record of the bound execution with rate limiting off: its message is kept. */
  lemma UnlimitedStep(cfg: Config, p: HandlerState, rec: Record)
    requires cfg.rateLimit <= 0 && rec.currentId == p.uuid
    ensures Published(cfg, p, rec).uuid == p.uuid
    ensures Output(Published(cfg, p, rec)) == Output(p) + [rec.message]
  {
  }

  /** With rate limiting disabled, every record of the bound execution is written, in order. */
  lemma {:induction false} UnlimitedKeepsEveryLine(cfg: Config, s: HandlerState, recs: seq<Record>)
    requires cfg.rateLimit <= 0
    requires forall i :: 0 <= i < |recs| ==> recs[i].currentId == s.uuid
    ensures Run(cfg, s, recs).uuid == s.uuid
    ensures Output(Run(cfg, s, recs)) == Output(s) + Messages(recs)
    decreases |recs|
  {
    if recs != [] {
      var n := |recs|;
      var prefix, last := recs[..n - 1], recs[n - 1];
      UnlimitedKeepsEveryLine(cfg, s, prefix);
      assert Run(cfg, s, recs) == Published(cfg, Run(cfg, s, prefix), last);
      UnlimitedStep(cfg, Run(cfg, s, prefix), last);
      MessagesPrefix(recs, n - 1);
      assert Messages(recs) == Messages(prefix) + [last.message];
    }
  }

  /**
   * Isolation between executions: once bound to an id, the handler ends in the
   * same state whether or not records of other executions are interleaved.
   */
  lemma {:induction false} IsolatedFromOtherExecutions(cfg: Config, s: HandlerState, recs: seq<Record>)
    requires s.uuid.Some?
    ensures Run(cfg, s, recs).uuid == s.uuid
    ensures Run(cfg, s, recs) == Run(cfg, s, OwnRecords(recs, s.uuid))
    decreases |recs|
  {
    if recs != [] {
      var n := |recs|;
      var prefix, last := recs[..n - 1], recs[n - 1];
      IsolatedFromOtherExecutions(cfg, s, prefix);
      var own := OwnRecords(prefix, s.uuid);
      if last.currentId == s.uuid {
        assert OwnRecords(recs, s.uuid) == own + [last];
        assert (own + [last])[..|own|] == own;
      } else {
        assert OwnRecords(recs, s.uuid) == own;
      }
    }
  }

  // ---------------------------------------------------------------------------
  // The handler object
  // ---------------------------------------------------------------------------

  class CustomLogHandler {
    const bufferSize: int
    const flushIntervalMs: int
    const rateLimitLinesPerSec: int

    /** The step's print stream; the handler only appends to it and never closes it. */
    var sink: seq<string>
    var uuid: Option<string>
    var buffer: seq<string>
    var lastFlushTime: int
    var lineCount: int
    var lastRateLimitReset: int

    function Cfg(): Config
    {
      Config(bufferSize, flushIntervalMs, rateLimitLinesPerSec)
    }

    function State(): HandlerState
      reads this
    {
      HandlerState(uuid, buffer, sink, lineCount, lastRateLimitReset, lastFlushTime)
    }

    ghost predicate Valid()
      reads this
    {
      Inv(Cfg(), State())
    }

    /** The configurable constructor; a negative `bufferSize` is rejected by the buffer's allocation. */
    constructor (sink: seq<string>, uuid: Option<string>, bufferSize: int, flushIntervalMs: int,
                 rateLimitLinesPerSec: int, now: int)
      requires bufferSize >= 0
      ensures Valid()
      ensures Cfg() == Config(bufferSize, flushIntervalMs, rateLimitLinesPerSec)
      ensures State() == HandlerState(uuid, [], sink, 0, now, now)
    {
      this.sink := sink;
      this.uuid := uuid;
      this.bufferSize := bufferSize;
      this.flushIntervalMs := flushIntervalMs;
      this.rateLimitLinesPerSec := rateLimitLinesPerSec;
      this.buffer := [];
      this.lastFlushTime := now;
      this.lineCount := 0;
      this.lastRateLimitReset := now;
    }

    /** The constructor with default buffering: 50 lines, 100 ms, 1000 lines per second. */
    constructor WithDefaults(sink: seq<string>, uuid: Option<string>, now: int)
      ensures Valid()
      ensures Cfg() == Config(DefaultBufferSize, DefaultFlushIntervalMs, DefaultRateLimitLinesPerSec)
      ensures State() == HandlerState(uuid, [], sink, 0, now, now)
    {
      this.sink := sink;
      this.uuid := uuid;
      this.bufferSize := DefaultBufferSize;
      this.flushIntervalMs := DefaultFlushIntervalMs;
      this.rateLimitLinesPerSec := DefaultRateLimitLinesPerSec;
      this.buffer := [];
      this.lastFlushTime := now;
      this.lineCount := 0;
      this.lastRateLimitReset := now;
    }

    method Publish(message: string, currentId: Option<string>, now: int)
      requires Valid()
      modifies this
      ensures Valid()
      ensures State() == Published(Cfg(), old(State()), Record(message, currentId, now))
    {
      PublishedKeepsInv(Cfg(), State(), Record(message, currentId, now));
      if uuid.None? {
        uuid := currentId;
      }
      if uuid != currentId {
        return;
      }
      if rateLimitLinesPerSec > 0 {
        if now - lastRateLimitReset >= WindowMs {
          lineCount := 0;
          lastRateLimitReset := now;
        }
        lineCount := lineCount + 1;
        var currentCount := lineCount;
        if currentCount > rateLimitLinesPerSec {
          if currentCount == rateLimitLinesPerSec + 1 {
            buffer := buffer + [RateLimitMarker];
          }
          return;
        }
      }
      buffer := buffer + [message];
      if |buffer| >= bufferSize || now - lastFlushTime >= flushIntervalMs {
        FlushBuffer();
        lastFlushTime := now;
      }
    }

    /** Prints the buffered lines one by one, then clears the buffer. */
    method FlushBuffer()
      modifies this
      ensures State() == Flushed(old(State()))
    {
      if buffer != [] {
        var i := 0;
        while i < |buffer|
          modifies this`sink
          invariant 0 <= i <= |buffer|
          invariant sink == old(sink) + buffer[..i]
        {
          sink := sink + [buffer[i]];
          i := i + 1;
        }
        assert buffer[..i] == buffer;
        buffer := [];
      }
    }

    method Flush()
      requires Valid()
      modifies this
      ensures Valid()
      ensures State() == Flushed(old(State()))
    {
      FlushBuffer();
    }

    /** Flushes what is buffered; the sink stays open for the step that owns it. */
    method Close()
      requires Valid()
      modifies this
      ensures Valid()
      ensures State() == Flushed(old(State()))
    {
      FlushBuffer();
    }
  }
}
