/** Retrying a Graph call: a bounded loop with exponential backoff, in 64-bit nanoseconds. */
module Retry {
  import opened Text
  import opened Wrappers

  const TWO_63 := 0x8000_0000_0000_0000

  const TWO_64 := 0x1_0000_0000_0000_0000

  const NANOS_PER_SECOND := 1_000_000_000

  const NANOS_PER_MILLI := 1_000_000

  const MAX_RETRY_WAIT := 60 * NANOS_PER_SECOND

  /** The value 64-bit two's complement arithmetic keeps of `x`. */
  function Wrap64(x: int): (w: int)
    ensures -TWO_63 <= w < TWO_63
    ensures w == x <==> -TWO_63 <= x < TWO_63
  {
    if -TWO_63 <= x < TWO_63 then x else (x + TWO_63) % TWO_64 - TWO_63
  }

  /** One run of the call; `retryAfter` is the first Retry-After header value, when there is one. */
  datatype Reply = Success | GraphError(status: int, retryAfter: Option<string>) | OtherError

  datatype Config = Config(maxRetries: int, initialBackoff: int)

  /** What configuration validation lets through. */
  predicate ValidatedConfig(maxRetries: int, backoffMillis: int) {
    0 <= maxRetries <= 10 && 100 <= backoffMillis <= 30000
  }

  function Configure(maxRetries: int, backoffMillis: int): Config {
    Config(maxRetries, Wrap64(backoffMillis * NANOS_PER_MILLI))
  }

  /** Everything a run depends on: the reply of each call, whether the context is found cancelled at the
      start, after a call or during the wait that follows it, and the random jitter drawn after a call. */
  datatype World = World(
    reply: nat -> Reply,
    cancelledAtStart: bool,
    cancelledAfter: nat -> bool,
    cancelledInWait: nat -> bool,
    jitter: nat -> int)

  function Status(r: Reply): int {
    if r.GraphError? then r.status else 0
  }

  predicate Transient(r: Reply) {
    !r.Success? && (Status(r) == 429 || Status(r) == 503 || Status(r) == 504)
  }

  // ---------------------------------------------------------------------------
  // Delays
  // ---------------------------------------------------------------------------

  /** A decimal 64-bit integer with an optional sign. */
  function Atoi(s: string): Option<int> {
    var signed := s != "" && (s[0] == '+' || s[0] == '-');
    var digits := if signed then s[1..] else s;
    if digits == "" || !Digits(digits) then None
    else
      var value: int := DigitsValue(digits) * if signed && s[0] == '-' then -1 else 1;
      if -TWO_63 <= value < TWO_63 then Some(value) else None
  }

  /** Delay-seconds the server asked for; 0 when it asked for nothing usable. */
  function ExtractRetryAfter(r: Reply): (secs: int)
    ensures 0 <= secs < TWO_63
  {
    if !r.GraphError? || r.retryAfter.None? then 0
    else
      match Atoi(r.retryAfter.value)
      case Some(secs) => if secs <= 0 then 0 else secs
      case None => 0
  }

  function Pow2(n: nat): (p: int)
    ensures p >= 1
  {
    if n == 0 then 1 else 2 * Pow2(n - 1)
  }

  function CalculateBackoff(initialBackoff: int, attempt: nat, jitter: int): int {
    Wrap64(Wrap64(initialBackoff * Wrap64(Pow2(attempt))) + jitter)
  }

  function Wait(cfg: Config, attempt: nat, r: Reply, jitter: int): int {
    var backoff := CalculateBackoff(cfg.initialBackoff, attempt, jitter);
    var asked := ExtractRetryAfter(r);
    var wait := if Status(r) == 429 && asked > 0 then Wrap64(asked * NANOS_PER_SECOND) else backoff;
    if wait > MAX_RETRY_WAIT then MAX_RETRY_WAIT else wait
  }

  function Min(a: int, b: int): int {
    if a < b then a else b
  }

  /** The header is that many seconds written in decimal digits, with or without a plus sign, and a 64-bit number. */
  ghost predicate NamesDelay(header: Option<string>, secs: nat) {
    && 1 <= secs <= 9_223_372_036_854_775_807
    && exists digits :: ReadsAs(header, digits) && DigitsValue(digits) == secs
  }

  ghost predicate ReadsAs(header: Option<string>, digits: string) {
    digits != "" && Digits(digits) && (header == Some(digits) || header == Some("+" + digits))
  }

  /** The wait the documentation promises, in unbounded arithmetic: what a throttling answer names, and otherwise
      exponential backoff, either way at most a minute. */
  ghost function PromisedWait(cfg: Config, attempt: nat, r: Reply, jitter: int): int {
    if r.GraphError? && r.status == 429 && exists secs: nat :: NamesDelay(r.retryAfter, secs) then
      var secs: nat :| NamesDelay(r.retryAfter, secs);
      Min(secs * 1_000_000_000, 60_000_000_000)
    else Min(cfg.initialBackoff * Pow2(attempt) + jitter, 60_000_000_000)
  }

  /** The longest delay whose nanoseconds fit in 64 bits. */
  const MAX_DELAY_SECONDS := 9_223_372_036

  /** A delay header the arithmetic can carry. */
  ghost predicate DelayFits(r: Reply) {
    r.GraphError? && r.status == 429 ==> forall secs: nat :: NamesDelay(r.retryAfter, secs) ==> secs <= MAX_DELAY_SECONDS
  }

  // ---------------------------------------------------------------------------
  // Reading the header
  // ---------------------------------------------------------------------------

  /** A delay is extracted exactly from the headers that name it. */
  lemma DelayExtractedIff(r: Reply, secs: nat)
    ensures secs > 0 ==> (ExtractRetryAfter(r) == secs <==> r.GraphError? && NamesDelay(r.retryAfter, secs))
  {
    if r.GraphError? && r.retryAfter.Some? {
      var s := r.retryAfter.value;
      if s != "" && s[0] == '+' {
        assert s == "+" + s[1..];
      }
      if digits :| ReadsAs(r.retryAfter, digits) && DigitsValue(digits) == secs {
        assert s == digits || s[1..] == digits;
      }
      if ExtractRetryAfter(r) > 0 {
        assert ReadsAs(r.retryAfter, if s[0] == '+' then s[1..] else s);
      }
    }
  }

  /** So a header names at most one delay, and without a named one none is extracted. */
  lemma NoDelayExtracted(r: Reply)
    requires r.GraphError? ==> forall secs: nat :: !NamesDelay(r.retryAfter, secs)
    ensures ExtractRetryAfter(r) == 0
  {
    DelayExtractedIff(r, ExtractRetryAfter(r));
  }

  lemma ZeroRead()
    ensures Digits("0") && DigitsValue("0") == 0
  {
    assert "0"[..0] == "";
  }

  lemma DelayText(header: Option<string>, secs: nat)
    requires NamesDelay(header, secs)
    ensures header.Some? && header.value != "" && header.value != "0"
    ensures forall i :: 0 <= i < |header.value| ==> '0' <= header.value[i] <= '9' || (i == 0 && header.value[0] == '+')
  {
    var digits :| ReadsAs(header, digits) && DigitsValue(digits) == secs;
    assert ("+" + digits)[0] == '+';
    ZeroRead();
    assert header == Some("+" + digits) ==> forall i :: 1 <= i < |header.value| ==> header.value[i] == digits[i - 1];
  }

  /** No header, an empty one, zero, a signed negative number, and anything with a character that does not belong in
      a number, such as a date, name no delay. */
  lemma NoDelayNamed(header: Option<string>, secs: nat)
    requires || header.None?
             || header.value in {"", "0"}
             || (header.value != "" && header.value[0] == '-')
             || exists i :: 0 <= i < |header.value| && !('0' <= header.value[i] <= '9') && !(i == 0 && header.value[0] == '+')
    ensures !NamesDelay(header, secs)
  {
    if NamesDelay(header, secs) {
      DelayText(header, secs);
    }
  }

  lemma {:induction false} Pow2UpToTen(n: nat)
    requires n <= 10
    ensures Pow2(n) <= 1024
  {
    var p := 1;
    for i := 0 to n
      invariant p == Pow2(i)
      invariant p * Pow2(10 - i) == 1024
    {
      p := 2 * p;
    }
  }

  lemma MulAtMost(a: int, b: int, p: nat)
    requires a <= b
    ensures a * p <= b * p
  {
  }

  lemma Scaled(initial: int, p: int)
    requires 0 < initial <= 30_000_000_000 && 1 <= p <= 1024
    ensures initial <= initial * p <= 30_720_000_000_000
  {
    MulAtMost(1, p, initial);
    MulAtMost(initial, 30_000_000_000, p);
  }

  /** With a validated configuration the exponential backoff never overflows. */
  lemma BackoffFits(maxRetries: int, backoffMillis: int, attempt: nat, jitter: int)
    requires ValidatedConfig(maxRetries, backoffMillis) && attempt < maxRetries
    requires 0 <= jitter < Configure(maxRetries, backoffMillis).initialBackoff
    ensures Configure(maxRetries, backoffMillis).initialBackoff == backoffMillis * NANOS_PER_MILLI
    ensures CalculateBackoff(backoffMillis * NANOS_PER_MILLI, attempt, jitter) == backoffMillis * NANOS_PER_MILLI * Pow2(attempt) + jitter
    ensures CalculateBackoff(backoffMillis * NANOS_PER_MILLI, attempt, jitter) > 0
  {
    Pow2UpToTen(attempt);
    Scaled(backoffMillis * NANOS_PER_MILLI, Pow2(attempt));
  }

  /** The documentation's promise, with the delay that was extracted. */
  lemma PromiseIs(cfg: Config, attempt: nat, r: Reply, jitter: int)
    ensures PromisedWait(cfg, attempt, r, jitter) ==
            if Status(r) == 429 && ExtractRetryAfter(r) > 0 then Min(ExtractRetryAfter(r) * 1_000_000_000, 60_000_000_000)
            else Min(cfg.initialBackoff * Pow2(attempt) + jitter, 60_000_000_000)
  {
    forall secs: nat | r.GraphError? && NamesDelay(r.retryAfter, secs) ensures secs == ExtractRetryAfter(r) {
      DelayExtractedIff(r, secs);
    }
    DelayExtractedIff(r, ExtractRetryAfter(r));
  }

  /** Every wait is positive, at most a minute, and exactly as documented, provided the delay asked for is at
      most 9223372036 seconds. */
  lemma WaitIsAsPromised(maxRetries: int, backoffMillis: int, attempt: nat, r: Reply, jitter: int)
    requires ValidatedConfig(maxRetries, backoffMillis) && attempt < maxRetries
    requires 0 <= jitter < Configure(maxRetries, backoffMillis).initialBackoff
    requires DelayFits(r)
    ensures Wait(Configure(maxRetries, backoffMillis), attempt, r, jitter) ==
            PromisedWait(Configure(maxRetries, backoffMillis), attempt, r, jitter)
    ensures 0 < Wait(Configure(maxRetries, backoffMillis), attempt, r, jitter) <= 60_000_000_000
  {
    var cfg := Configure(maxRetries, backoffMillis);
    PromiseIs(cfg, attempt, r, jitter);
    DelayExtractedIff(r, ExtractRetryAfter(r));
    BackoffFits(maxRetries, backoffMillis, attempt, jitter);
  }

  /** A throttling answer whose header is missing or names no delay waits for the backoff, as do 503 and 504
      whatever their header says. */
  lemma BacksOff(maxRetries: int, backoffMillis: int, attempt: nat, status: int, header: Option<string>, jitter: int)
    requires ValidatedConfig(maxRetries, backoffMillis) && attempt < maxRetries && 0 <= jitter < backoffMillis * 1_000_000
    requires status != 429 || forall secs: nat :: !NamesDelay(header, secs)
    ensures Wait(Configure(maxRetries, backoffMillis), attempt, GraphError(status, header), jitter) ==
            Min(backoffMillis * 1_000_000 * Pow2(attempt) + jitter, 60_000_000_000)
  {
    BackoffFits(maxRetries, backoffMillis, attempt, jitter);
    if status == 429 {
      NoDelayExtracted(GraphError(status, header));
    }
  }

  /** The multiplication by nanoseconds is exact precisely up to that delay. */
  lemma DelayFitsIff(secs: int)
    requires 0 <= secs < TWO_63
    ensures Wrap64(secs * NANOS_PER_SECOND) == secs * NANOS_PER_SECOND <==> secs <= MAX_DELAY_SECONDS
  {
  }

  /** Wrapping keeps the remainder, read as a signed number. */
  lemma WrapIsSignedRemainder(x: nat)
    ensures Wrap64(x) == if x % TWO_64 < TWO_63 then x % TWO_64 else x % TWO_64 - TWO_64
  {
  }

  /** For a throttled call that names a delay, by the delay's nanoseconds modulo 2^64: the wait is positive
      exactly when they fall in the lower half, and as documented exactly when the delay fits or they fall
      there beyond the cap. */
  lemma ThrottledWaitIff(cfg: Config, attempt: nat, header: Option<string>, secs: nat, jitter: int)
    requires NamesDelay(header, secs)
    ensures var r, kept := GraphError(429, header), secs * 1_000_000_000 % 0x1_0000_0000_0000_0000;
            && (Wait(cfg, attempt, r, jitter) > 0 <==> 0 < kept < 0x8000_0000_0000_0000)
            && (Wait(cfg, attempt, r, jitter) == PromisedWait(cfg, attempt, r, jitter) <==>
                  secs <= 9_223_372_036 || 60_000_000_000 <= kept < 0x8000_0000_0000_0000)
  {
    var r := GraphError(429, header);
    DelayExtractedIff(r, secs);
    PromiseIs(cfg, attempt, r, jitter);
    WrapIsSignedRemainder(secs * NANOS_PER_SECOND);
    DelayFitsIff(secs);
  }

  /** A delay written out in digits is the delay used, as long as 64 bits hold it; a longer one is ignored. */
  lemma DelayIsRead(secs: nat)
    ensures ExtractRetryAfter(GraphError(429, Some(Decimal(secs)))) == if secs < TWO_63 then secs else 0
  {
    DecimalReads(secs);
  }

  lemma LongDelay(cfg: Config, attempt: nat, jitter: int, r: Reply)
    requires Status(r) == 429 && ExtractRetryAfter(r) == MAX_DELAY_SECONDS + 1
    ensures PromisedWait(cfg, attempt, r, jitter) == 60_000_000_000
    ensures Wait(cfg, attempt, r, jitter) == -9_223_372_036_709_551_616
  {
    PromiseIs(cfg, attempt, r, jitter);
  }

  /** One second more than fits, and the wait is negative: the timer fires at once although a delay was asked for. */
  lemma LongDelayIsNoWait(cfg: Config, attempt: nat, jitter: int, secs: nat)
    requires secs == MAX_DELAY_SECONDS + 1
    ensures var r := GraphError(429, Some(Decimal(secs)));
            && PromisedWait(cfg, attempt, r, jitter) == 60_000_000_000
            && Wait(cfg, attempt, r, jitter) == -9_223_372_036_709_551_616
  {
    DelayIsRead(secs);
    LongDelay(cfg, attempt, jitter, GraphError(429, Some(Decimal(secs))));
  }

  lemma Doubled(initial: int, p: int)
    requires initial > 0 && p >= 1
    ensures initial * (2 * p) >= initial * p + initial
  {
  }

  /** Between attempts the backoff grows until it reaches the cap, whatever jitter is drawn. */
  lemma BackoffGrows(maxRetries: int, backoffMillis: int, attempt: nat, r: Reply, s: Reply, jitter: int, next: int)
    requires ValidatedConfig(maxRetries, backoffMillis) && attempt + 1 < maxRetries
    requires var cfg := Configure(maxRetries, backoffMillis); 0 <= jitter < cfg.initialBackoff && 0 <= next < cfg.initialBackoff
    requires Status(r) != 429 && Status(s) != 429
    ensures var cfg := Configure(maxRetries, backoffMillis);
            var wait := Wait(cfg, attempt, r, jitter);
            wait < Wait(cfg, attempt + 1, s, next) || wait == Wait(cfg, attempt + 1, s, next) == 60_000_000_000
  {
    BackoffFits(maxRetries, backoffMillis, attempt, jitter);
    BackoffFits(maxRetries, backoffMillis, attempt + 1, next);
    Doubled(backoffMillis * NANOS_PER_MILLI, Pow2(attempt));
  }

  // ---------------------------------------------------------------------------
  // The loop
  // ---------------------------------------------------------------------------

  datatype Outcome = Nil | Failed(last: Reply) | ContextError

  /** Why the run is over after `calls` calls with `outcome`. */
  ghost predicate Over(cfg: Config, w: World, calls: nat, outcome: Outcome) {
    if w.cancelledAtStart then calls == 0 && outcome.ContextError?
    else if calls == 0 then cfg.maxRetries < 0 && outcome.Nil?
    else
      var last := w.reply(calls - 1);
      calls <= cfg.maxRetries + 1 &&
      match outcome
      case Nil => last.Success?
      case Failed(e) => e == last && !last.Success? && !w.cancelledAfter(calls - 1) && (Transient(last) ==> calls == cfg.maxRetries + 1)
      case ContextError => !last.Success? && (w.cancelledAfter(calls - 1) || (Transient(last) && calls <= cfg.maxRetries && w.cancelledInWait(calls - 1)))
  }

  /** A call that is followed by another one. */
  ghost predicate Continued(cfg: Config, w: World, i: nat) {
    Transient(w.reply(i)) && !w.cancelledAfter(i) && i < cfg.maxRetries && !w.cancelledInWait(i)
  }

  method WaitAfter(cfg: Config, attempt: nat, lastErr: Reply, jitter: int) returns (wait: int)
    ensures wait == Wait(cfg, attempt, lastErr, jitter)
  {
    wait := CalculateBackoff(cfg.initialBackoff, attempt, jitter);
    if Status(lastErr) == 429 {
      var retryAfter := ExtractRetryAfter(lastErr);
      if retryAfter > 0 {
        wait := Wrap64(retryAfter * NANOS_PER_SECOND);
      }
    }
    if wait > MAX_RETRY_WAIT {
      wait := MAX_RETRY_WAIT;
    }
  }

  /** `waits` are the timers set, the last of which may have been cut short. */
  method RetryGraphCall(cfg: Config, w: World) returns (outcome: Outcome, calls: nat, waits: seq<int>)
    requires cfg.initialBackoff > 0
    ensures Over(cfg, w, calls, outcome)
    ensures forall i :: 0 <= i < calls - 1 ==> Continued(cfg, w, i)
    ensures |waits| == calls || |waits| == calls - 1
    ensures |waits| == calls > 0 ==> outcome.ContextError?
    ensures forall i :: 0 <= i < |waits| ==> i < cfg.maxRetries && Transient(w.reply(i)) && waits[i] == Wait(cfg, i, w.reply(i), w.jitter(i))
  {
    calls, waits := 0, [];
    if w.cancelledAtStart {
      return ContextError, calls, waits;
    }
    var lastErr := Success;
    var attempt := 0;
    while attempt <= cfg.maxRetries
      invariant 0 <= attempt == calls == |waits|
      invariant attempt > 0 ==> attempt <= cfg.maxRetries
      invariant attempt == 0 ==> lastErr.Success?
      invariant forall i :: 0 <= i < attempt ==> Continued(cfg, w, i)
      invariant forall i :: 0 <= i < |waits| ==> i < cfg.maxRetries && Transient(w.reply(i)) && waits[i] == Wait(cfg, i, w.reply(i), w.jitter(i))
    {
      lastErr := w.reply(attempt);
      calls := calls + 1;
      if lastErr.Success? {
        return Nil, calls, waits;
      }
      if w.cancelledAfter(attempt) {
        return ContextError, calls, waits;
      }
      var status := Status(lastErr);
      if status != 429 && status != 503 && status != 504 {
        return Failed(lastErr), calls, waits;
      }
      if attempt >= cfg.maxRetries {
        break;
      }
      var wait := WaitAfter(cfg, attempt, lastErr, w.jitter(attempt));
      waits := waits + [wait];
      if w.cancelledInWait(attempt) {
        return ContextError, calls, waits;
      }
      attempt := attempt + 1;
    }
    outcome := if lastErr.Success? then Nil else Failed(lastErr);
  }

  lemma OverIsNotContinued(cfg: Config, w: World, calls: nat, outcome: Outcome)
    ensures Over(cfg, w, calls, outcome) && calls > 0 ==> !Continued(cfg, w, calls - 1)
  {
  }

  /** Those two facts leave one possible run. */
  lemma RunIsDetermined(cfg: Config, w: World, calls: nat, outcome: Outcome, calls': nat, outcome': Outcome)
    requires Over(cfg, w, calls, outcome) && forall i :: 0 <= i < calls - 1 ==> Continued(cfg, w, i)
    requires Over(cfg, w, calls', outcome') && forall i :: 0 <= i < calls' - 1 ==> Continued(cfg, w, i)
    ensures calls == calls' && outcome == outcome'
  {
    OverIsNotContinued(cfg, w, calls, outcome);
    OverIsNotContinued(cfg, w, calls', outcome');
  }

  /** Which failures are tried again: a 429, 503 or 504 that nobody cancels ends a run only when the retries are used
      up, and anything else ends it at once. */
  lemma TransientIsRetried(cfg: Config, w: World, calls: nat, outcome: Outcome, i: nat)
    requires Over(cfg, w, calls, outcome) && forall i :: 0 <= i < calls - 1 ==> Continued(cfg, w, i)
    requires i < calls
    ensures w.reply(i).GraphError? && w.reply(i).status in {429, 503, 504} && !w.cancelledAfter(i) && !w.cancelledInWait(i) ==>
              i + 1 < calls || i == cfg.maxRetries
    ensures !(w.reply(i).GraphError? && w.reply(i).status in {429, 503, 504}) ==> i + 1 == calls
  {
    if i < calls - 1 {
      assert Continued(cfg, w, i);
    }
  }

  /** What a validated configuration makes of a run: at most maxRetries + 1 calls, all but the last failed with
      429, 503 or 504, and the result is nil exactly when the last call succeeded. */
  lemma RunIsBounded(maxRetries: int, backoffMillis: int, w: World, calls: nat, outcome: Outcome)
    requires ValidatedConfig(maxRetries, backoffMillis)
    requires var cfg := Configure(maxRetries, backoffMillis);
             Over(cfg, w, calls, outcome) && forall i :: 0 <= i < calls - 1 ==> Continued(cfg, w, i)
    ensures calls <= maxRetries + 1
    ensures forall i :: 0 <= i < calls - 1 ==> w.reply(i).GraphError? && w.reply(i).status in {429, 503, 504}
    ensures outcome.Nil? <==> calls > 0 && w.reply(calls - 1).Success?
  {
    var cfg := Configure(maxRetries, backoffMillis);
    if calls > 1 {
      assert Continued(cfg, w, calls - 2);
    }
    forall i | 0 <= i < calls - 1 ensures w.reply(i).GraphError? && w.reply(i).status in {429, 503, 504} {
      assert Continued(cfg, w, i);
    }
  }

  /** And of its waits: each is as documented, positive and at most a minute, as long as no call asks for more
      than 9223372036 seconds. */
  lemma RunWaitsAsPromised(maxRetries: int, backoffMillis: int, w: World, waits: seq<int>)
    requires ValidatedConfig(maxRetries, backoffMillis)
    requires var cfg := Configure(maxRetries, backoffMillis);
             forall i :: 0 <= i < |waits| ==> i < cfg.maxRetries && waits[i] == Wait(cfg, i, w.reply(i), w.jitter(i))
    requires forall i :: 0 <= i < |waits| ==> 0 <= w.jitter(i) < Configure(maxRetries, backoffMillis).initialBackoff
    requires forall i :: 0 <= i < |waits| ==> DelayFits(w.reply(i))
    ensures |waits| <= maxRetries
    ensures var cfg := Configure(maxRetries, backoffMillis);
            forall i :: 0 <= i < |waits| ==>
              0 < waits[i] <= 60_000_000_000 && waits[i] == PromisedWait(cfg, i, w.reply(i), w.jitter(i))
  {
    var cfg := Configure(maxRetries, backoffMillis);
    forall i | 0 <= i < |waits|
      ensures 0 < waits[i] <= 60_000_000_000 && waits[i] == PromisedWait(cfg, i, w.reply(i), w.jitter(i))
    {
      WaitIsAsPromised(maxRetries, backoffMillis, i, w.reply(i), w.jitter(i));
    }
    if |waits| > 0 {
      assert waits[|waits| - 1] == Wait(cfg, |waits| - 1, w.reply(|waits| - 1), w.jitter(|waits| - 1));
    }
  }
}
