/** An e-mail conversation: the first messages delivered, put in order by their time stamps' text. */
module Thread {
  import opened Calendar
  import opened CalendarText
  import opened Order
  import opened Wrappers

  /** A UTC time with a four-digit year, as Graph reports it. */
  type UtcTime = t: Stamp | ValidStamp(t) && 0 <= t.date.year <= 9999 witness Stamp(Date(2026, 1, 1), 0)

  datatype Message = Message(id: string, received: Option<UtcTime>)

  /** The RFC 3339 text of a UTC time (section 5.6 of RFC 3339). */
  function UtcText(t: UtcTime): string {
    DateThen(t.date, "T" + ClockThen(t.second, "Z"))
  }

  function TimeText(m: Message): string {
    match m.received
    case Some(t) => UtcText(t)
    case None => ""
  }

  /** What the program sorts by. */
  predicate TextBefore(a: Message, b: Message) {
    LexLess(TimeText(a), TimeText(b))
  }

  /** What it means: undated messages first, then by time. */
  predicate Before(a: Message, b: Message) {
    b.received.Some? && (a.received.None? || Instant(a.received.value) < Instant(b.received.value))
  }

  // ---------------------------------------------------------------------------
  // Text order is time order
  // ---------------------------------------------------------------------------

  lemma {:induction false} LexPrefix(a: string, x: string, b: string, y: string)
    requires |a| == |b|
    ensures LexLess(a + x, b + y) <==> LexLess(a, b) || (a == b && LexLess(x, y))
  {
    if a == "" {
      assert a + x == x && b + y == y;
    } else {
      assert (a + x)[1..] == a[1..] + x && (b + y)[1..] == b[1..] + y;
      LexPrefix(a[1..], x, b[1..], y);
      assert a == [a[0]] + a[1..] && b == [b[0]] + b[1..];
    }
  }

  lemma TwoDigitsOrder(m: int, n: int, x: string, y: string)
    requires 0 <= m < 100 && 0 <= n < 100
    ensures LexLess(TwoDigits(m) + x, TwoDigits(n) + y) <==> m < n || (m == n && LexLess(x, y))
  {
  }

  lemma YearOrder(m: int, n: int, x: string, y: string)
    requires 0 <= m <= 9999 && 0 <= n <= 9999
    ensures LexLess(YearText(m) + x, YearText(n) + y) <==> m < n || (m == n && LexLess(x, y))
  {
    TwoDigitsOrder(m / 100, n / 100, TwoDigits(m % 100) + x, TwoDigits(n % 100) + y);
    TwoDigitsOrder(m % 100, n % 100, x, y);
    assert YearText(m) + x == TwoDigits(m / 100) + (TwoDigits(m % 100) + x);
    assert YearText(n) + y == TwoDigits(n / 100) + (TwoDigits(n % 100) + y);
    assert m == 100 * (m / 100) + m % 100 && n == 100 * (n / 100) + n % 100;
  }

  lemma CommonHead(c: char, x: string, y: string)
    ensures LexLess([c] + x, [c] + y) <==> LexLess(x, y)
  {
  }

  lemma DateTextOrder(a: Date, b: Date, x: string, y: string)
    requires Valid(a) && Valid(b) && 0 <= a.year <= 9999 && 0 <= b.year <= 9999
    ensures LexLess(DateThen(a, x), DateThen(b, y)) <==> Earlier(a, b) || (a == b && LexLess(x, y))
  {
    var dayA, dayB := TwoDigits(a.day) + x, TwoDigits(b.day) + y;
    var monthA, monthB := TwoDigits(a.month) + ("-" + dayA), TwoDigits(b.month) + ("-" + dayB);
    YearOrder(a.year, b.year, "-" + monthA, "-" + monthB);
    CommonHead('-', monthA, monthB);
    TwoDigitsOrder(a.month, b.month, "-" + dayA, "-" + dayB);
    CommonHead('-', dayA, dayB);
    TwoDigitsOrder(a.day, b.day, x, y);
  }

  lemma FieldsTextOrder(h: int, m: int, s: int, h': int, m': int, s': int, x: string)
    requires 0 <= h < 24 && 0 <= m < 60 && 0 <= s < 60
    requires 0 <= h' < 24 && 0 <= m' < 60 && 0 <= s' < 60
    ensures LexLess(FieldsThen(h, m, s, x), FieldsThen(h', m', s', x)) <==> h * 3600 + m * 60 + s < h' * 3600 + m' * 60 + s'
  {
    var second, second' := TwoDigits(s) + x, TwoDigits(s') + x;
    var minute, minute' := TwoDigits(m) + (":" + second), TwoDigits(m') + (":" + second');
    TwoDigitsOrder(h, h', ":" + minute, ":" + minute');
    CommonHead(':', minute, minute');
    TwoDigitsOrder(m, m', ":" + second, ":" + second');
    CommonHead(':', second, second');
    TwoDigitsOrder(s, s', x, x);
    LexTrichotomy(x, x);
  }

  lemma ClockTextOrder(s: int, t: int, x: string)
    requires 0 <= s < SECONDS_PER_DAY && 0 <= t < SECONDS_PER_DAY
    ensures LexLess(ClockThen(s, x), ClockThen(t, x)) <==> s < t
  {
    FieldsTextOrder(s / 3600, s / 60 % 60, s % 60, t / 3600, t / 60 % 60, t % 60, x);
    ClockFields(s);
    ClockFields(t);
  }

  /** For UTC times with four-digit years, string order is time order. */
  lemma TextOrderIsTimeOrder(a: UtcTime, b: UtcTime)
    ensures LexLess(UtcText(a), UtcText(b)) <==> Instant(a) < Instant(b)
    ensures UtcText(a) == UtcText(b) <==> a == b
  {
    TextOrderOneWay(a, b);
    TextOrderOneWay(b, a);
    LexTrichotomy(UtcText(a), UtcText(b));
    NumberOrdersDates(a.date, b.date);
  }

  lemma TextOrderOneWay(a: UtcTime, b: UtcTime)
    ensures LexLess(UtcText(a), UtcText(b)) <==> Instant(a) < Instant(b)
  {
    var x, y := ClockThen(a.second, "Z"), ClockThen(b.second, "Z");
    DateTextOrder(a.date, b.date, "T" + x, "T" + y);
    CommonHead('T', x, y);
    ClockTextOrder(a.second, b.second, "Z");
    NumberOrdersDates(a.date, b.date);
  }

  lemma TextBeforeIsBefore(a: Message, b: Message)
    ensures TextBefore(a, b) <==> Before(a, b)
  {
    if a.received.Some? && b.received.Some? {
      TextOrderOneWay(a.received.value, b.received.value);
    }
  }

  // ---------------------------------------------------------------------------
  // The thread
  // ---------------------------------------------------------------------------

  lemma BeforeIsWeakOrder()
    ensures StrictWeakOrder(Before)
  {
  }

  lemma {:induction false} InsertAlike(x: Message, s: seq<Message>)
    ensures Insert(TextBefore, x, s) == Insert(Before, x, s)
  {
    if s != [] {
      TextBeforeIsBefore(s[0], x);
      InsertAlike(x, s[1..]);
    }
  }

  /** Sorting by text is sorting by time. */
  lemma {:induction false} SortAlike(s: seq<Message>)
    ensures StableSort(TextBefore, s) == StableSort(Before, s)
  {
    if s != [] {
      SortAlike(s[1..]);
      InsertAlike(s[0], StableSort(Before, s[1..]));
    }
  }

  const DEFAULT_RESULTS := 50

  const MOST_RESULTS := 100

  function ClampResults(requested: int): (n: nat)
    ensures 1 <= n <= MOST_RESULTS
  {
    if requested < 1 then DEFAULT_RESULTS else if requested > MOST_RESULTS then MOST_RESULTS else requested
  }

  /** What the page iterator hands over when it is never stopped, and whether it then fails. */
  datatype Delivery = Delivery(messages: seq<Message>, fails: bool)

  /** The messages the callback keeps before it asks to stop. */
  function Collected(d: Delivery, maxResults: nat): seq<Message> {
    if |d.messages| < maxResults then d.messages else d.messages[..maxResults]
  }

  /** The iterator's callback over the delivery: `more` while it has not asked to stop. */
  method CollectMessages(maxResults: nat, d: Delivery) returns (messages: seq<Message>, more: bool)
    requires maxResults > 0
    ensures messages == Collected(d, maxResults)
    ensures more <==> |d.messages| < maxResults
  {
    var all := d.messages;
    messages := [];
    more := true;
    var i := 0;
    while i < |all| && more
      invariant 0 <= i <= |all| && messages == all[..i]
      invariant i <= maxResults && (more <==> i < maxResults)
    {
      messages := messages + [all[i]];
      more := |messages| < maxResults;
      i := i + 1;
    }
    assert all[..|all|] == all;
  }

  /** None when the iteration failed before enough messages had come. */
  method GetConversation(requested: int, d: Delivery) returns (thread: Option<seq<Message>>)
    ensures var most := if requested < 1 then 50 else if requested > 100 then 100 else requested;
            && (thread.None? <==> d.fails && |d.messages| < most)
            && (thread.Some? ==>
                  thread.value == StableSort(TextBefore, if |d.messages| < most then d.messages else d.messages[..most]))
  {
    var messages, more := CollectMessages(ClampResults(requested), d);
    thread := if more && d.fails then None else Some(StableSort(TextBefore, messages));
  }

  /** The returned thread is a permutation of the first messages delivered, in chronological order with
      undated messages first, messages of the same second in delivery order; and it is the only arrangement
      like that. */
  lemma ThreadIsChronological(requested: int, d: Delivery, thread: seq<Message>)
    ensures var most := if requested < 1 then 50 else if requested > 100 then 100 else requested;
            var kept := if |d.messages| < most then d.messages else d.messages[..most];
            thread == StableSort(TextBefore, kept) <==> IsStableSort(Before, thread, kept)
  {
    BeforeIsWeakOrder();
    SortAlike(Collected(d, ClampResults(requested)));
    StableSortExact(Before, thread, Collected(d, ClampResults(requested)));
  }
}
