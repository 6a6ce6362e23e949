/**
 * The rate-limit header parser: turns the `x-app-rate-limit`,
 * `x-method-rate-limit` and their `-count` headers of one API response into
 * limit windows and a synthetic usage log of timestamps.
 *
 * The clock (`Date.now()`) is the parameter `now`; one reading is used for
 * every timestamp the parser produces.
 */
module RateLimitHeaders {
  import opened Wrappers
  import opened Text
  import opened Sorting

  /** One `{ limit, duration }` window; `duration` is in milliseconds. */
  datatype RateLimitConfig = RateLimitConfig(limit: int, duration: int)

  /** One `amount:seconds` entry of a limit or count header. */
  datatype Entry = Entry(amount: nat, seconds: nat)

  /** `perMethod` is the source's `method` field (a reserved word here). */
  datatype Usage = Usage(app: seq<int>, perMethod: seq<int>)

  datatype ParsedHeaders = ParsedHeaders(app: seq<RateLimitConfig>, perMethod: seq<RateLimitConfig>, usage: Usage)

  /** The four response headers the parser reads (`None` when absent). */
  datatype Headers = Headers(
    appLimit: Option<string>,
    methodLimit: Option<string>,
    appCount: Option<string>,
    methodCount: Option<string>)

  /** A header the parser acts on: present and truthy, i.e. not the empty string. */
  predicate Given(h: Option<string>) {
    h.Some? && h.value != []
  }

  /** `digits:digits` */
  predicate WellFormedEntry(part: string) {
    var fields := Split(part, ':');
    |fields| == 2 && IsNumeral(fields[0]) && IsNumeral(fields[1])
  }

  /** A comma-separated list of well-formed entries. */
  predicate WellFormedList(s: string) {
    var parts := Split(s, ',');
    forall i :: 0 <= i < |parts| ==> WellFormedEntry(parts[i])
  }

  /** Every header the parser acts on is well formed. */
  predicate WellFormed(headers: Headers) {
    && (Given(headers.appLimit) ==> WellFormedList(headers.appLimit.value))
    && (Given(headers.methodLimit) ==> WellFormedList(headers.methodLimit.value))
    && (Given(headers.appCount) ==> WellFormedList(headers.appCount.value))
    && (Given(headers.methodCount) ==> WellFormedList(headers.methodCount.value))
  }

  /** `part.split(':')` followed by `parseInt(_, 10)` on both fields. */
  function ParseEntry(part: string): Entry
    requires WellFormedEntry(part)
  {
    var fields := Split(part, ':');
    Entry(ParseDigits(fields[0]), ParseDigits(fields[1]))
  }

  /** `s.split(',').map(part => part.split(':'))`, read as numbers, in header order. */
  function Entries(s: string): (es: seq<Entry>)
    requires WellFormedList(s)
    ensures |es| == |Split(s, ',')|
  {
    var parts := Split(s, ',');
    seq(|parts|, i requires 0 <= i < |parts| => ParseEntry(parts[i]))
  }

  // ---------------------------------------------------------------------------
  // Specification

  /** The window an `L:S` entry denotes: `L` calls per `S` seconds. */
  function Window(e: Entry): RateLimitConfig {
    RateLimitConfig(e.amount, e.seconds * 1000)
  }

  function Windows(es: seq<Entry>): (ws: seq<RateLimitConfig>)
    ensures |ws| == |es|
  {
    seq(|es|, i requires 0 <= i < |es| => Window(es[i]))
  }

  /** The windows a limit header declares; none when the header is not given. */
  function LimitWindows(h: Option<string>): seq<RateLimitConfig>
    requires Given(h) ==> WellFormedList(h.value)
  {
    if Given(h) then Windows(Entries(h.value)) else []
  }

  /** `n` copies of `t`: `Array.from({ length: n }, () => t)`. */
  function Repeat(t: int, n: nat): (r: seq<int>)
    ensures |r| == n
    ensures forall i :: 0 <= i < n ==> r[i] == t
  {
    seq(n, _ => t)
  }

  /** The sort key of the count entries: `parseInt(entry[1], 10)`. */
  function WindowSeconds(e: Entry): int {
    e.seconds
  }

  /** Count entries in the order they are processed: ascending window length, stably. */
  function ByWindow(es: seq<Entry>): seq<Entry> {
    SortBy(es, WindowSeconds)
  }

  /**
   * The timestamps synthesized for count entries `es` processed in order,
   * when the current group is stamped `prev` milliseconds before `now`: each
   * group gets `amount` copies, and the next group is pushed back by this
   * group's window plus one second.
   */
  function Stamps(es: seq<Entry>, now: int, prev: int): seq<int>
    decreases |es|
  {
    if es == [] then []
    else Repeat(now - prev, es[0].amount) + Stamps(es[1..], now, es[0].seconds * 1000 + 1000)
  }

  /** The usage log for a count header; a single `now` when it is not given. */
  function UsageLog(h: Option<string>, now: int): seq<int>
    requires Given(h) ==> WellFormedList(h.value)
  {
    if Given(h) then Stamps(ByWindow(Entries(h.value)), now, 0) else [now]
  }

  /** The total of the amounts of `es`. */
  function Total(es: seq<Entry>): nat
    decreases |es|
  {
    if es == [] then 0 else es[0].amount + Total(es[1..])
  }

  /** How far before `now` the `g`-th processed group is stamped. */
  function Offset(es: seq<Entry>, g: nat): nat
    requires g < |es|
  {
    if g == 0 then 0 else es[g - 1].seconds * 1000 + 1000
  }

  // ---------------------------------------------------------------------------
  // The parser

  /** The limit loop: one window pushed per entry of the header, in header order. */
  method PushWindows(limits: seq<Entry>) returns (windows: seq<RateLimitConfig>)
    ensures windows == Windows(limits)
  {
    windows := [];
    for i := 0 to |limits|
      invariant windows == Windows(limits[..i])
    {
      var limit, duration := limits[i].amount, limits[i].seconds;
      windows := windows + [RateLimitConfig(limit, duration * 1000)];
    }
    assert limits[..|limits|] == limits;
  }

  /** The count loop over the sorted entries, carrying the `prev` offset. */
  method PushStamps(counts: seq<Entry>, now: int) returns (usage: seq<int>)
    ensures usage == Stamps(counts, now, 0)
  {
    usage := [];
    var prev := 0;
    assert counts[0..] == counts;
    for i := 0 to |counts|
      invariant usage + Stamps(counts[i..], now, prev) == Stamps(counts, now, 0)
    {
      var count, duration := counts[i].amount, counts[i].seconds;
      var parsedDuration := duration * 1000;
      StampsStep(counts, i, now, prev);
      usage := usage + Repeat(now - prev, count);
      prev := parsedDuration + 1000;
    }
    assert counts[|counts|..] == [];
  }

  lemma StampsStep(es: seq<Entry>, i: nat, now: int, prev: int)
    requires i < |es|
    ensures Stamps(es[i..], now, prev)
         == Repeat(now - prev, es[i].amount) + Stamps(es[i + 1..], now, es[i].seconds * 1000 + 1000)
  {
    assert es[i..][1..] == es[i + 1..];
  }

  /** `parseHeaders(headers)` with the clock reading `now`. */
  method ParseHeaders(headers: Headers, now: int) returns (r: ParsedHeaders)
    requires WellFormed(headers)
    ensures r.app == LimitWindows(headers.appLimit)
    ensures r.perMethod == LimitWindows(headers.methodLimit)
    ensures r.usage.app == UsageLog(headers.appCount, now)
    ensures r.usage.perMethod == UsageLog(headers.methodCount, now)
    ensures !Given(headers.appLimit) ==> r.app == []
    ensures !Given(headers.methodLimit) ==> r.perMethod == []
    ensures !Given(headers.appCount) ==> r.usage.app == [now]
    ensures !Given(headers.methodCount) ==> r.usage.perMethod == [now]
  {
    var usage := Usage([now], [now]);
    var app: seq<RateLimitConfig> := [];
    var perMethod: seq<RateLimitConfig> := [];
    if Given(headers.appLimit) {
      app := PushWindows(Entries(headers.appLimit.value));
    }
    if Given(headers.methodLimit) {
      perMethod := PushWindows(Entries(headers.methodLimit.value));
    }
    if Given(headers.appCount) {
      var log := PushStamps(ByWindow(Entries(headers.appCount.value)), now);
      usage := usage.(app := log);
    }
    if Given(headers.methodCount) {
      var log := PushStamps(ByWindow(Entries(headers.methodCount.value)), now);
      usage := usage.(perMethod := log);
    }
    r := ParsedHeaders(app, perMethod, usage);
  }

  // ---------------------------------------------------------------------------
  // Properties

  /** The header that lists `es`: `"L1:S1,L2:S2,..."`. */
  function FormatEntries(es: seq<Entry>): string
    requires |es| >= 1
  {
    Join(seq(|es|, i requires 0 <= i < |es| => FormatEntry(es[i])), ',')
  }

  function FormatEntry(e: Entry): string {
    Join([NatToString(e.amount), NatToString(e.seconds)], ':')
  }

  lemma EntryRoundTrip(e: Entry)
    ensures WellFormedEntry(FormatEntry(e))
    ensures ParseEntry(FormatEntry(e)) == e
  {
    var fields := [NatToString(e.amount), NatToString(e.seconds)];
    assert forall k :: 0 <= k < 2 ==> IsNumeral(fields[k]);
    SplitJoin(fields, ':');
    ParseNatToString(e.amount);
    ParseNatToString(e.seconds);
  }

  /** Parsing the header that lists `es` gives back `es`, entry for entry, in order. */
  lemma {:induction false} EntriesRoundTrip(es: seq<Entry>)
    requires |es| >= 1
    ensures WellFormedList(FormatEntries(es))
    ensures Entries(FormatEntries(es)) == es
  {
    var parts := seq(|es|, i requires 0 <= i < |es| => FormatEntry(es[i]));
    forall k | 0 <= k < |parts| ensures ',' !in parts[k] && WellFormedEntry(parts[k]) && ParseEntry(parts[k]) == es[k] {
      EntryRoundTrip(es[k]);
      var fields := [NatToString(es[k].amount), NatToString(es[k].seconds)];
      assert forall c :: c in parts[k] ==> IsDigit(c) || c == ':' by {
        JoinChars(fields, ':');
      }
    }
    SplitJoin(parts, ',');
  }

  lemma JoinChars(fields: seq<string>, sep: char)
    requires |fields| == 2 && AllDigits(fields[0]) && AllDigits(fields[1])
    ensures forall c :: c in Join(fields, sep) ==> IsDigit(c) || c == sep
  {
    assert Join(fields, sep) == fields[0] + [sep] + fields[1];
  }

  /**
   * A limit header yields one window per comma-separated entry, in header
   * order: `L:S` becomes `{ limit: L, duration: S * 1000 }`.
   */
  lemma LimitHeaderWindows(es: seq<Entry>)
    requires |es| >= 1
    ensures WellFormedList(FormatEntries(es))
    ensures |LimitWindows(Some(FormatEntries(es)))| == |es| == Occurrences(FormatEntries(es), ',') + 1
    ensures forall i :: 0 <= i < |es| ==>
      LimitWindows(Some(FormatEntries(es)))[i] == RateLimitConfig(es[i].amount, es[i].seconds * 1000)
  {
    EntriesRoundTrip(es);
    SplitCount(FormatEntries(es), ',');
    assert FormatEntries(es) != [] by {
      assert |Split(FormatEntries(es), ',')| == |es|;
    }
  }

  lemma {:induction false} TotalInsert(x: Entry, s: seq<Entry>)
    ensures Total(Insert(x, s, WindowSeconds)) == x.amount + Total(s)
    decreases |s|
  {
    if s != [] && x.seconds > s[0].seconds {
      TotalInsert(x, s[1..]);
      assert Insert(x, s, WindowSeconds)[1..] == Insert(x, s[1..], WindowSeconds);
    }
  }

  lemma {:induction false} TotalByWindow(es: seq<Entry>)
    ensures Total(ByWindow(es)) == Total(es)
    decreases |es|
  {
    if es != [] {
      TotalByWindow(es[1..]);
      TotalInsert(es[0], ByWindow(es[1..]));
    }
  }

  lemma {:induction false} StampsLength(es: seq<Entry>, now: int, prev: int)
    ensures |Stamps(es, now, prev)| == Total(es)
    decreases |es|
  {
    if es != [] {
      StampsLength(es[1..], now, es[0].seconds * 1000 + 1000);
    }
  }

  /**
   * A given count header replaces the `[now]` seed: the log holds exactly as
   * many timestamps as the counts add up to.
   */
  lemma UsageLogLength(h: Option<string>, now: int)
    requires Given(h) ==> WellFormedList(h.value)
    ensures Given(h) ==> |UsageLog(h, now)| == Total(Entries(h.value))
    ensures !Given(h) ==> UsageLog(h, now) == [now]
  {
    if Given(h) {
      StampsLength(ByWindow(Entries(h.value)), now, 0);
      TotalByWindow(Entries(h.value));
    }
  }

  /**
   * Group `g` of the processed entries occupies positions `Total(es[..g])`
   * up to `Total(es[..g+1])` of the log, stamped `now` for the first group and
   * `now - (S * 1000 + 1000)` for later ones, `S` the previous group's seconds.
   */
  lemma {:induction false} StampAt(es: seq<Entry>, now: int, prev: int, g: nat, p: nat)
    requires g < |es|
    requires Total(es[..g]) <= p < Total(es[..g + 1])
    ensures |Stamps(es, now, prev)| == Total(es)
    ensures p < |Stamps(es, now, prev)| && Stamps(es, now, prev)[p] == now - (if g == 0 then prev else Offset(es, g))
    decreases g
  {
    StampsLength(es, now, prev);
    var next := es[0].seconds * 1000 + 1000;
    StampsLength(es[1..], now, next);
    if g == 0 {
      assert es[..1] == [es[0]];
      assert Total(es[..1]) == es[0].amount;
    } else {
      assert es[..g] == [es[0]] + es[1..][..g - 1];
      assert es[..g + 1] == [es[0]] + es[1..][..g];
      StampAt(es[1..], now, next, g - 1, p - es[0].amount);
      if g == 1 {
        assert Offset(es, g) == next;
      } else {
        assert Offset(es[1..], g - 1) == Offset(es, g);
      }
    }
  }

  /** Every synthesized timestamp is at most `now - prev`, and they never increase along the log. */
  lemma {:induction false} StampsShape(es: seq<Entry>, now: int, prev: int)
    requires SortedBy(es, WindowSeconds)
    requires 0 <= prev
    requires es != [] ==> prev <= es[0].seconds * 1000 + 1000
    ensures forall i :: 0 <= i < |Stamps(es, now, prev)| ==> Stamps(es, now, prev)[i] <= now - prev
    ensures forall i, j :: 0 <= i < j < |Stamps(es, now, prev)| ==> Stamps(es, now, prev)[i] >= Stamps(es, now, prev)[j]
    decreases |es|
  {
    if es != [] {
      var next := es[0].seconds * 1000 + 1000;
      assert |es| > 1 ==> es[0].seconds <= es[1].seconds;
      StampsShape(es[1..], now, next);
      var head := Repeat(now - prev, es[0].amount);
      var tail := Stamps(es[1..], now, next);
      assert Stamps(es, now, prev) == head + tail;
    }
  }

  /** The usage log of a count header never lies after `now` and never increases. */
  lemma UsageLogOrdered(h: Option<string>, now: int)
    requires Given(h) ==> WellFormedList(h.value)
    ensures forall i :: 0 <= i < |UsageLog(h, now)| ==> UsageLog(h, now)[i] <= now
    ensures forall i, j :: 0 <= i < j < |UsageLog(h, now)| ==> UsageLog(h, now)[i] >= UsageLog(h, now)[j]
  {
    if Given(h) {
      var es := ByWindow(Entries(h.value));
      SortBySorted(Entries(h.value), WindowSeconds);
      StampsShape(es, now, 0);
    }
  }

  /** The spelling of the limit example below. */
  lemma LimitExampleSpelling()
    ensures FormatEntries([Entry(20, 1), Entry(100, 120)]) == "20:1,100:120"
  {
    assert NatToString(1) == "1";
    assert NatToString(20) == "20";
    assert NatToString(10) == "10";
    assert NatToString(100) == "100";
    assert NatToString(12) == "12";
    assert NatToString(120) == "120";
    FormatPair(Entry(20, 1), Entry(100, 120));
  }

  /** The spelling of the count example below. */
  lemma CountExampleSpelling()
    ensures FormatEntries([Entry(5, 1), Entry(40, 120)]) == "5:1,40:120"
  {
    assert NatToString(1) == "1";
    assert NatToString(5) == "5";
    assert NatToString(40) == "40";
    assert NatToString(12) == "12";
    assert NatToString(120) == "120";
    FormatPair(Entry(5, 1), Entry(40, 120));
  }

  lemma FormatPair(a: Entry, b: Entry)
    ensures FormatEntries([a, b]) == FormatEntry(a) + "," + FormatEntry(b)
    ensures FormatEntry(a) == NatToString(a.amount) + ":" + NatToString(a.seconds)
    ensures FormatEntry(b) == NatToString(b.amount) + ":" + NatToString(b.seconds)
  {
    var es := [a, b];
    var parts := seq(|es|, i requires 0 <= i < |es| => FormatEntry(es[i]));
    assert parts == [FormatEntry(a), FormatEntry(b)];
    JoinTwo(FormatEntry(a), FormatEntry(b), ',');
    JoinTwo(NatToString(a.amount), NatToString(a.seconds), ':');
    JoinTwo(NatToString(b.amount), NatToString(b.seconds), ':');
  }

  /** `x-app-rate-limit: 20:1,100:120` declares 20 calls per second and 100 per two minutes. */
  lemma LimitHeaderExample(h: string)
    requires h == "20:1,100:120"
    ensures WellFormedList(h)
    ensures LimitWindows(Some(h)) == [RateLimitConfig(20, 1000), RateLimitConfig(100, 120000)]
  {
    LimitExampleSpelling();
    LimitHeaderWindows([Entry(20, 1), Entry(100, 120)]);
    assert LimitWindows(Some(h)) == [RateLimitConfig(20, 1000), RateLimitConfig(100, 120000)];
  }

  /**
   * `x-app-rate-limit-count: 5:1,40:120` gives 45 timestamps: 5 at `now` and
   * 40 two seconds earlier; the second count is not reduced by the first.
   */
  lemma CountHeaderExample(h: string, now: int)
    requires h == "5:1,40:120"
    ensures WellFormedList(h)
    ensures UsageLog(Some(h), now) == Repeat(now, 5) + Repeat(now - 2000, 40)
    ensures |UsageLog(Some(h), now)| == 45
  {
    var es := [Entry(5, 1), Entry(40, 120)];
    CountExampleEntries(h);
    CountExampleOrder();
    CountExampleStamps(now);
    assert UsageLog(Some(h), now) == Stamps(es, now, 0);
  }

  lemma CountExampleEntries(h: string)
    requires h == "5:1,40:120"
    ensures WellFormedList(h)
    ensures Entries(h) == [Entry(5, 1), Entry(40, 120)]
  {
    CountExampleSpelling();
    EntriesRoundTrip([Entry(5, 1), Entry(40, 120)]);
  }

  /** The count example is already in ascending window order. */
  lemma CountExampleOrder()
    ensures ByWindow([Entry(5, 1), Entry(40, 120)]) == [Entry(5, 1), Entry(40, 120)]
  {
    var es := [Entry(5, 1), Entry(40, 120)];
    assert es[1..] == [Entry(40, 120)];
    assert es[1..][1..] == [];
  }

  lemma CountExampleStamps(now: int)
    ensures Stamps([Entry(5, 1), Entry(40, 120)], now, 0) == Repeat(now, 5) + Repeat(now - 2000, 40)
  {
    var es := [Entry(5, 1), Entry(40, 120)];
    assert es[1..] == [Entry(40, 120)];
    assert es[1..][1..] == [];
  }
}
