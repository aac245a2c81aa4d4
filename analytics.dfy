/** The day-file analytics tool: where a day's file lives, the calendar
  * walk of the weekly report, how a session's duration is worded, which
  * sessions count as power users, which messages are critical, and the
  * daily and weekly aggregates. Listing and reading files, `strptime` and
  * `fromisoformat`, the CSV export, the float averages and all printing are
  * left out: a loaded file is a `DayFile` value and the data directory's
  * contents are a map from paths to such values. */
module Analytics {
  import opened Wrappers
  import opened Text
  import opened Collections

  // ---------------------------------------------------------------- dates

  /** A calendar date as `datetime` holds it. */
  datatype Date = Date(year: nat, month: nat, day: nat)

  predicate IsLeap(y: nat) {
    (y % 4 == 0 && y % 100 != 0) || y % 400 == 0
  }

  function DaysIn(y: nat, m: nat): (n: nat)
    requires 1 <= m <= 12
    ensures 28 <= n <= 31
  {
    if m == 2 then (if IsLeap(y) then 29 else 28)
    else if m == 4 || m == 6 || m == 9 || m == 11 then 30
    else 31
  }

  /** The dates `datetime` can represent: years 1 to 9999. */
  predicate ValidDate(d: Date) {
    1 <= d.year <= 9999 && 1 <= d.month <= 12 && 1 <= d.day <= DaysIn(d.year, d.month)
  }

  /** Calendar order. */
  predicate Before(a: Date, b: Date) {
    a.year < b.year || (a.year == b.year && (a.month < b.month || (a.month == b.month && a.day < b.day)))
  }

  lemma BeforeTransitive(a: Date, b: Date, c: Date)
    requires Before(a, b) && Before(b, c)
    ensures Before(a, c)
  {
  }

  /** `d + timedelta(days=1)`: none past 9999-12-31, where Python raises. */
  function NextDay(d: Date): (r: Option<Date>)
    requires ValidDate(d)
    ensures r.Some? ==> ValidDate(r.value) && Before(d, r.value)
    ensures r.None? <==> d == Date(9999, 12, 31)
  {
    if d.day < DaysIn(d.year, d.month) then Some(Date(d.year, d.month, d.day + 1))
    else if d.month < 12 then Some(Date(d.year, d.month + 1, 1))
    else if d.year < 9999 then Some(Date(d.year + 1, 1, 1))
    else None
  }

  /** No date lies strictly between a date and the next one. */
  lemma NoDateBetween(d: Date, e: Date)
    requires ValidDate(d) && ValidDate(e) && NextDay(d).Some?
    ensures !(Before(d, e) && Before(e, NextDay(d).value))
  {
  }

  /** `d + timedelta(days=n)`, one day at a time. */
  function AddDays(d: Date, n: nat): (r: Option<Date>)
    requires ValidDate(d)
    ensures r.Some? ==> ValidDate(r.value)
    decreases n
  {
    if n == 0 then Some(d)
    else match AddDays(d, n - 1)
      case None => None
      case Some(e) => NextDay(e)
  }

  /** The days walked are strictly increasing, so no day is visited twice;
    * while the last one exists, every earlier one does too. */
  lemma {:induction false} DaysIncrease(d: Date, i: nat, j: nat)
    requires ValidDate(d) && i < j && AddDays(d, j).Some?
    ensures AddDays(d, i).Some? && Before(AddDays(d, i).value, AddDays(d, j).value)
    decreases j
  {
    var prev := AddDays(d, j - 1);
    assert prev.Some?;
    if i < j - 1 {
      DaysIncrease(d, i, j - 1);
      BeforeTransitive(AddDays(d, i).value, prev.value, AddDays(d, j).value);
    }
  }

  // ---------------------------------------------------------------- paths

  predicate AllDigits(s: string) {
    forall i :: 0 <= i < |s| ==> '0' <= s[i] <= '9'
  }

  function Zeros(k: nat): (r: string)
    ensures |r| == k && AllDigits(r)
  {
    seq(k, _ => '0')
  }

  /** `%Y`: the year zero-padded to four digits. */
  function Pad4(n: nat): (r: string)
    ensures AllDigits(r)
  {
    var s := NatToString(n);
    if |s| >= 4 then s else Zeros(4 - |s|) + s
  }

  /** `%Y-%m`: the month folder. */
  function MonthFolder(d: Date): string {
    Pad4(d.year) + "-" + Pad2(d.month)
  }

  /** `%d-%m-%Y` followed by ".json": the day file. */
  function DayFileName(d: Date): string {
    Pad2(d.day) + "-" + Pad2(d.month) + "-" + Pad4(d.year) + ".json"
  }

  /** `os.path.join` of two relative components. */
  function Join(a: string, b: string): string {
    if a == [] then b else if a[|a| - 1] == '/' then a + b else a + "/" + b
  }

  /** Where `load_date_file` looks for a date's file. */
  function DatePath(dataDir: string, d: Date): string {
    Join(Join(dataDir, MonthFolder(d)), DayFileName(d))
  }

  lemma {:induction false} LeadingZero(s: string)
    requires AllDigits(s)
    ensures AllDigits("0" + s) && DigitsValue("0" + s) == DigitsValue(s)
    decreases |s|
  {
    if s != [] {
      var n := |s| - 1;
      LeadingZero(s[..n]);
      assert ("0" + s)[..|s|] == "0" + s[..n];
    }
  }

  lemma {:induction false} LeadingZeros(k: nat, s: string)
    requires AllDigits(s)
    ensures DigitsValue(Zeros(k) + s) == DigitsValue(s)
    decreases k
  {
    if k > 0 {
      var t := Zeros(k - 1) + s;
      assert AllDigits(t) by {
        forall i | 0 <= i < |t| ensures '0' <= t[i] <= '9' {
          if i >= k - 1 {
            assert t[i] == s[i - (k - 1)];
          }
        }
      }
      LeadingZeros(k - 1, s);
      LeadingZero(t);
      assert Zeros(k) == "0" + Zeros(k - 1);
      assert Zeros(k) + s == "0" + t;
    } else {
      assert Zeros(k) + s == s;
    }
  }

  lemma {:induction false} ShortNumber(n: nat, k: nat)
    requires 1 <= k && n < Pow10(k)
    ensures |NatToString(n)| <= k
    decreases k
  {
    if n >= 10 {
      ShortNumber(n / 10, k - 1);
    }
  }

  function Pow10(k: nat): nat {
    if k == 0 then 1 else 10 * Pow10(k - 1)
  }

  /** Two zero-padded digits that read back as the number. */
  lemma Pad2Value(n: nat)
    requires n < 100
    ensures |Pad2(n)| == 2 && AllDigits(Pad2(n)) && DigitsValue(Pad2(n)) == n
  {
    NatToStringRoundTrip(n);
    if n < 10 {
      LeadingZero(NatToString(n));
    }
  }

  /** Four zero-padded digits that read back as the year. */
  lemma Pad4Value(n: nat)
    requires n < 10000
    ensures |Pad4(n)| == 4 && DigitsValue(Pad4(n)) == n
  {
    ShortNumber(n, 4);
    NatToStringRoundTrip(n);
    var s := NatToString(n);
    if |s| < 4 {
      LeadingZeros(4 - |s|, s);
    }
  }

  /** The day file's name holds the day, the month and the year at fixed
    * places, and ends with ".json". */
  lemma DayFileNameFields(d: Date)
    requires ValidDate(d)
    ensures var f := DayFileName(d);
      |f| == 15 && f[10..] == ".json" && f[2] == '-' && f[5] == '-'
    ensures var f := DayFileName(d);
      AllDigits(f[..2]) && DigitsValue(f[..2]) == d.day &&
      AllDigits(f[3..5]) && DigitsValue(f[3..5]) == d.month &&
      AllDigits(f[6..10]) && DigitsValue(f[6..10]) == d.year
  {
    Pad2Value(d.day);
    Pad2Value(d.month);
    Pad4Value(d.year);
    var f := DayFileName(d);
    assert f[..2] == Pad2(d.day);
    assert f[3..5] == Pad2(d.month);
    assert f[6..10] == Pad4(d.year);
  }

  /** Different dates have different file names. */
  lemma DayFileNameInjective(d: Date, e: Date)
    requires ValidDate(d) && ValidDate(e) && DayFileName(d) == DayFileName(e)
    ensures d == e
  {
    DayFileNameFields(d);
    DayFileNameFields(e);
  }

  /** The path is the month folder under the data directory, then the day
    * file. */
  lemma DatePathShape(dataDir: string, d: Date)
    requires ValidDate(d)
    ensures DatePath(dataDir, d) == Join(dataDir, MonthFolder(d)) + "/" + DayFileName(d)
    ensures EndsWith(DatePath(dataDir, d), DayFileName(d))
  {
    Pad2Value(d.month);
    var folder := Join(dataDir, MonthFolder(d));
    assert folder[|folder| - 1] == MonthFolder(d)[|MonthFolder(d)| - 1];
    EndsWithConcat(folder + "/", DayFileName(d));
  }

  /** Within one data directory, different dates have different paths: no
    * file is read for two dates. */
  lemma DatePathInjective(dataDir: string, d: Date, e: Date)
    requires ValidDate(d) && ValidDate(e) && DatePath(dataDir, d) == DatePath(dataDir, e)
    ensures d == e
  {
    DatePathShape(dataDir, d);
    DatePathShape(dataDir, e);
    DayFileNameFields(d);
    DayFileNameFields(e);
    var p := DatePath(dataDir, d);
    assert p[|p| - 15..] == DayFileName(d);
    assert p[|p| - 15..] == DayFileName(e);
    DayFileNameInjective(d, e);
  }

  // ------------------------------------------------------------ day files

  /** A message as a day file records it; a missing key is `None`. */
  datatype ChatLine = ChatLine(role: Option<string>, level: Option<string>, content: Option<string>,
                               timestamp: Option<string>)

  /** A session as a day file records it, in the file's order. Times are
    * seconds, `None` when the key is missing or does not parse; a missing
    * `message_count_by_level` or `messages` is empty. */
  datatype Session = Session(sessionId: string, userId: Option<string>, language: Option<string>,
                             totalMessages: Option<int>, startedAt: Option<int>, lastActivity: Option<int>,
                             levelCounts: seq<(string, int)>, messages: seq<ChatLine>)

  datatype DayStats = DayStats(totalMessages: Option<int>, totalSessions: Option<int>,
                               authenticatedSessions: Option<int>, anonymousSessions: Option<int>)

  /** A loaded day file: its `daily_stats`, its `sessions`, and whether it
    * has any other key. */
  datatype DayFile = DayFile(dailyStats: Option<DayStats>, sessions: Option<seq<Session>>, otherKeys: bool)

  /** Python truthiness of the loaded file: a missing file or an empty
    * object counts as no data. */
  predicate HasData(data: Option<DayFile>) {
    data.Some? && (data.value.dailyStats.Some? || data.value.sessions.Some? || data.value.otherKeys)
  }

  function SessionsOf(f: DayFile): seq<Session> {
    f.sessions.GetOr([])
  }

  /** `load_date_file`: the file at the date's path, or none. */
  function LoadDateFile(files: map<string, DayFile>, dataDir: string, d: Date): (r: Option<DayFile>)
    ensures r.Some? <==> DatePath(dataDir, d) in files
    ensures r.Some? ==> r.value == files[DatePath(dataDir, d)]
  {
    var path := DatePath(dataDir, d);
    if path in files then Some(files[path]) else None
  }

  // ------------------------------------------------------------- duration

  /** `int(x)` of a quotient: division that truncates toward zero. */
  function TruncDiv(a: int, b: nat): int
    requires b > 0
  {
    if a >= 0 then a / b else -((-a) / b)
  }

  /** Whole minutes between two times, truncated toward zero. */
  function Minutes(start: int, end: int): (m: int)
    ensures end >= start ==> m >= 0 && m * 60 <= end - start < (m + 1) * 60
    ensures end < start ==> m <= 0 && (m - 1) * 60 < end - start <= m * 60
  {
    TruncDiv(end - start, 60)
  }

  /** How a number of whole minutes is worded. */
  function MinutesText(m: int): string {
    if m < 1 then "< 1 minute"
    else if m < 60 then NatToString(m) + " minutes"
    else NatToString(m / 60) + "h " + NatToString(m % 60) + "m"
  }

  /** `_calculate_duration`: "Unknown" when a time is missing or does not
    * parse, otherwise the minutes between start and last activity, worded. */
  function Duration(s: Session): string {
    if s.startedAt.None? || s.lastActivity.None? then "Unknown"
    else MinutesText(Minutes(s.startedAt.value, s.lastActivity.value))
  }

  /** Less than a minute, or a clock that went backwards, reads as under a
    * minute. */
  lemma ShortDuration(start: int, end: int)
    requires end - start < 60
    ensures MinutesText(Minutes(start, end)) == "< 1 minute"
  {
  }

  /** Where the leading digits of a text end. */
  function DigitRun(s: string): (n: nat)
    ensures n <= |s|
  {
    if s != [] && '0' <= s[0] <= '9' then 1 + DigitRun(s[1..]) else 0
  }

  /** A digit string followed by a non-digit: the run of digits is exactly
    * that string. */
  lemma {:induction false} DigitRunOf(x: string, p: string)
    requires AllDigits(x) && p != [] && !('0' <= p[0] <= '9')
    ensures DigitRun(x + p) == |x|
    decreases |x|
  {
    if x != [] {
      assert (x + p)[1..] == x[1..] + p;
      DigitRunOf(x[1..], p);
    }
  }

  /** Two such texts that are equal split the same way. */
  lemma DigitsThen(x: string, p: string, y: string, q: string)
    requires AllDigits(x) && AllDigits(y) && p != [] && q != []
    requires !('0' <= p[0] <= '9') && !('0' <= q[0] <= '9')
    requires x + p == y + q
    ensures x == y && p == q
  {
    DigitRunOf(x, p);
    DigitRunOf(y, q);
    assert x == (x + p)[..|x|];
    assert y == (y + q)[..|y|];
    assert p == (x + p)[|x|..];
    assert q == (y + q)[|y|..];
  }

  lemma NatToStringDigits(n: nat)
    ensures AllDigits(NatToString(n))
  {
  }

  /** `str` is injective on the naturals. */
  lemma NatToStringInjective(a: nat, b: nat)
    requires NatToString(a) == NatToString(b)
    ensures a == b
  {
    NatToStringRoundTrip(a);
    NatToStringRoundTrip(b);
  }

  lemma HeadTail(head: string, tail: string)
    requires AllDigits(head) && tail != [] && !('0' <= tail[0] <= '9')
    ensures |head| < |head + tail| && (head + tail)[..|head|] == head
    ensures DigitRun(head + tail) == |head| && (head + tail)[|head|] == tail[0]
  {
    DigitRunOf(head, tail);
  }

  /** Below an hour the text is the minutes, then a space. */
  lemma SmallText(m: nat)
    requires 1 <= m < 60
    ensures DigitRun(MinutesText(m)) == |NatToString(m)| && MinutesText(m)[|NatToString(m)|] == ' '
  {
    NatToStringDigits(m);
    HeadTail(NatToString(m), " minutes");
  }

  /** From an hour on the text is the hours, then 'h'. */
  lemma LargeText(m: nat)
    requires m >= 60
    ensures DigitRun(MinutesText(m)) == |NatToString(m / 60)| && MinutesText(m)[|NatToString(m / 60)|] == 'h'
  {
    var tail := "h " + NatToString(m % 60) + "m";
    NatToStringDigits(m / 60);
    assert MinutesText(m) == NatToString(m / 60) + tail;
    HeadTail(NatToString(m / 60), tail);
  }

  lemma MinutesInjective(a: nat, b: nat)
    requires 1 <= a < 60 && 1 <= b < 60 && MinutesText(a) == MinutesText(b)
    ensures a == b
  {
    var x := NatToString(a);
    var y := NatToString(b);
    assert |x| == |y|;
    assert x == (x + " minutes")[..|x|];
    assert y == (y + " minutes")[..|y|];
    NatToStringInjective(a, b);
  }

  /** `{h}h {m}m` with digit strings: equal texts have equal parts. */
  lemma HoursText(h1: string, m1: string, h2: string, m2: string)
    requires AllDigits(h1) && AllDigits(h2)
    requires h1 + "h " + m1 + "m" == h2 + "h " + m2 + "m"
    ensures h1 == h2 && m1 == m2
  {
    assert h1 + "h " + m1 + "m" == h1 + ("h " + m1 + "m");
    assert h2 + "h " + m2 + "m" == h2 + ("h " + m2 + "m");
    DigitsThen(h1, "h " + m1 + "m", h2, "h " + m2 + "m");
    assert "h " + m1 + "m" == "h " + (m1 + "m");
    assert "h " + m2 + "m" == "h " + (m2 + "m");
    ConcatCancel("h ", m1 + "m", m2 + "m");
    assert m1 == (m1 + "m")[..|m1|];
    assert m2 == (m2 + "m")[..|m2|];
  }

  lemma HoursInjective(a: nat, b: nat)
    requires a >= 60 && b >= 60 && MinutesText(a) == MinutesText(b)
    ensures a == b
  {
    NatToStringDigits(a / 60);
    NatToStringDigits(b / 60);
    HoursText(NatToString(a / 60), NatToString(a % 60), NatToString(b / 60), NatToString(b % 60));
    NatToStringInjective(a / 60, b / 60);
    NatToStringInjective(a % 60, b % 60);
  }

  /** From one minute on, the wording gives the minutes back: two
    * durations that read the same are the same number of minutes. */
  lemma MinutesTextInjective(a: int, b: int)
    requires a >= 1 && b >= 1 && MinutesText(a) == MinutesText(b)
    ensures a == b
  {
    if a < 60 && b < 60 {
      MinutesInjective(a, b);
    } else if a >= 60 && b >= 60 {
      HoursInjective(a, b);
    } else if a < 60 {
      SmallText(a);
      LargeText(b);
    } else {
      LargeText(a);
      SmallText(b);
    }
  }

  // ---------------------------------------------------------- power users

  function MessageCount(s: Session): int {
    s.totalMessages.GetOr(0)
  }

  function CountKey(): Session -> int {
    (s: Session) => MessageCount(s)
  }

  function AboveMin(min: int): Session -> bool {
    (s: Session) => MessageCount(s) > min
  }

  /** `power_users`' selection: the sessions with more than `min` messages,
    * the busiest first, ties in file order. */
  function PowerSessions(sessions: seq<Session>, min: int): seq<Session> {
    SortBy(Filter(sessions, AboveMin(min)), CountKey(), true)
  }

  /** Exactly the sessions above the threshold, each as often as in the
    * file, in descending order of message count. */
  lemma PowerSessionsSelect(sessions: seq<Session>, min: int)
    ensures forall s :: s in PowerSessions(sessions, min) <==> s in sessions && MessageCount(s) > min
    ensures multiset(PowerSessions(sessions, min)) == multiset(Filter(sessions, AboveMin(min)))
    ensures SortedBy(PowerSessions(sessions, min), CountKey(), true)
  {
    SortByCorrect(Filter(sessions, AboveMin(min)), CountKey(), true);
    SortByMembers(Filter(sessions, AboveMin(min)), CountKey(), true);
  }

  /** One power user as the report lists them. */
  datatype PowerRow = PowerRow(userId: string, session: string, messages: int, duration: string, language: string)

  function PowerRowOf(): Session -> PowerRow {
    (s: Session) => PowerRow(s.userId.GetOr("anonymous"), Take(s.sessionId, 40), MessageCount(s), Duration(s),
                             s.language.GetOr("EN"))
  }

  /** `power_users`: nothing without data, otherwise one row per selected
    * session, in the selection's order. */
  function PowerUsers(data: Option<DayFile>, min: int): (r: Option<seq<PowerRow>>)
    ensures r.Some? <==> HasData(data)
    ensures r.Some? ==> |r.value| == |PowerSessions(SessionsOf(data.value), min)|
    ensures r.Some? ==> forall i :: 0 <= i < |r.value| ==>
      r.value[i].messages == MessageCount(PowerSessions(SessionsOf(data.value), min)[i]) &&
      r.value[i].messages > min
  {
    if !HasData(data) then None
    else
      var selected := PowerSessions(SessionsOf(data.value), min);
      PowerSessionsSelect(SessionsOf(data.value), min);
      Some(Map(selected, PowerRowOf()))
  }

  // ----------------------------------------------------- critical messages

  predicate IsCritical(m: ChatLine) {
    m.level == Some("critical") && m.role == Some("user")
  }

  function Critical(): ChatLine -> bool {
    (m: ChatLine) => IsCritical(m)
  }

  /** The comprehension of `find_critical_messages`: the user's messages at
    * the critical level, in their order. */
  function CriticalOf(msgs: seq<ChatLine>): (r: seq<ChatLine>)
    ensures forall m :: m in r <==> m in msgs && m.level == Some("critical") && m.role == Some("user")
  {
    Filter(msgs, Critical())
  }

  /** A session listed by `find_critical_messages`, with each message's
    * timestamp ("N/A" when missing) and first 100 characters. */
  datatype CriticalSession = CriticalSession(sessionId: string, userId: string, language: string,
                                             items: seq<(string, string)>)

  function ItemOf(): ChatLine -> (string, string) {
    (m: ChatLine) => (m.timestamp.GetOr("N/A"), Take(m.content.GetOr(""), 100))
  }

  function Listed(s: Session): CriticalSession {
    CriticalSession(s.sessionId, s.userId.GetOr("unknown"), s.language.GetOr("EN"), Map(CriticalOf(s.messages), ItemOf()))
  }

  predicate HasCritical(s: Session) {
    CriticalOf(s.messages) != []
  }

  /** The sessions listed, as the loop prints them. */
  function CriticalReport(sessions: seq<Session>): seq<CriticalSession>
    decreases |sessions|
  {
    if sessions == [] then []
    else
      var s := sessions[|sessions| - 1];
      CriticalReport(sessions[..|sessions| - 1]) + (if HasCritical(s) then [Listed(s)] else [])
  }

  /** The loop of `find_critical_messages`: the sessions with a critical
    * message are listed and `found` records whether there was one. */
  method FindCriticalMessages(sessions: seq<Session>) returns (report: seq<CriticalSession>, found: bool)
    ensures report == CriticalReport(sessions)
    ensures found <==> report != []
  {
    report := [];
    found := false;
    var i := 0;
    while i < |sessions|
      invariant 0 <= i <= |sessions|
      invariant report == CriticalReport(sessions[..i])
      invariant found <==> report != []
    {
      var session := sessions[i];
      assert sessions[..i + 1][..i] == sessions[..i];
      var criticalMsgs := CriticalOf(session.messages);
      if criticalMsgs != [] {
        found := true;
        report := report + [Listed(session)];
      }
      i := i + 1;
    }
    assert sessions[..i] == sessions;
  }

  function HasCriticalP(): Session -> bool {
    (s: Session) => HasCritical(s)
  }

  function ListedF(): Session -> CriticalSession {
    (s: Session) => Listed(s)
  }

  /** The report lists exactly the sessions that hold a critical message, in
    * file order. */
  lemma {:induction false} CriticalReportSelects(sessions: seq<Session>)
    ensures CriticalReport(sessions) == Map(Filter(sessions, HasCriticalP()), ListedF())
    decreases |sessions|
  {
    if sessions != [] {
      var n := |sessions| - 1;
      CriticalReportSelects(sessions[..n]);
      FilterMapSnoc(sessions, n, HasCriticalP(), ListedF());
      assert sessions[..n + 1] == sessions;
    }
  }

  /** Nothing found exactly when no session holds a user message at the
    * critical level. */
  lemma NothingFound(sessions: seq<Session>)
    ensures CriticalReport(sessions) == [] <==>
      forall s, m :: s in sessions && m in s.messages ==> !IsCritical(m)
  {
    CriticalReportSelects(sessions);
    var picked := Filter(sessions, HasCriticalP());
    if picked != [] {
      var s := picked[0];
      assert s in sessions && HasCritical(s);
      var m := CriticalOf(s.messages)[0];
      assert m in s.messages && IsCritical(m);
    }
    if exists s, m :: s in sessions && m in s.messages && IsCritical(m) {
      var s, m :| s in sessions && m in s.messages && IsCritical(m);
      assert m in CriticalOf(s.messages);
      assert s in picked;
    }
  }

  // ------------------------------------------------------- daily report

  /** A `defaultdict(int)`: its items in first-insertion order. */
  type Counter = seq<(string, int)>

  /** `counter.get(k, 0)`. */
  function Lookup(c: Counter, k: string): int
    decreases |c|
  {
    if c == [] then 0 else if c[0].0 == k then c[0].1 else Lookup(c[1..], k)
  }

  function Keys(c: Counter): seq<string>
    decreases |c|
  {
    if c == [] then [] else [c[0].0] + Keys(c[1..])
  }

  /** `counter[k] += amount`: an existing key keeps its place, a new one goes
    * last. */
  function Bump(c: Counter, k: string, amount: int): Counter
    decreases |c|
  {
    if c == [] then [(k, amount)]
    else if c[0].0 == k then [(k, c[0].1 + amount)] + c[1..]
    else [c[0]] + Bump(c[1..], k, amount)
  }

  /** Bumping adds to that key alone. */
  lemma {:induction false} BumpLookup(c: Counter, k: string, amount: int, j: string)
    ensures Lookup(Bump(c, k, amount), j) == Lookup(c, j) + (if j == k then amount else 0)
    decreases |c|
  {
    if c != [] && c[0].0 != k {
      BumpLookup(c[1..], k, amount, j);
      assert Bump(c, k, amount)[1..] == Bump(c[1..], k, amount);
    }
  }

  /** Bumping keeps the keys in first-insertion order. */
  lemma {:induction false} BumpKeys(c: Counter, k: string, amount: int)
    ensures Keys(Bump(c, k, amount)) == if k in Keys(c) then Keys(c) else Keys(c) + [k]
    decreases |c|
  {
    if c != [] && c[0].0 != k {
      BumpKeys(c[1..], k, amount);
      assert Bump(c, k, amount)[1..] == Bump(c[1..], k, amount);
      assert Keys(c) == [c[0].0] + Keys(c[1..]);
    }
  }

  /** The sum of a counter's values. */
  function Total(c: Counter): int
    decreases |c|
  {
    if c == [] then 0 else c[0].1 + Total(c[1..])
  }

  lemma {:induction false} BumpTotal(c: Counter, k: string, amount: int)
    ensures Total(Bump(c, k, amount)) == Total(c) + amount
    decreases |c|
  {
    if c != [] && c[0].0 != k {
      BumpTotal(c[1..], k, amount);
      assert Bump(c, k, amount)[1..] == Bump(c[1..], k, amount);
    }
  }

  /** Adding one session's `message_count_by_level` items in turn. */
  function AddCounts(c: Counter, pairs: seq<(string, int)>): Counter
    decreases |pairs|
  {
    if pairs == [] then c
    else
      var last := pairs[|pairs| - 1];
      Bump(AddCounts(c, pairs[..|pairs| - 1]), last.0, last.1)
  }

  /** What a list of items holds for one key. */
  function PairsTotal(pairs: seq<(string, int)>, k: string): int
    decreases |pairs|
  {
    if pairs == [] then 0
    else
      var last := pairs[|pairs| - 1];
      PairsTotal(pairs[..|pairs| - 1], k) + (if last.0 == k then last.1 else 0)
  }

  lemma {:induction false} AddCountsLookup(c: Counter, pairs: seq<(string, int)>, k: string)
    ensures Lookup(AddCounts(c, pairs), k) == Lookup(c, k) + PairsTotal(pairs, k)
    decreases |pairs|
  {
    if pairs != [] {
      var n := |pairs| - 1;
      AddCountsLookup(c, pairs[..n], k);
      BumpLookup(AddCounts(c, pairs[..n]), pairs[n].0, pairs[n].1, k);
    }
  }

  /** The inner loop of `daily_summary`. */
  method AddLevelCounts(levels: Counter, pairs: seq<(string, int)>) returns (r: Counter)
    ensures r == AddCounts(levels, pairs)
  {
    r := levels;
    var i := 0;
    while i < |pairs|
      invariant 0 <= i <= |pairs|
      invariant r == AddCounts(levels, pairs[..i])
    {
      var (level, count) := pairs[i];
      assert pairs[..i + 1][..i] == pairs[..i];
      r := Bump(r, level, count);
      i := i + 1;
    }
    assert pairs[..i] == pairs;
  }

  function Language(s: Session): string {
    s.language.GetOr("EN")
  }

  /** The level counter after the given sessions. */
  function LevelsAfter(sessions: seq<Session>): Counter
    decreases |sessions|
  {
    if sessions == [] then []
    else AddCounts(LevelsAfter(sessions[..|sessions| - 1]), sessions[|sessions| - 1].levelCounts)
  }

  /** The language counter after the given sessions. */
  function LanguagesAfter(sessions: seq<Session>): Counter
    decreases |sessions|
  {
    if sessions == [] then []
    else Bump(LanguagesAfter(sessions[..|sessions| - 1]), Language(sessions[|sessions| - 1]), 1)
  }

  /** A level's count summed over the sessions. */
  function LevelTotal(sessions: seq<Session>, k: string): int
    decreases |sessions|
  {
    if sessions == [] then 0
    else LevelTotal(sessions[..|sessions| - 1], k) + PairsTotal(sessions[|sessions| - 1].levelCounts, k)
  }

  /** The outer loop of `daily_summary`: one language count per session and
    * the sessions' level counts added in. */
  method Aggregate(sessions: seq<Session>) returns (levels: Counter, languages: Counter)
    ensures levels == LevelsAfter(sessions) && languages == LanguagesAfter(sessions)
  {
    levels, languages := [], [];
    var i := 0;
    while i < |sessions|
      invariant 0 <= i <= |sessions|
      invariant levels == LevelsAfter(sessions[..i]) && languages == LanguagesAfter(sessions[..i])
    {
      var session := sessions[i];
      assert sessions[..i + 1][..i] == sessions[..i];
      languages := Bump(languages, Language(session), 1);
      levels := AddLevelCounts(levels, session.levelCounts);
      i := i + 1;
    }
    assert sessions[..i] == sessions;
  }

  /** Each level's count is that level's total over all sessions. */
  lemma {:induction false} LevelsAfterLookup(sessions: seq<Session>, k: string)
    ensures Lookup(LevelsAfter(sessions), k) == LevelTotal(sessions, k)
    decreases |sessions|
  {
    if sessions != [] {
      var n := |sessions| - 1;
      LevelsAfterLookup(sessions[..n], k);
      AddCountsLookup(LevelsAfter(sessions[..n]), sessions[n].levelCounts, k);
    }
  }

  function LanguageIs(l: string): Session -> bool {
    (s: Session) => Language(s) == l
  }

  /** Each language's count is the number of its sessions, and together
    * they count every session once. */
  lemma {:induction false} LanguagesAfterCounts(sessions: seq<Session>, l: string)
    ensures Lookup(LanguagesAfter(sessions), l) == |Filter(sessions, LanguageIs(l))|
    ensures Total(LanguagesAfter(sessions)) == |sessions|
    decreases |sessions|
  {
    if sessions != [] {
      var n := |sessions| - 1;
      LanguagesAfterCounts(sessions[..n], l);
      BumpLookup(LanguagesAfter(sessions[..n]), Language(sessions[n]), 1, l);
      BumpTotal(LanguagesAfter(sessions[..n]), Language(sessions[n]), 1);
      FilterSnoc(sessions, n, LanguageIs(l));
      assert sessions[..n + 1] == sessions;
    }
  }

  /** `'█' * (count // 2) if count > 0 else ''`. */
  function Bar(count: int): (r: string)
    ensures |r| == if count > 0 then count / 2 else 0
    ensures forall i :: 0 <= i < |r| ==> r[i] == '█'
  {
    if count > 0 then seq(count / 2, _ => '█') else ""
  }

  datatype LevelRow = LevelRow(level: string, count: int, bar: string)

  /** The levels the distribution shows, in order. */
  const ShownLevels: seq<string> := ["low", "mid", "high", "critical"]

  function RowFor(levels: Counter): string -> LevelRow {
    (l: string) => LevelRow(l, Lookup(levels, l), Bar(Lookup(levels, l)))
  }

  /** The distribution: the four levels in order, each with its count (0
    * when absent) and its bar; any other level is not shown. */
  function LevelRows(levels: Counter): (r: seq<LevelRow>)
    ensures |r| == 4
    ensures forall i :: 0 <= i < 4 ==> r[i].level == ShownLevels[i] && r[i].count == Lookup(levels, ShownLevels[i])
    ensures forall i :: 0 <= i < 4 ==> r[i].bar == Bar(r[i].count)
  {
    Map(ShownLevels, RowFor(levels))
  }

  /** The four counters `daily_stats` reports, 0 when missing. */
  datatype Totals = Totals(messages: int, sessions: int, authenticated: int, anonymous: int)

  const NoTotals := Totals(0, 0, 0, 0)

  function StatsTotals(stats: Option<DayStats>): Totals {
    match stats
    case None => NoTotals
    case Some(x) =>
      Totals(x.totalMessages.GetOr(0), x.totalSessions.GetOr(0), x.authenticatedSessions.GetOr(0),
             x.anonymousSessions.GetOr(0))
  }

  datatype DailyReport = DailyReport(totals: Totals, levels: seq<LevelRow>, languages: Counter)

  /** `daily_summary`: nothing without data; otherwise the file's totals,
    * the level distribution over all sessions and the sessions per
    * language. */
  method DailySummary(data: Option<DayFile>) returns (r: Option<DailyReport>)
    ensures r.Some? <==> HasData(data)
    ensures r.Some? ==> r.value.totals == StatsTotals(data.value.dailyStats)
    ensures r.Some? ==> r.value.levels == LevelRows(LevelsAfter(SessionsOf(data.value)))
    ensures r.Some? ==> r.value.languages == LanguagesAfter(SessionsOf(data.value))
  {
    if !HasData(data) {
      return None;
    }
    var levels, languages := Aggregate(SessionsOf(data.value));
    r := Some(DailyReport(StatsTotals(data.value.dailyStats), LevelRows(levels), languages));
  }

  // ------------------------------------------------------ weekly report

  function Plus(a: Totals, b: Totals): Totals {
    Totals(a.messages + b.messages, a.sessions + b.sessions, a.authenticated + b.authenticated,
           a.anonymous + b.anonymous)
  }

  /** What one day adds: its totals when it has data, nothing otherwise. */
  function DayContribution(data: Option<DayFile>): Totals {
    if HasData(data) then StatsTotals(data.value.dailyStats) else NoTotals
  }

  /** The totals of the first `n` days from `start`. */
  function WeekSum(files: map<string, DayFile>, dataDir: string, start: Date, n: nat): Totals
    requires ValidDate(start)
    decreases n
  {
    if n == 0 then NoTotals else Plus(WeekSum(files, dataDir, start, n - 1), DayTotal(files, dataDir, start, n - 1))
  }

  /** What the `i`-th day from `start` adds. */
  function DayTotal(files: map<string, DayFile>, dataDir: string, start: Date, i: nat): Totals
    requires ValidDate(start)
  {
    match AddDays(start, i)
    case None => NoTotals
    case Some(d) => DayContribution(LoadDateFile(files, dataDir, d))
  }

  /** `weekly_summary`: the seven days from `start` summed, a day without
    * a file adding nothing; an error when the week runs past the last
    * representable date, as the end date is computed first. */
  method WeeklySummary(files: map<string, DayFile>, dataDir: string, start: Date) returns (r: Result<Totals, string>)
    requires ValidDate(start)
    ensures r.Ok? <==> AddDays(start, 6).Some?
    ensures r.Ok? ==> r.value == WeekSum(files, dataDir, start, 7)
  {
    if AddDays(start, 6).None? {
      return Err("date value out of range");
    }
    var total := NoTotals;
    var i := 0;
    while i < 7
      invariant 0 <= i <= 7
      invariant total == WeekSum(files, dataDir, start, i)
    {
      if i < 6 {
        DaysIncrease(start, i, 6);
      }
      var date := AddDays(start, i).value;
      var data := LoadDateFile(files, dataDir, date);
      if HasData(data) {
        total := Plus(total, StatsTotals(data.value.dailyStats));
      } else {
        total := Plus(total, NoTotals);
      }
      i := i + 1;
    }
    r := Ok(total);
  }

  /** A day without a file, or with an empty one, adds nothing. */
  lemma NoDataAddsNothing(files: map<string, DayFile>, dataDir: string, start: Date, i: nat)
    requires ValidDate(start)
    requires AddDays(start, i).Some? ==> !HasData(LoadDateFile(files, dataDir, AddDays(start, i).value))
    ensures DayTotal(files, dataDir, start, i) == NoTotals
  {
  }

  /** Days that add nothing leave the sum at zero. */
  lemma {:induction false} EmptyWeek(files: map<string, DayFile>, dataDir: string, start: Date, n: nat)
    requires ValidDate(start)
    requires forall i :: 0 <= i < n ==> DayTotal(files, dataDir, start, i) == NoTotals
    ensures WeekSum(files, dataDir, start, n) == NoTotals
    decreases n
  {
    if n > 0 {
      EmptyWeek(files, dataDir, start, n - 1);
    }
  }

  /** The seven days of a week read seven different files. */
  lemma WeekFilesDistinct(dataDir: string, start: Date, i: nat, j: nat)
    requires ValidDate(start) && i < j <= 6 && AddDays(start, 6).Some?
    ensures AddDays(start, i).Some? && AddDays(start, j).Some?
    ensures DatePath(dataDir, AddDays(start, i).value) != DatePath(dataDir, AddDays(start, j).value)
  {
    if j < 6 {
      DaysIncrease(start, j, 6);
    }
    DaysIncrease(start, i, j);
    if DatePath(dataDir, AddDays(start, i).value) == DatePath(dataDir, AddDays(start, j).value) {
      DatePathInjective(dataDir, AddDays(start, i).value, AddDays(start, j).value);
    }
  }
}
