/** The automatic-snapshot schedule: which instants a schedule string selects, the next one after
    a given instant, and the catch-up over missed runs. */
module Schedule {
  import opened Wrappers
  import opened Text

  /** Instants are integer nanoseconds, counted from a whole hour. */
  const SECOND: int := 1_000_000_000
  const HOUR: int := 3600 * SECOND

  /** A calendar of local days: midnights increase strictly (a day need not last 24 hours), every
      instant belongs to one day, weekdays cycle modulo 7 with Sunday as 0, and every day is
      followed by a nearest first-of-month day. */
  datatype Calendar = Calendar(midnight: int -> int, dayOf: int -> int, weekdayOfZero: int,
                               isFirst: int -> bool, nextFirst: int -> int)
  {
    ghost predicate Valid() {
      && (forall d, e {:trigger midnight(d), midnight(e)} :: d < e ==> midnight(d) < midnight(e))
      && (forall t {:trigger dayOf(t)} :: midnight(dayOf(t)) <= t < midnight(dayOf(t) + 1))
      && (forall d {:trigger nextFirst(d)} :: d < nextFirst(d) && isFirst(nextFirst(d)))
      && (forall d, e {:trigger nextFirst(d), isFirst(e)} :: d < e < nextFirst(d) ==> !isFirst(e))
    }

    function Weekday(day: int): int {
      (day + weekdayOfZero) % 7
    }
  }

  /** weekdayFromDigit on a character code: '1' is Monday (1) up to '6'; '7' and anything else is Sunday (0). */
  function WeekdayFromDigit(c: int): (w: int)
    ensures 0 <= w < 7
    ensures 49 <= c <= 55 ==> (w - (c - 48)) % 7 == 0
  {
    if 49 <= c <= 54 then c - 48 else 0
  }

  /** The characters of a string as numbers; '1' to '7' are 49 to 55. */
  function Codes(s: string): (r: seq<int>)
    ensures |r| == |s|
  {
    seq(|s|, i requires 0 <= i < |s| => s[i] as int)
  }

  /** The ascending, duplicate-free digits from d to '7' that occur in v. */
  function Digits(v: seq<int>, d: int): seq<int>
    requires 49 <= d <= 56
    decreases 56 - d
  {
    if d == 56 then []
    else if d in v then [d] + Digits(v, d + 1)
    else Digits(v, d + 1)
  }

  lemma {:induction false} DigitsAreThose(v: seq<int>, d: int)
    requires 49 <= d <= 56
    ensures forall c :: c in Digits(v, d) <==> c in v && d <= c <= 55
    ensures forall i, j :: 0 <= i < j < |Digits(v, d)| ==> Digits(v, d)[i] < Digits(v, d)[j]
    decreases 56 - d
  {
    if d != 56 {
      DigitsAreThose(v, d + 1);
      var r, rest := Digits(v, d), Digits(v, d + 1);
      if d in v {
        assert r == [d] + rest && r[1..] == rest;
        forall c ensures c in r <==> c in v && d <= c <= 55 {
          assert c in r <==> c == d || c in rest;
        }
        forall i, j | 0 <= i < j < |r| ensures r[i] < r[j] {
          assert r[j] == rest[j - 1] && r[j] in rest;
        }
      }
    }
  }

  predicate AllDigits(v: seq<int>) {
    forall i :: 0 <= i < |v| ==> 49 <= v[i] <= 55
  }

  /** What normalizeWeeklySchedule computes from the trimmed string: its weekdays in ascending order,
      or nothing when it is empty or holds any other character. */
  function Weekly(v: seq<int>): (r: Option<seq<int>>)
    ensures r.Some? <==> v != [] && AllDigits(v)
    ensures r.Some? ==> r.value != [] && forall c :: c in r.value <==> c in v
  {
    if v != [] && AllDigits(v) then
      DigitsAreThose(v, 49);
      assert v[0] in Digits(v, 49);
      Some(Digits(v, 49))
    else None
  }

  /** The digits written so far, after the passes below digit and the first i characters of its own. */
  ghost predicate Collected(v: seq<int>, digit: int, i: int, seen: set<int>, builder: seq<int>)
    requires 49 <= digit <= 55 && 0 <= i <= |v|
  {
    && (digit in seen <==> digit in v[..i])
    && builder + (if digit in v[..i] then Digits(v, digit + 1) else Digits(v, digit)) == Digits(v, 49)
  }

  lemma CollectOne(v: seq<int>, digit: int, i: int, seen: set<int>, builder: seq<int>)
    requires 49 <= digit <= 55 && 0 <= i < |v| && Collected(v, digit, i, seen, builder)
    ensures v[i] != digit || v[i] in seen ==> Collected(v, digit, i + 1, seen, builder)
    ensures v[i] == digit && v[i] !in seen ==> Collected(v, digit, i + 1, seen + {v[i]}, builder + [v[i]])
  {
    assert v[..i + 1] == v[..i] + [v[i]];
    if v[i] == digit && v[i] !in seen {
      assert Digits(v, digit) == [digit] + Digits(v, digit + 1);
      assert builder + ([digit] + Digits(v, digit + 1)) == builder + [digit] + Digits(v, digit + 1);
    }
  }

  method NormalizeWeeklySchedule(value: seq<int>) returns (r: Option<seq<int>>)
    ensures r == Weekly(value)
  {
    if value == [] {
      return None;
    }
    var seen: set<int> := {};
    var builder: seq<int> := [];
    for digit := 49 to 56
      invariant digit > 49 ==> AllDigits(value)
      invariant forall c :: c in seen ==> c < digit
      invariant builder + Digits(value, digit) == Digits(value, 49)
    {
      for i := 0 to |value|
        invariant AllDigits(value[..i])
        invariant forall c :: c in seen ==> c <= digit
        invariant Collected(value, digit, i, seen, builder)
      {
        var ch := value[i];
        if ch < 49 || ch > 55 {
          return None;
        }
        CollectOne(value, digit, i, seen, builder);
        if ch != digit {
          continue;
        }
        if ch in seen {
          continue;
        }
        seen := seen + {ch};
        builder := builder + [ch];
      }
      assert value[..|value|] == value;
    }
    assert builder == Digits(value, 49);
    return Some(builder);
  }

  /** Normalising twice changes nothing. */
  lemma {:induction false} NormalizeIdempotent(v: seq<int>)
    requires Weekly(v).Some?
    ensures Weekly(Weekly(v).value) == Weekly(v)
  {
    var w := Digits(v, 49);
    DigitsAreThose(v, 49);
    forall i | 0 <= i < |w| ensures 49 <= w[i] <= 55 {
      assert w[i] in w;
    }
    SameDigits(w, v, 49);
  }

  lemma {:induction false} SameDigits(v: seq<int>, w: seq<int>, d: int)
    requires 49 <= d <= 56
    requires forall c :: c in v <==> c in w
    ensures Digits(v, d) == Digits(w, d)
    decreases 56 - d
  {
    if d != 56 {
      SameDigits(v, w, d + 1);
    }
  }

  /** The four ways NextAutoSnapshotTime reads a schedule string. */
  datatype Plan = OnWeekdays(digits: seq<int>) | EveryHour | EveryDay | EveryMonth

  function PlanOf(schedule: string): Plan {
    var weekly := Weekly(Codes(TrimSpace(schedule)));
    if weekly.Some? then OnWeekdays(weekly.value) else LegacyPlan(ToLower(TrimSpace(schedule)))
  }

  function LegacyPlan(word: string): Plan {
    if word == "hourly" then EveryHour else if word == "monthly" then EveryMonth else EveryDay
  }

  predicate AllowedDay(cal: Calendar, digits: seq<int>, day: int) {
    exists c :: c in digits && WeekdayFromDigit(c) == cal.Weekday(day)
  }

  /** The instants a plan selects. */
  ghost predicate Tick(cal: Calendar, plan: Plan, t: int) {
    match plan
    case OnWeekdays(digits) => exists d :: t == cal.midnight(d) && AllowedDay(cal, digits, d)
    case EveryHour => t % HOUR == 0
    case EveryDay => exists d :: t == cal.midnight(d)
    case EveryMonth => exists d :: t == cal.midnight(d) && cal.isFirst(d)
  }

  /** t is the least selected instant after from. */
  ghost predicate IsNextTick(cal: Calendar, plan: Plan, from: int, t: int) {
    && from < t && Tick(cal, plan, t)
    && forall u :: from < u < t ==> !Tick(cal, plan, u)
  }

  /** The first allowed midnight after base at or after a day offset, searching at most 7 days ahead. */
  function WeeklyFrom(cal: Calendar, digits: seq<int>, base: int, offset: nat): Option<int>
    decreases 8 - offset
  {
    if offset > 7 then None
    else
      var candidate := cal.dayOf(base) + offset;
      if cal.midnight(candidate) > base && AllowedDay(cal, digits, candidate) then Some(cal.midnight(candidate))
      else WeeklyFrom(cal, digits, base, offset + 1)
  }

  function NextForPlan(cal: Calendar, plan: Plan, from: int): int {
    match plan
    case OnWeekdays(digits) =>
      (match WeeklyFrom(cal, digits, from, 0)
       case Some(t) => t
       case None => cal.midnight(cal.dayOf(from) + 1))
    case EveryHour => from - from % HOUR + HOUR
    case EveryDay => cal.midnight(cal.dayOf(from) + 1)
    case EveryMonth => cal.midnight(cal.nextFirst(cal.dayOf(from)))
  }

  /** The value NextAutoSnapshotTime computes. */
  function NextTime(cal: Calendar, schedule: string, from: int): int {
    NextForPlan(cal, PlanOf(schedule), from)
  }

  lemma DigitsAreNoWord(v: string)
    requires v != "" && AllDigits(Codes(v))
    ensures LegacyPlan(ToLower(v)) == EveryDay
  {
    assert Codes(v)[0] == v[0] as int;
    assert ToLower(v)[0] == v[0];
  }

  method FirstAllowed(cal: Calendar, base: int, normalized: seq<int>) returns (t: Option<int>)
    ensures t == WeeklyFrom(cal, normalized, base, 0)
  {
    var allowed: set<int> := {};
    for i := 0 to |normalized|
      invariant forall w :: w in allowed <==> exists j :: 0 <= j < i && WeekdayFromDigit(normalized[j]) == w
    {
      allowed := allowed + {WeekdayFromDigit(normalized[i])};
    }
    var dayStart := cal.dayOf(base);
    for offset := 0 to 8
      invariant WeeklyFrom(cal, normalized, base, 0) == WeeklyFrom(cal, normalized, base, offset)
    {
      var candidate := cal.midnight(dayStart + offset);
      if candidate <= base {
        continue;
      }
      if cal.Weekday(dayStart + offset) in allowed {
        return Some(candidate);
      }
    }
    return None;
  }

  method LegacyNext(cal: Calendar, from: int, word: string) returns (next: int)
    ensures next == NextForPlan(cal, LegacyPlan(word), from)
  {
    match word
    case "hourly" => return from - from % HOUR + HOUR;
    case "daily" => return cal.midnight(cal.dayOf(from) + 1);
    case "monthly" => return cal.midnight(cal.nextFirst(cal.dayOf(from)));
    case _ => return cal.midnight(cal.dayOf(from) + 1);
  }

  method NextAutoSnapshotTime(cal: Calendar, from: int, schedule: string) returns (next: int)
    ensures next == NextTime(cal, schedule, from)
  {
    var normalized := NormalizeWeeklySchedule(Codes(TrimSpace(schedule)));
    if normalized.Some? {
      var t := FirstAllowed(cal, from, normalized.value);
      if t.Some? {
        return t.value;
      }
      DigitsAreNoWord(TrimSpace(schedule));
    }
    next := LegacyNext(cal, from, ToLower(TrimSpace(schedule)));
  }

  /** NextAutoSnapshotTime returns the least selected instant after its argument, for every schedule
      string: weekly digit strings, the legacy words, and anything else (read as daily). */
  lemma {:induction false} NextTimeIsLeast(cal: Calendar, schedule: string, from: int)
    requires cal.Valid()
    ensures IsNextTick(cal, PlanOf(schedule), from, NextTime(cal, schedule, from))
  {
    PlanNextIsLeast(cal, PlanOf(schedule), from);
  }

  lemma {:induction false} PlanNextIsLeast(cal: Calendar, plan: Plan, from: int)
    requires cal.Valid() && (plan.OnWeekdays? ==> plan.digits != [])
    ensures IsNextTick(cal, plan, from, NextForPlan(cal, plan, from))
  {
    match plan {
      case OnWeekdays(digits) => NextWeekday(cal, digits, from);
      case EveryHour => HourGap(from);
      case EveryDay => NextDay(cal, from);
      case EveryMonth => NextMonth(cal, from);
    }
  }

  lemma NextWeekday(cal: Calendar, digits: seq<int>, from: int)
    requires cal.Valid() && digits != []
    ensures IsNextTick(cal, OnWeekdays(digits), from, NextForPlan(cal, OnWeekdays(digits), from))
  {
    hide AllowedDay;
    var day := cal.dayOf(from);
    var d0 := SomeAllowedDay(cal, digits, day);
    assert cal.midnight(day + 1) <= cal.midnight(d0);
    var d1 := WeeklyFromFinds(cal, digits, from, 0, d0);
    assert Tick(cal, OnWeekdays(digits), cal.midnight(d1));
    NoneBetween(cal, digits, from, d1);
  }

  lemma NoneBetween(cal: Calendar, digits: seq<int>, from: int, d1: int)
    requires cal.Valid()
    requires forall e :: cal.dayOf(from) <= e < d1 && cal.midnight(e) > from ==> !AllowedDay(cal, digits, e)
    ensures forall u :: from < u < cal.midnight(d1) ==> !Tick(cal, OnWeekdays(digits), u)
  {
    hide AllowedDay;
    forall u | from < u < cal.midnight(d1) ensures !Tick(cal, OnWeekdays(digits), u) {
      forall d {:trigger cal.midnight(d)} | u == cal.midnight(d) ensures !AllowedDay(cal, digits, d) {
        assert cal.midnight(cal.dayOf(from)) <= from;
        assert cal.dayOf(from) <= d < d1;
      }
    }
  }

  lemma NextDay(cal: Calendar, from: int)
    requires cal.Valid()
    ensures IsNextTick(cal, EveryDay, from, NextForPlan(cal, EveryDay, from))
  {
    var day := cal.dayOf(from);
    forall u | from < u < cal.midnight(day + 1) ensures !Tick(cal, EveryDay, u) {
      forall d {:trigger cal.midnight(d)} ensures u != cal.midnight(d) {
        assert cal.midnight(day) <= from;
      }
    }
  }

  lemma NextMonth(cal: Calendar, from: int)
    requires cal.Valid()
    ensures IsNextTick(cal, EveryMonth, from, NextForPlan(cal, EveryMonth, from))
  {
    var day := cal.dayOf(from);
    var d0 := cal.nextFirst(day);
    assert cal.midnight(day + 1) <= cal.midnight(d0);
    forall u | from < u < cal.midnight(d0) ensures !Tick(cal, EveryMonth, u) {
      forall d {:trigger cal.midnight(d)} | u == cal.midnight(d) ensures !cal.isFirst(d) {
        assert d != day ==> day < d < d0;
        assert cal.midnight(day) <= from;
      }
    }
  }

  lemma HourGap(from: int)
    ensures forall u :: from < u < from - from % HOUR + HOUR ==> u % HOUR != 0
    ensures (from - from % HOUR + HOUR) % HOUR == 0
  {
    var q := from / HOUR;
    assert from - from % HOUR == q * HOUR;
    assert (q + 1) * HOUR % HOUR == 0;
    forall u | from < u < (q + 1) * HOUR ensures u % HOUR != 0 {
    }
  }

  /** Seven consecutive days meet every weekday, so a non-empty weekday set allows one of them. */
  lemma SomeAllowedDay(cal: Calendar, digits: seq<int>, day: int) returns (d: int)
    requires digits != []
    ensures day < d <= day + 7 && AllowedDay(cal, digits, d)
  {
    var w := WeekdayFromDigit(digits[0]);
    d := day + 1 + (w - cal.Weekday(day + 1)) % 7;
    CycleHits(day + 1 + cal.weekdayOfZero, w);
    assert cal.Weekday(d) == w;
    assert digits[0] in digits;
  }

  lemma CycleHits(x: int, w: int)
    requires 0 <= w < 7
    ensures (x + (w - x % 7) % 7) % 7 == w
  {
    var q, r := x / 7, x % 7;
    assert x == 7 * q + r;
    if w >= r {
      assert x + (w - r) == 7 * q + w;
    } else {
      assert (w - r) % 7 == w - r + 7;
      assert x + (w - r + 7) == 7 * (q + 1) + w;
    }
  }

  /** The search finds the first allowed midnight after base, if some allowed day lies ahead. */
  lemma {:induction false} WeeklyFromFinds(cal: Calendar, digits: seq<int>, base: int, offset: nat, d0: int) returns (d: int)
    requires cal.dayOf(base) + offset <= d0 <= cal.dayOf(base) + 7 && cal.midnight(d0) > base && AllowedDay(cal, digits, d0)
    ensures cal.dayOf(base) + offset <= d <= d0 && WeeklyFrom(cal, digits, base, offset) == Some(cal.midnight(d))
    ensures cal.midnight(d) > base && AllowedDay(cal, digits, d)
    ensures forall e :: cal.dayOf(base) + offset <= e < d && cal.midnight(e) > base ==> !AllowedDay(cal, digits, e)
    decreases 8 - offset
  {
    hide AllowedDay;
    d := cal.dayOf(base) + offset;
    if cal.midnight(d) <= base || !AllowedDay(cal, digits, d) {
      d := WeeklyFromFinds(cal, digits, base, offset + 1, d0);
    }
  }

  /** A next instant is unique, and any later start that does not pass it has the same one. */
  lemma NextTickShared(cal: Calendar, plan: Plan, a: int, b: int, s: int, t: int)
    requires IsNextTick(cal, plan, a, s) && IsNextTick(cal, plan, b, t)
    requires a <= b < s
    ensures s == t
  {
  }

  /** The value nextAutoSnapshotAfter computes. */
  function CatchUpTime(cal: Calendar, lastScheduledAt: Option<int>, schedule: string, now: int): int {
    NextTime(cal, schedule, if lastScheduledAt.Some? && lastScheduledAt.value > now then lastScheduledAt.value else now)
  }

  /** Catch-up: stepping forward from the last scheduled run through every missed one gives exactly
      the next instant after now, for every schedule string; the loop always ends. */
  method NextAutoSnapshotAfter(cal: Calendar, lastScheduledAt: Option<int>, schedule: string, now: int)
    returns (next: int)
    requires cal.Valid()
    ensures next == CatchUpTime(cal, lastScheduledAt, schedule, now)
    ensures lastScheduledAt.None? || lastScheduledAt.value <= now ==> IsNextTick(cal, PlanOf(schedule), now, next)
  {
    var base := now;
    if lastScheduledAt.Some? {
      base := lastScheduledAt.value;
    }
    next := NextAutoSnapshotTime(cal, base, schedule);
    NextTimeIsLeast(cal, schedule, base);
    NextTimeIsLeast(cal, schedule, now);
    ghost var plan, previous := PlanOf(schedule), base;
    while next <= now
      invariant IsNextTick(cal, plan, previous, next)
      invariant base <= previous && (next > now ==> previous <= now || previous == base)
      decreases now - next
    {
      previous := next;
      next := NextAutoSnapshotTime(cal, next, schedule);
      NextTimeIsLeast(cal, schedule, previous);
    }
    if base <= now {
      NextTickShared(cal, plan, previous, now, next, NextTime(cal, schedule, now));
    } else {
      assert previous == base;
    }
  }

  // ---- What each schedule string means ---------------------------------------------------------

  /** The weekday a schedule's character stands for; Sunday is 0. */
  predicate Names(c: char, weekday: int) {
    match c
    case '1' => weekday == 1
    case '2' => weekday == 2
    case '3' => weekday == 3
    case '4' => weekday == 4
    case '5' => weekday == 5
    case '6' => weekday == 6
    case '7' => weekday == 0
    case _ => false
  }

  predicate NamesDay(cal: Calendar, v: string, day: int) {
    exists i :: 0 <= i < |v| && Names(v[i], cal.Weekday(day))
  }

  /** Nothing but the characters '1' to '7', and at least one. */
  predicate IsWeekdays(v: string) {
    v != "" && forall i :: 0 <= i < |v| ==> '1' <= v[i] <= '7'
  }

  lemma CodesOfDays(v: string)
    ensures IsWeekdays(v) <==> v != "" && AllDigits(Codes(v))
    ensures Codes(v) == [] <==> v == ""
  {
    if AllDigits(Codes(v)) {
      forall i | 0 <= i < |v| ensures '1' <= v[i] <= '7' { assert Codes(v)[i] == v[i] as int; }
    }
  }

  lemma CodesName(cal: Calendar, v: string, day: int)
    requires IsWeekdays(v)
    ensures AllowedDay(cal, Codes(v), day) <==> NamesDay(cal, v, day)
  {
    if AllowedDay(cal, Codes(v), day) {
      var c :| c in Codes(v) && WeekdayFromDigit(c) == cal.Weekday(day);
      var i :| 0 <= i < |v| && Codes(v)[i] == c;
      assert Names(v[i], cal.Weekday(day));
    }
    if NamesDay(cal, v, day) {
      var i :| 0 <= i < |v| && Names(v[i], cal.Weekday(day));
      assert Codes(v)[i] in Codes(v);
      assert WeekdayFromDigit(Codes(v)[i]) == cal.Weekday(day);
    }
  }

  /** A string of weekday digits: the next midnight of a day that one of its characters names. */
  lemma WeekdaySchedule(cal: Calendar, schedule: string, from: int) returns (day: int)
    requires cal.Valid() && IsWeekdays(TrimSpace(schedule))
    ensures var t := NextTime(cal, schedule, from);
      && from < t == cal.midnight(day) && NamesDay(cal, TrimSpace(schedule), day)
      && forall d :: from < cal.midnight(d) < t ==> !NamesDay(cal, TrimSpace(schedule), d)
  {
    hide TrimSpace, NextTime;
    var v := TrimSpace(schedule);
    CodesOfDays(v);
    var digits := Weekly(Codes(v)).value;
    NextTimeIsLeast(cal, schedule, from);
    var t := NextTime(cal, schedule, from);
    forall d ensures AllowedDay(cal, digits, d) <==> NamesDay(cal, v, d) {
      CodesName(cal, v, d);
      SameDays(cal, digits, Codes(v), d);
    }
    hide AllowedDay, NamesDay;
    day :| t == cal.midnight(day) && AllowedDay(cal, digits, day);
    forall d | from < cal.midnight(d) < t ensures !NamesDay(cal, v, d) {
      assert !Tick(cal, PlanOf(schedule), cal.midnight(d));
    }
  }

  lemma SameDays(cal: Calendar, a: seq<int>, b: seq<int>, day: int)
    requires forall c :: c in a <==> c in b
    ensures AllowedDay(cal, a, day) <==> AllowedDay(cal, b, day)
  {
  }

  lemma WordIsNoWeekdays(v: string)
    requires ToLower(v) == "hourly" || ToLower(v) == "monthly"
    ensures !IsWeekdays(v)
  {
    CodesOfDays(v);
    if IsWeekdays(v) { DigitsAreNoWord(v); }
  }

  /** "hourly": the next whole hour. */
  lemma HourlySchedule(cal: Calendar, schedule: string, from: int)
    requires cal.Valid() && ToLower(TrimSpace(schedule)) == "hourly"
    ensures var t := NextTime(cal, schedule, from); t % 3_600_000_000_000 == 0 && from < t <= from + 3_600_000_000_000
  {
    hide TrimSpace, ToLower;
    WordIsNoWeekdays(TrimSpace(schedule));
    CodesOfDays(TrimSpace(schedule));
    HourAhead(from);
  }

  lemma HourAhead(from: int)
    ensures var t := from - from % HOUR + HOUR; t % 3_600_000_000_000 == 0 && from < t <= from + 3_600_000_000_000
  {
    var q := from / HOUR;
    assert from - from % HOUR == q * HOUR;
    assert (q + 1) * HOUR % HOUR == 0;
  }

  /** "monthly": the next midnight that begins a month. */
  lemma MonthlySchedule(cal: Calendar, schedule: string, from: int) returns (day: int)
    requires cal.Valid() && ToLower(TrimSpace(schedule)) == "monthly"
    ensures var t := NextTime(cal, schedule, from);
      && from < t == cal.midnight(day) && cal.isFirst(day)
      && forall d :: cal.isFirst(d) ==> !(from < cal.midnight(d) < t)
  {
    hide TrimSpace, ToLower, NextTime;
    WordIsNoWeekdays(TrimSpace(schedule));
    CodesOfDays(TrimSpace(schedule));
    NextTimeIsLeast(cal, schedule, from);
    var t := NextTime(cal, schedule, from);
    day :| t == cal.midnight(day) && cal.isFirst(day);
    forall d | cal.isFirst(d) ensures !(from < cal.midnight(d) < t) {
      assert Tick(cal, PlanOf(schedule), cal.midnight(d));
    }
  }

  /** "daily", and any other text: the next midnight. */
  lemma OtherSchedule(cal: Calendar, schedule: string, from: int) returns (day: int)
    requires cal.Valid() && !IsWeekdays(TrimSpace(schedule))
    requires ToLower(TrimSpace(schedule)) != "hourly" && ToLower(TrimSpace(schedule)) != "monthly"
    ensures var t := NextTime(cal, schedule, from);
      from < t == cal.midnight(day) && forall d :: !(from < cal.midnight(d) < t)
  {
    hide TrimSpace, ToLower, NextTime;
    CodesOfDays(TrimSpace(schedule));
    NextTimeIsLeast(cal, schedule, from);
    var t := NextTime(cal, schedule, from);
    day :| t == cal.midnight(day);
    forall d ensures !(from < cal.midnight(d) < t) {
      assert Tick(cal, PlanOf(schedule), cal.midnight(d));
    }
  }

  /** initialAutoSnapshotNextRun. */
  function InitialNextRun(cal: Calendar, enabled: bool, schedule: string, now: int): Option<int> {
    if !enabled || TrimSpace(schedule) == "" then None else Some(NextTime(cal, schedule, now))
  }

  /** A new pool's first run is the least instant its schedule selects after now. */
  lemma InitialRunIsNext(cal: Calendar, enabled: bool, schedule: string, now: int)
    requires cal.Valid()
    ensures
      var next := InitialNextRun(cal, enabled, schedule, now);
      && (next.Some? <==> enabled && TrimSpace(schedule) != "")
      && (next.Some? ==> IsNextTick(cal, PlanOf(schedule), now, next.value))
  {
    hide TrimSpace, PlanOf, NextForPlan;
    NextTimeIsLeast(cal, schedule, now);
  }
}
