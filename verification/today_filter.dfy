/**
 * `filterTodayItems` (discord-bot/bot.js:258-301): keep, in order, the cases that belong to
 * "today", deciding each case by the first of its storyDate, createdAt and startTime that is
 * usable.
 */
module TodayFilter {
  import opened Text
  import opened Calendar
  import opened Shift

  /** `/^\d{2}:\d{2}$/`. */
  predicate IsHHMM(s: string)
  {
    |s| == 5 && IsDigit(s[0]) && IsDigit(s[1]) && s[2] == ':' && IsDigit(s[3]) && IsDigit(s[4])
  }

  /** `createdAt` is truthy and `new Date(createdAt)` is a valid date. */
  predicate HasUsableCreatedAt(c: Case)
  {
    c.createdAt.CreatedMs? && c.createdAt.ms != 0 && ValidTime(c.createdAt.ms)
  }

  /** The decision the filter callback makes for one case. */
  predicate IsToday(c: Case, today: string)
  {
    if c.storyDate != "" then c.storyDate == today
    else if HasUsableCreatedAt(c) then IsoDateOfMs(c.createdAt.ms) == today
    else IsHHMM(c.startTime)
  }

  /** `b` with some elements deleted, the rest in their original order. */
  predicate IsSubsequence<T(==)>(a: seq<T>, b: seq<T>)
    decreases |b|
  {
    a == [] || (b != [] && ((a[0] == b[0] && IsSubsequence(a[1..], b[1..])) || IsSubsequence(a, b[1..])))
  }

  /**
   * One step of a filter: from what it keeps of the tail, keeping or dropping the head gives a
   * subsequence of the whole list, and the copies split as head plus tail.
   */
  lemma FilterStep<T>(s: seq<T>, rest: seq<T>, keep: bool)
    requires s != [] && IsSubsequence(rest, s[1..])
    ensures IsSubsequence(if keep then [s[0]] + rest else rest, s)
    ensures multiset(s) == multiset{s[0]} + multiset(s[1..])
    ensures multiset([s[0]] + rest) == multiset{s[0]} + multiset(rest)
  {
    assert s == [s[0]] + s[1..];
    assert ([s[0]] + rest)[1..] == rest;
  }

  /**
   * `items.filter(...)` against the date string `today`, which the caller supplies
   * (the flows of this model pass the Bangkok date).
   */
  function FilterTodayItems(items: seq<Case>, today: string): (r: seq<Case>)
    ensures |r| <= |items|
    ensures forall c :: c in r ==> c in items && IsToday(c, today)
    ensures forall i :: 0 <= i < |items| && IsToday(items[i], today) ==> items[i] in r
    ensures IsSubsequence(r, items)
    ensures forall c :: multiset(r)[c] == if IsToday(c, today) then multiset(items)[c] else 0
  {
    if items == [] then []
    else
      var rest := FilterTodayItems(items[1..], today);
      assert items == [items[0]] + items[1..];
      assert multiset(items) == multiset{items[0]} + multiset(items[1..]);
      if IsToday(items[0], today) then
        assert ([items[0]] + rest)[1..] == rest;
        assert multiset([items[0]] + rest) == multiset{items[0]} + multiset(rest);
        [items[0]] + rest
      else rest
  }

  /** A non-empty storyDate decides alone: createdAt and startTime are not looked at. */
  lemma StoryDateDecides(c: Case, today: string, createdAt: CreatedAt, startTime: string)
    requires c.storyDate != ""
    ensures IsToday(c.(createdAt := createdAt, startTime := startTime), today) <==> c.storyDate == today
  {
  }

  /** Without a storyDate, a usable createdAt decides by its UTC calendar date; startTime is ignored. */
  lemma CreatedAtDecidesNext(c: Case, today: string, startTime: string)
    requires c.storyDate == "" && HasUsableCreatedAt(c)
    ensures IsToday(c.(startTime := startTime), today) <==> IsoDateOfMs(c.createdAt.ms) == today
  {
  }

  /** A legacy case with only an `HH:MM` start time counts as today, whatever today is. */
  lemma BareStartTimeIsToday(c: Case, today: string)
    requires c.storyDate == "" && !HasUsableCreatedAt(c) && IsHHMM(c.startTime)
    ensures c in FilterTodayItems([c], today)
  {
  }

  /** When every case is today's, the filter returns the list unchanged, order included. */
  lemma {:induction false} FilterKeepsTodaysList(items: seq<Case>, today: string)
    requires forall i :: 0 <= i < |items| ==> IsToday(items[i], today)
    ensures FilterTodayItems(items, today) == items
  {
    if items != [] {
      FilterKeepsTodaysList(items[1..], today);
    }
  }

  /** Filtering twice is filtering once. */
  lemma {:induction false} FilterIdempotent(items: seq<Case>, today: string)
    ensures FilterTodayItems(FilterTodayItems(items, today), today) == FilterTodayItems(items, today)
  {
    var r := FilterTodayItems(items, today);
    forall i | 0 <= i < |r| ensures IsToday(r[i], today) {
      assert r[i] in r;
    }
    FilterKeepsTodaysList(r, today);
  }
}
