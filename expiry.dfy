/**
 * How the screens read an item's expiration date relative to "now" (`Date()`),
 * and the sort order of the Use Today lists.
 */
module Expiry {
  import opened Wrappers
  import opened FridgeItems

  /**
   * `Calendar.current` seen from the current instant. `daysUntil(d)` is
   * `dateComponents([.day], from: now, to: d).day`: whole 24-hour periods,
   * negative for the past. `isSameDayAsToday(d)` is `isDate(d, inSameDayAs: now)`.
   * The two are not derived from each other.
   */
  datatype Clock = Clock(daysUntil: Date -> int, isSameDayAsToday: Date -> bool)

  /** A date on today's calendar day is less than one whole day away. */
  ghost predicate Coherent(clock: Clock) {
    forall d :: clock.isSameDayAsToday(d) ==> clock.daysUntil(d) == 0
  }

  /** Days until the item's expiration; only meaningful for a dated item. */
  function DaysLeft(clock: Clock, item: FridgeItem): int
    requires item.expirationDate.Some?
  {
    clock.daysUntil(item.expirationDate.value)
  }

  predicate HasExpired(clock: Clock, item: FridgeItem) {
    item.expirationDate.Some? && DaysLeft(clock, item) < 0
  }

  predicate ExpiresToday(clock: Clock, item: FridgeItem) {
    item.expirationDate.Some? && DaysLeft(clock, item) == 0
  }

  predicate ExpiresInOneOrTwoDays(clock: Clock, item: FridgeItem) {
    item.expirationDate.Some? && 1 <= DaysLeft(clock, item) <= 2
  }

  /** What the menu and the badge count: dated and at most two days left, expired items included. */
  predicate IsUrgent(clock: Clock, item: FridgeItem) {
    item.expirationDate.Some? && DaysLeft(clock, item) <= 2
  }

  predicate ExpiresOnSameDay(clock: Clock, item: FridgeItem) {
    item.expirationDate.Some? && clock.isSameDayAsToday(item.expirationDate.value)
  }

  predicate ExpiresWithinThreeDays(clock: Clock, item: FridgeItem) {
    item.expirationDate.Some? && 0 <= DaysLeft(clock, item) <= 3
  }

  /** On a coherent calendar, an item on today's date has 0 days left and so lies in the 0-3 day window. */
  lemma SameDayIsWithinThreeDays(clock: Clock, item: FridgeItem)
    requires Coherent(clock)
    requires ExpiresOnSameDay(clock, item)
    ensures ExpiresToday(clock, item) && ExpiresWithinThreeDays(clock, item)
  {
    var d := item.expirationDate.value;
    assert clock.isSameDayAsToday(d);
    assert clock.daysUntil(d) == 0;
  }

  // The same tests as closures, to hand to `Seqs.Filter` and `Seqs.Count`.
  function ExpiredFilter(clock: Clock): FridgeItem -> bool { item => HasExpired(clock, item) }
  function TodayFilter(clock: Clock): FridgeItem -> bool { item => ExpiresToday(clock, item) }
  function SoonFilter(clock: Clock): FridgeItem -> bool { item => ExpiresInOneOrTwoDays(clock, item) }
  function UrgentFilter(clock: Clock): FridgeItem -> bool { item => IsUrgent(clock, item) }
  function SameDayFilter(clock: Clock): FridgeItem -> bool { item => ExpiresOnSameDay(clock, item) }
  function WithinThreeDaysFilter(clock: Clock): FridgeItem -> bool { item => ExpiresWithinThreeDays(clock, item) }

  /** `Date.distantFuture` (January 1, 4001) in seconds since the reference date. */
  const DistantFuture: Date := 63113904000

  /** The sort key: `item.expirationDate ?? Date.distantFuture`. */
  function SortKey(item: FridgeItem): Date {
    item.expirationDate.GetOr(DistantFuture)
  }

  predicate SortedByExpiration(s: seq<FridgeItem>) {
    forall i, j :: 0 <= i < j < |s| ==> SortKey(s[i]) <= SortKey(s[j])
  }

  function InsertByExpiration(x: FridgeItem, s: seq<FridgeItem>): (r: seq<FridgeItem>)
    requires SortedByExpiration(s)
    ensures SortedByExpiration(r)
    ensures multiset(r) == multiset(s) + multiset{x}
  {
    if s == [] then [x]
    else if SortKey(x) <= SortKey(s[0]) then [x] + s
    else
      var t := InsertByExpiration(x, s[1..]);
      assert s == [s[0]] + s[1..];
      assert forall k :: 0 <= k < |t| ==> SortKey(s[0]) <= SortKey(t[k]) by {
        forall k | 0 <= k < |t|
          ensures SortKey(s[0]) <= SortKey(t[k])
        {
          assert t[k] in multiset(t);
          if t[k] != x {
            assert t[k] in multiset(s[1..]);
            var m :| 0 <= m < |s[1..]| && s[1..][m] == t[k];
            assert s[1 + m] == t[k];
          }
        }
      }
      [s[0]] + t
  }

  /**
   * `sort { ($0.expirationDate ?? .distantFuture) < ($1.expirationDate ?? .distantFuture) }`.
   * Swift's sort is not stable, so only sortedness and permutation are promised.
   */
  function SortByExpiration(s: seq<FridgeItem>): (r: seq<FridgeItem>)
    ensures SortedByExpiration(r)
    ensures multiset(r) == multiset(s)
  {
    if s == [] then []
    else
      assert s == [s[0]] + s[1..];
      InsertByExpiration(s[0], SortByExpiration(s[1..]))
  }
}
