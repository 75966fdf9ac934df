/**
 * `NotificationManager`: the daily reminder's text, its badge count, the
 * stored reminder time and the instant the reminder fires.
 * The content functions take the list the store currently holds.
 */
module Notifications {
  import opened FridgeItems
  import opened Defaults
  import opened Expiry
  import opened Seqs
  import opened Text

  const Title: string := "Chill Check"
  const AllFreshBody: string := "All your fridge items are fresh today!"
  /** The body of the last `return`, which no list reaches (see `FallbackBodyUnreachable`). */
  const FallbackBody: string := "Check your fridge for any updates! "

  datatype NotificationContent = NotificationContent(title: string, body: string)

  /** `getItemsExpiringToday()`: the dated items on today's calendar day, in list order. */
  function ItemsExpiringToday(items: seq<FridgeItem>, clock: Clock): (today: seq<FridgeItem>)
    ensures forall x :: x in today <==> x in items && ExpiresOnSameDay(clock, x)
    ensures IsSubsequence(today, items)
    ensures |today| == Count(items, SameDayFilter(clock))
  {
    FilterMembershipAll(items, SameDayFilter(clock));
    FilterIsSubsequence(items, SameDayFilter(clock));
    FilterLength(items, SameDayFilter(clock));
    Filter(items, SameDayFilter(clock))
  }

  /** `getItemsExpiringSoon()`: the dated items with 0 to 3 days left, in list order. */
  function ItemsExpiringSoon(items: seq<FridgeItem>, clock: Clock): (soon: seq<FridgeItem>)
    ensures forall x :: x in soon <==> x in items && ExpiresWithinThreeDays(clock, x)
    ensures IsSubsequence(soon, items)
    ensures |soon| == Count(items, WithinThreeDaysFilter(clock))
  {
    FilterMembershipAll(items, WithinThreeDaysFilter(clock));
    FilterIsSubsequence(items, WithinThreeDaysFilter(clock));
    FilterLength(items, WithinThreeDaysFilter(clock));
    Filter(items, WithinThreeDaysFilter(clock))
  }

  /** Both lists keep each qualifying item as often as it occurs in the input, and nothing else. */
  lemma ExpiringMultiplicity(items: seq<FridgeItem>, clock: Clock, x: FridgeItem)
    ensures multiset(ItemsExpiringToday(items, clock))[x] == if ExpiresOnSameDay(clock, x) then multiset(items)[x] else 0
    ensures multiset(ItemsExpiringSoon(items, clock))[x] == if ExpiresWithinThreeDays(clock, x) then multiset(items)[x] else 0
  {
    FilterMultiset(items, SameDayFilter(clock), x);
    FilterMultiset(items, WithinThreeDaysFilter(clock), x);
  }

  /** `getUrgentItemsCount()`, the badge: dated items with at most two days left, expired ones included. */
  function UrgentItemsCount(items: seq<FridgeItem>, clock: Clock): (n: nat)
    ensures n == Count(items, UrgentFilter(clock))
  {
    FilterLength(items, UrgentFilter(clock));
    |Filter(items, UrgentFilter(clock))|
  }

  /** `map { $0.name }`. */
  function Names(items: seq<FridgeItem>): (names: seq<string>)
    ensures |names| == |items|
    ensures forall i :: 0 <= i < |items| ==> names[i] == items[i].name
  {
    seq(|items|, i requires 0 <= i < |items| => items[i].name)
  }

  function Max(a: int, b: int): int {
    if a < b then b else a
  }

  /** `generateNotificationContent()`. */
  function GenerateNotificationContent(items: seq<FridgeItem>, clock: Clock): (r: NotificationContent)
    ensures r.title == Title
  {
    var expiringToday := ItemsExpiringToday(items, clock);
    var expiringSoon := ItemsExpiringSoon(items, clock);
    if expiringToday == [] && expiringSoon == [] then
      NotificationContent(Title, AllFreshBody)
    else if expiringToday != [] then
      if |expiringToday| == 1 then
        NotificationContent(Title, expiringToday[0].name + " expires today! Consider using it soon.")
      else
        var itemNames := Join(Names(expiringToday[..if |expiringToday| < 3 then |expiringToday| else 3]), ", ");
        var remaining := Max(0, |expiringToday| - 3);
        if remaining > 0 then
          NotificationContent(Title, " " + itemNames + " and " + NatToString(remaining) + " more items expire today!")
        else
          NotificationContent(Title, " " + itemNames + " expire today!")
    else if expiringSoon != [] then
      if |expiringSoon| == 1 then
        NotificationContent(Title, " " + expiringSoon[0].name + " expires soon! Plan to use it.")
      else
        NotificationContent(Title, NatToString(|expiringSoon|) + " items are expiring soon. Check your fridge!")
    else
      NotificationContent(Title, FallbackBody)
  }

  function Body(items: seq<FridgeItem>, clock: Clock): string {
    GenerateNotificationContent(items, clock).body
  }

  /** The "all fresh" body appears exactly when no item is on today's date and none has 0 to 3 days left. */
  lemma AllFreshExactly(items: seq<FridgeItem>, clock: Clock)
    ensures Body(items, clock) == AllFreshBody
            <==> forall i :: 0 <= i < |items| ==>
                   !ExpiresOnSameDay(clock, items[i]) && !ExpiresWithinThreeDays(clock, items[i])
  {
    var today := ItemsExpiringToday(items, clock);
    var soon := ItemsExpiringSoon(items, clock);
    FilterEmpty(items, SameDayFilter(clock));
    FilterEmpty(items, WithinThreeDaysFilter(clock));
    var body := Body(items, clock);
    if today != [] || soon != [] {
      assert AllFreshBody[0] == 'A' && AllFreshBody[|AllFreshBody| - 1] == '!';
      if today != [] && |today| == 1 {
        var tail := " expires today! Consider using it soon.";
        assert body == today[0].name + tail;
        assert body[|body| - 1] == tail[|tail| - 1] == '.';
      } else if today != [] {
        assert body[0] == ' ';
      } else if |soon| == 1 {
        assert body[0] == ' ';
      } else {
        var n := NatToString(|soon|);
        assert body == n + " items are expiring soon. Check your fridge!";
        assert body[0] == n[0] && IsDigit(n[0]);
      }
    }
  }

  /** Items due today take priority: once some item is due today, the soon items do not affect the text. */
  lemma TodayItemsTakePriority(a: seq<FridgeItem>, b: seq<FridgeItem>, clock: Clock)
    requires ItemsExpiringToday(a, clock) == ItemsExpiringToday(b, clock) != []
    ensures GenerateNotificationContent(a, clock) == GenerateNotificationContent(b, clock)
  {
  }

  lemma OneItemExpiringToday(items: seq<FridgeItem>, clock: Clock)
    requires |ItemsExpiringToday(items, clock)| == 1
    ensures Body(items, clock) == ItemsExpiringToday(items, clock)[0].name + " expires today! Consider using it soon."
  {
  }

  /** Two or three items due today: all their names, joined by ", ", after a leading space. */
  lemma SeveralItemsExpiringToday(items: seq<FridgeItem>, clock: Clock)
    requires 2 <= |ItemsExpiringToday(items, clock)| <= 3
    ensures Body(items, clock) == " " + Join(Names(ItemsExpiringToday(items, clock)), ", ") + " expire today!"
  {
    var today := ItemsExpiringToday(items, clock);
    assert today[..|today|] == today;
  }

  /** More than three items due today: the first three names and the number of the others. */
  lemma ManyItemsExpiringToday(items: seq<FridgeItem>, clock: Clock)
    requires |ItemsExpiringToday(items, clock)| > 3
    ensures var today := ItemsExpiringToday(items, clock);
            Body(items, clock) == " " + today[0].name + ", " + today[1].name + ", " + today[2].name
                                  + " and " + NatToString(|today| - 3) + " more items expire today!"
  {
    var today := ItemsExpiringToday(items, clock);
    var names := Names(today[..3]);
    assert names == [today[0].name, today[1].name, today[2].name];
    assert names[1..] == [today[1].name, today[2].name];
    assert names[1..][1..] == [today[2].name];
    assert Join(names[1..], ", ") == today[1].name + ", " + today[2].name;
    assert Join(names, ", ") == today[0].name + ", " + (today[1].name + ", " + today[2].name);
  }

  lemma OneItemExpiringSoon(items: seq<FridgeItem>, clock: Clock)
    requires ItemsExpiringToday(items, clock) == []
    requires |ItemsExpiringSoon(items, clock)| == 1
    ensures Body(items, clock) == " " + ItemsExpiringSoon(items, clock)[0].name + " expires soon! Plan to use it."
  {
  }

  lemma SeveralItemsExpiringSoon(items: seq<FridgeItem>, clock: Clock)
    requires ItemsExpiringToday(items, clock) == []
    requires |ItemsExpiringSoon(items, clock)| >= 2
    ensures Body(items, clock) == NatToString(|ItemsExpiringSoon(items, clock)|) + " items are expiring soon. Check your fridge!"
  {
  }

  /** Every body ends in '.' or '!', so the trailing-space fallback body is never produced. */
  lemma FallbackBodyUnreachable(items: seq<FridgeItem>, clock: Clock)
    ensures var body := Body(items, clock);
            |body| > 0 && (body[|body| - 1] == '.' || body[|body| - 1] == '!')
    ensures Body(items, clock) != FallbackBody
  {
    var today := ItemsExpiringToday(items, clock);
    var soon := ItemsExpiringSoon(items, clock);
    var body := Body(items, clock);
    if today == [] && soon == [] {
      EndsWith(body, "", AllFreshBody);
    } else if today != [] && |today| == 1 {
      EndsWith(body, today[0].name, " expires today! Consider using it soon.");
    } else if today != [] {
      var itemNames := Join(Names(today[..if |today| < 3 then |today| else 3]), ", ");
      if |today| > 3 {
        EndsWith(body, " " + itemNames + " and " + NatToString(|today| - 3), " more items expire today!");
      } else {
        EndsWith(body, " " + itemNames, " expire today!");
      }
    } else if |soon| == 1 {
      EndsWith(body, " " + soon[0].name, " expires soon! Plan to use it.");
    } else {
      EndsWith(body, NatToString(|soon|), " items are expiring soon. Check your fridge!");
    }
    assert FallbackBody[|FallbackBody| - 1] == ' ';
  }

  /** A text built as `head + tail` ends as `tail` does. */
  lemma EndsWith(body: string, head: string, tail: string)
    requires body == head + tail && |tail| > 0
    ensures |body| > 0 && body[|body| - 1] == tail[|tail| - 1]
  {
  }

  /** On a coherent calendar an item due today also has 0 to 3 days left, so "all fresh" means "nothing soon". */
  lemma TodayItemsAreSoonItems(items: seq<FridgeItem>, clock: Clock)
    requires Coherent(clock)
    ensures forall x :: x in ItemsExpiringToday(items, clock) ==> x in ItemsExpiringSoon(items, clock)
    ensures ItemsExpiringSoon(items, clock) == [] ==> ItemsExpiringToday(items, clock) == []
  {
    var today := ItemsExpiringToday(items, clock);
    var soon := ItemsExpiringSoon(items, clock);
    forall x | x in today
      ensures x in soon
    {
      SameDayIsWithinThreeDays(clock, x);
    }
    if today != [] {
      assert today[0] in today;
    }
  }

  /** Undated items never add to the badge. */
  lemma UrgentCountIgnoresUndated(items: seq<FridgeItem>, x: FridgeItem, clock: Clock)
    requires x.expirationDate.None?
    ensures UrgentItemsCount(items + [x], clock) == UrgentItemsCount(items, clock)
  {
    CountSnoc(items, x, UrgentFilter(clock));
  }

  /** A dated item adds one to the badge exactly when it has at most two days left, expired included. */
  lemma UrgentCountOfDatedItem(items: seq<FridgeItem>, x: FridgeItem, clock: Clock)
    requires x.expirationDate.Some?
    ensures UrgentItemsCount(items + [x], clock)
            == UrgentItemsCount(items, clock) + (if DaysLeft(clock, x) <= 2 then 1 else 0)
  {
    CountSnoc(items, x, UrgentFilter(clock));
  }

  /** Milk expiring today, alone in the fridge. */
  lemma MilkExpiresToday(milk: FridgeItem, clock: Clock)
    requires milk.name == "Milk"
    requires ExpiresOnSameDay(clock, milk)
    ensures GenerateNotificationContent([milk], clock)
            == NotificationContent("Chill Check", "Milk expires today! Consider using it soon.")
  {
    assert [milk] == [] + [milk];
    FilterSnoc([], milk, SameDayFilter(clock));
    assert ItemsExpiringToday([milk], clock) == [milk];
    OneItemExpiringToday([milk], clock);
    MilkText(milk.name);
  }

  lemma MilkText(name: string)
    requires name == "Milk"
    ensures name + " expires today! Consider using it soon." == "Milk expires today! Consider using it soon."
  {
  }

  /** Milk and eggs expire today, cheese four days out: the text names the two and ignores the cheese. */
  lemma MilkAndEggsButNotCheese(milk: FridgeItem, eggs: FridgeItem, cheese: FridgeItem, clock: Clock)
    requires milk.name == "Milk" && eggs.name == "Eggs"
    requires ExpiresOnSameDay(clock, milk) && ExpiresOnSameDay(clock, eggs)
    requires cheese.expirationDate.Some? && !ExpiresOnSameDay(clock, cheese) && DaysLeft(clock, cheese) == 4
    ensures Body([milk, eggs, cheese], clock) == " Milk, Eggs expire today!"
  {
    var p := SameDayFilter(clock);
    assert [milk] == [] + [milk];
    assert [milk, eggs] == [milk] + [eggs];
    assert [milk, eggs, cheese] == [milk, eggs] + [cheese];
    FilterSnoc([], milk, p);
    FilterSnoc([milk], eggs, p);
    FilterSnoc([milk, eggs], cheese, p);
    var today := ItemsExpiringToday([milk, eggs, cheese], clock);
    assert today == [milk, eggs];
    SeveralItemsExpiringToday([milk, eggs, cheese], clock);
    var names := Names(today);
    assert names == [milk.name, eggs.name];
    assert names[1..] == [eggs.name];
    assert Join(names, ", ") == milk.name + ", " + eggs.name;
    MilkAndEggsText(milk.name, eggs.name);
  }

  lemma MilkAndEggsText(a: string, b: string)
    requires a == "Milk" && b == "Eggs"
    ensures " " + (a + ", " + b) + " expire today!" == " Milk, Eggs expire today!"
  {
  }

  // ----- Stored reminder time -----

  const NotificationsEnabledKey: string := "notificationsEnabled"
  const NotificationHourKey: string := "notificationHour"
  const NotificationMinuteKey: string := "notificationMinute"

  predicate IsValidTime(hour: int, minute: int) {
    0 <= hour <= 23 && 0 <= minute <= 59
  }

  /** What `init` leaves in the store: 8:00 when no hour was ever stored, and the store untouched otherwise. */
  function WithDefaultTime(entries: map<string, Value>): (r: map<string, Value>)
    ensures NotificationHourKey in entries ==> r == entries
    ensures NotificationHourKey !in entries ==>
              NotificationHourKey in r && r[NotificationHourKey] == IntValue(8) && NotificationMinuteKey in r && r[NotificationMinuteKey] == IntValue(0)
    ensures NotificationHourKey !in entries ==>
              IntegerFor(r, NotificationHourKey) == 8 && IntegerFor(r, NotificationMinuteKey) == 0
    ensures NotificationHourKey in r
    ensures forall k :: k != NotificationHourKey && k != NotificationMinuteKey ==>
              (k in r <==> k in entries) && (k in r ==> r[k] == entries[k])
  {
    if NotificationHourKey in entries then entries
    else entries[NotificationHourKey := IntValue(8)][NotificationMinuteKey := IntValue(0)]
  }

  /** Running the default-time logic again changes nothing. */
  lemma DefaultTimeIdempotent(entries: map<string, Value>)
    ensures WithDefaultTime(WithDefaultTime(entries)) == WithDefaultTime(entries)
  {
  }

  /** The shared notification manager; scheduling with the OS is not part of this model. */
  class NotificationManager {
    const defaults: UserDefaults

    constructor (defaults: UserDefaults)
      modifies defaults
      ensures this.defaults == defaults
      ensures defaults.entries == WithDefaultTime(old(defaults.entries))
    {
      this.defaults := defaults;
      new;
      defaults.entries := WithDefaultTime(defaults.entries);
    }

    /** The `isNotificationEnabled` getter: off until a flag has been stored. */
    function IsNotificationEnabled(): (enabled: bool)
      reads this, defaults
      ensures NotificationsEnabledKey !in defaults.entries ==> !enabled
      ensures NotificationsEnabledKey in defaults.entries && defaults.entries[NotificationsEnabledKey].BoolValue? ==>
                enabled == defaults.entries[NotificationsEnabledKey].flag
    {
      BoolFor(defaults.entries, NotificationsEnabledKey)
    }

    /** The `notificationHour` getter: 0 until an hour has been stored. */
    function NotificationHour(): (hour: int)
      reads this, defaults
      ensures NotificationHourKey !in defaults.entries ==> hour == 0
      ensures NotificationHourKey in defaults.entries && defaults.entries[NotificationHourKey].IntValue? ==>
                hour == defaults.entries[NotificationHourKey].number
    {
      IntegerFor(defaults.entries, NotificationHourKey)
    }

    /** The `notificationMinute` getter: 0 until a minute has been stored. */
    function NotificationMinute(): (minute: int)
      reads this, defaults
      ensures NotificationMinuteKey !in defaults.entries ==> minute == 0
      ensures NotificationMinuteKey in defaults.entries && defaults.entries[NotificationMinuteKey].IntValue? ==>
                minute == defaults.entries[NotificationMinuteKey].number
    {
      IntegerFor(defaults.entries, NotificationMinuteKey)
    }

    /** The `isNotificationEnabled` setter's write (scheduling or cancelling is not modelled). */
    method SetNotificationEnabled(enabled: bool)
      modifies defaults
      ensures defaults.entries == old(defaults.entries)[NotificationsEnabledKey := BoolValue(enabled)]
      ensures IsNotificationEnabled() == enabled
    {
      defaults.entries := defaults.entries[NotificationsEnabledKey := BoolValue(enabled)];
    }

    /** The `notificationHour` setter's write: no range check here. */
    method SetNotificationHour(hour: int)
      modifies defaults
      ensures defaults.entries == old(defaults.entries)[NotificationHourKey := IntValue(hour)]
    {
      defaults.entries := defaults.entries[NotificationHourKey := IntValue(hour)];
    }

    /** The `notificationMinute` setter's write: no range check here. */
    method SetNotificationMinute(minute: int)
      modifies defaults
      ensures defaults.entries == old(defaults.entries)[NotificationMinuteKey := IntValue(minute)]
    {
      defaults.entries := defaults.entries[NotificationMinuteKey := IntValue(minute)];
    }

    /** `setNotificationTime(hour:minute:)`: an in-range time is stored; anything else changes nothing. */
    method SetNotificationTime(hour: int, minute: int)
      modifies defaults
      ensures IsValidTime(hour, minute) ==>
                defaults.entries == old(defaults.entries)[NotificationHourKey := IntValue(hour)]
                                                         [NotificationMinuteKey := IntValue(minute)]
      ensures IsValidTime(hour, minute) ==> NotificationHour() == hour && NotificationMinute() == minute
      ensures !IsValidTime(hour, minute) ==> defaults.entries == old(defaults.entries)
    {
      if !(hour >= 0 && hour <= 23 && minute >= 0 && minute <= 59) {
        return;
      }
      SetNotificationHour(hour);
      SetNotificationMinute(minute);
    }
  }

  // ----- When the reminder fires -----

  const SecondsPerDay: int := 86400

  /** Today at `hour:minute:00`, for a local wall-clock instant `now` in seconds. */
  function TodayAt(now: int, hour: int, minute: int): int {
    now - now % SecondsPerDay + hour * 3600 + minute * 60
  }

  /**
   * The fire date of `scheduleNotifications()`: today at the stored time, or
   * one day later when that is not after `now`.
   */
  method ScheduledFireDate(now: int, hour: int, minute: int) returns (scheduledDate: int)
    ensures TodayAt(now, hour, minute) > now ==> scheduledDate == TodayAt(now, hour, minute)
    ensures TodayAt(now, hour, minute) <= now ==> scheduledDate == TodayAt(now, hour, minute) + SecondsPerDay
    ensures hour >= 0 && minute >= 0 ==> scheduledDate > now
    ensures IsValidTime(hour, minute) ==>
              now < scheduledDate <= now + SecondsPerDay &&
              scheduledDate % SecondsPerDay == hour * 3600 + minute * 60
  {
    scheduledDate := now - now % SecondsPerDay + hour * 3600 + minute * 60;
    if scheduledDate <= now {
      scheduledDate := scheduledDate + SecondsPerDay;
    }
  }
}
