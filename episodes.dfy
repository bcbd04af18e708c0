/**
 * Airing-schedule entries as the AniList query returns them, the title rule
 * every message applies, wall-clock time of day, and the seven-day window of
 * the weekly digest. Times are epoch seconds; the bot's local time zone is a
 * fixed offset `utcOffset` (seconds east of UTC).
 */
module Episodes {
  import opened Wrappers

  const SECONDS_PER_DAY := 86400
  const SECONDS_PER_WEEK := 7 * SECONDS_PER_DAY

  /**
   * One element of `airingSchedules`: `episode`, `airingAt` and the media's
   * `title.romaji` / `title.english`, either of which may be `null`.
   */
  datatype Entry = Entry(episode: int, airingAt: int, romaji: Option<string>, english: Option<string>)

  /** Python truthiness of an optional string: `None` and `""` are falsy. */
  predicate Truthy(t: Option<string>) {
    t.Some? && t.value != ""
  }

  /** `romaji or english`: the first operand when it is truthy, else the second as it is. */
  function DisplayTitle(e: Entry): (t: Option<string>)
    ensures Truthy(e.romaji) ==> t == e.romaji
    ensures !Truthy(e.romaji) ==> t == e.english
    ensures Truthy(t) <==> Truthy(e.romaji) || Truthy(e.english)
  {
    if Truthy(e.romaji) then e.romaji else e.english
  }

  /** How an f-string renders an optional string: `None` becomes the text "None". */
  function TitleText(t: Option<string>): (s: string)
    ensures t.Some? ==> s == t.value
    ensures t.None? ==> s == "None"
    ensures s == "" <==> t == Some("")
  {
    match t
    case None => "None"
    case Some(s) => s
  }

  /** Hour and minute of the local wall clock, as `strftime("%H:%M")` shows them. */
  datatype Clock = Clock(hour: nat, minute: nat)

  /** Time of day of the instant `t` on the local clock. */
  function ClockOf(t: int, utcOffset: int): (c: Clock)
    ensures c.hour < 24 && c.minute < 60
    ensures var s := (t + utcOffset) % SECONDS_PER_DAY;
      c.hour * 3600 + c.minute * 60 <= s < c.hour * 3600 + c.minute * 60 + 60
  {
    var s := (t + utcOffset) % SECONDS_PER_DAY;
    Clock(s / 3600, s % 3600 / 60)
  }

  lemma DayLater(x: int)
    ensures (x + SECONDS_PER_DAY) % SECONDS_PER_DAY == x % SECONDS_PER_DAY
  {
  }

  /** Shifting an instant by whole days leaves its time of day unchanged. */
  lemma {:induction false} ClockIgnoresWholeDays(t: int, utcOffset: int, days: int)
    ensures ClockOf(t + days * SECONDS_PER_DAY, utcOffset) == ClockOf(t, utcOffset)
    decreases if days < 0 then -days else days
  {
    if days > 0 {
      ClockIgnoresWholeDays(t, utcOffset, days - 1);
      var x := t + (days - 1) * SECONDS_PER_DAY + utcOffset;
      assert t + days * SECONDS_PER_DAY + utcOffset == x + SECONDS_PER_DAY;
      DayLater(x);
    } else if days < 0 {
      ClockIgnoresWholeDays(t, utcOffset, days + 1);
      var x := t + days * SECONDS_PER_DAY + utcOffset;
      assert t + (days + 1) * SECONDS_PER_DAY + utcOffset == x + SECONDS_PER_DAY;
      DayLater(x);
    }
  }

  /** The instant a reminder is meant for: 24 hours before the episode airs. */
  function AlertTime(e: Entry): (t: int)
    ensures t + SECONDS_PER_DAY == e.airingAt
  {
    e.airingAt - SECONDS_PER_DAY
  }

  /** `now <= airing <= now + 7 days`, both ends inclusive. */
  predicate InWeek(e: Entry, now: int) {
    now <= e.airingAt <= now + SECONDS_PER_WEEK
  }

  /** The list comprehension that keeps the entries airing within the coming week. */
  function ThisWeek(entries: seq<Entry>, now: int): (week: seq<Entry>)
    ensures |week| <= |entries|
    ensures forall i :: 0 <= i < |week| ==> InWeek(week[i], now)
  {
    if entries == [] then []
    else if InWeek(entries[0], now) then [entries[0]] + ThisWeek(entries[1..], now)
    else ThisWeek(entries[1..], now)
  }

  /** An entry is kept exactly when it is one of the input entries and airs within the week. */
  lemma {:induction false} ThisWeekMembership(entries: seq<Entry>, now: int, e: Entry)
    ensures e in ThisWeek(entries, now) <==> e in entries && InWeek(e, now)
  {
    if entries != [] {
      ThisWeekMembership(entries[1..], now, e);
      assert entries == [entries[0]] + entries[1..];
    }
  }

  /** Filtering commutes with concatenation, so the kept entries stay in input order. */
  lemma {:induction false} ThisWeekConcat(a: seq<Entry>, b: seq<Entry>, now: int)
    ensures ThisWeek(a + b, now) == ThisWeek(a, now) + ThisWeek(b, now)
  {
    if a != [] {
      assert (a + b)[1..] == a[1..] + b;
      ThisWeekConcat(a[1..], b, now);
    } else {
      assert a + b == b;
    }
  }

  /** Each kept entry occurs as often as in the input; nothing is duplicated or lost. */
  lemma {:induction false} ThisWeekMultiplicity(entries: seq<Entry>, now: int, e: Entry)
    ensures multiset(ThisWeek(entries, now))[e] == if InWeek(e, now) then multiset(entries)[e] else 0
  {
    if entries != [] {
      ThisWeekMultiplicity(entries[1..], now, e);
      assert entries == [entries[0]] + entries[1..];
    }
  }

  /** Both ends of the window are inclusive; one second beyond either end is excluded. */
  lemma WeekBoundaries(now: int, first: Entry, last: Entry, early: Entry, late: Entry)
    requires first.airingAt == now && last.airingAt == now + SECONDS_PER_WEEK
    requires early.airingAt == now - 1 && late.airingAt == now + SECONDS_PER_WEEK + 1
    ensures ThisWeek([early, first, last, late], now) == [first, last]
  {
    assert ThisWeek([late], now) == [] by {
      assert [late][1..] == [];
    }
    assert ThisWeek([last, late], now) == [last] by {
      assert [last, late][1..] == [late];
    }
    assert ThisWeek([first, last, late], now) == [first, last] by {
      assert [first, last, late][1..] == [last, late];
    }
    assert [early, first, last, late][1..] == [first, last, late];
  }
}
