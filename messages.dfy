/**
 * The texts the bot posts: the per-episode reminder, the listing lines shared by
 * the weekly digest and the `upcoming` command, and the two builders that
 * accumulate a listing line by line. `stamp` is the local-time rendering
 * `strftime('%d/%m/%Y at %H:%M')` of an epoch instant, supplied by the caller.
 */
module Messages {
  import opened Wrappers
  import opened Text
  import opened Episodes

  // The longer texts are written in two literals so that the verifier sees their characters.
  const NO_EPISODES_THIS_WEEK := "No anime episodes " + "are scheduled to air this week."
  const WEEKLY_HEADER := "Here are the anime " + "episodes airing this week:\n"
  const FETCH_FAILED_REPLY := "Sorry, I couldn't fetch " + "the upcoming anime schedule."
  const NO_UPCOMING_REPLY := "No upcoming animes."
  const UPCOMING_HEADER := "Here are the upcoming anime:\n"

  /** The bold title, as every message shows it. */
  function BoldTitle(e: Entry): string {
    "**" + TitleText(DisplayTitle(e)) + "**"
  }

  /** The episode tag, as every message shows it. */
  function EpisodeTag(e: Entry): string {
    "(Episode " + IntText(e.episode) + ")"
  }

  /** The reminder planned 24 hours before an episode airs. */
  function ReminderMessage(e: Entry, stamp: int -> string): string {
    "Reminder: " + BoldTitle(e) + " " + EpisodeTag(e) + " will air at " + stamp(e.airingAt) + "!"
  }

  /** The reminder of every entry, for a given date rendering. */
  function ReminderFormat(stamp: int -> string): Entry -> string {
    e => ReminderMessage(e, stamp)
  }

  /** One bullet of a listing, ending in a newline. */
  function ListingLine(e: Entry, stamp: int -> string): string {
    "- " + BoldTitle(e) + " " + EpisodeTag(e) + " airing at " + stamp(e.airingAt) + "\n"
  }

  /** The listing line of every entry, for a given date rendering. */
  function LineFormat(stamp: int -> string): Entry -> string {
    e => ListingLine(e, stamp)
  }

  /**
   * The text a `+=` loop accumulates: `line(e)` for every entry `e`, in order.
   * The loops in main.py use `LineFormat(stamp)` as `line`.
   */
  function Listing(entries: seq<Entry>, line: Entry -> string): string {
    if entries == [] then ""
    else Listing(entries[..|entries| - 1], line) + line(entries[|entries| - 1])
  }

  /** The digest sent on Sundays: a sentinel, or a header and one line per entry of the week. */
  function WeeklyReport(entries: seq<Entry>, now: int, stamp: int -> string): (report: string)
    ensures report == NO_EPISODES_THIS_WEEK <==> ThisWeek(entries, now) == []
    ensures ThisWeek(entries, now) != [] ==>
      report == WEEKLY_HEADER + Listing(ThisWeek(entries, now), LineFormat(stamp))
  {
    var week := ThisWeek(entries, now);
    if week == [] then NO_EPISODES_THIS_WEEK
    else
      assert (WEEKLY_HEADER + Listing(week, LineFormat(stamp)))[0] == 'H';
      assert NO_EPISODES_THIS_WEEK[0] == 'N';
      WEEKLY_HEADER + Listing(week, LineFormat(stamp))
  }

  /** The reply to the `upcoming` command, one of three distinct kinds. */
  function UpcomingReply(fetched: Option<seq<Entry>>, stamp: int -> string): (reply: string)
    ensures reply == FETCH_FAILED_REPLY <==> fetched.None?
    ensures reply == NO_UPCOMING_REPLY <==> fetched == Some([])
    ensures fetched.Some? && fetched.value != [] ==>
      reply == UPCOMING_HEADER + Listing(fetched.value, LineFormat(stamp))
  {
    match fetched
    case None => FETCH_FAILED_REPLY
    case Some(entries) =>
      if entries == [] then NO_UPCOMING_REPLY
      else
        var listing := UPCOMING_HEADER + Listing(entries, LineFormat(stamp));
        assert listing[0] == 'H';
        assert FETCH_FAILED_REPLY[0] == 'S' && NO_UPCOMING_REPLY[0] == 'N';
        listing
  }

  /** The listing of two runs of entries is the listing of the first followed by that of the second. */
  lemma {:induction false} ListingConcat(a: seq<Entry>, b: seq<Entry>, line: Entry -> string)
    ensures Listing(a + b, line) == Listing(a, line) + Listing(b, line)
    decreases |b|
  {
    if b == [] {
      assert a + b == a;
    } else {
      var b' := b[..|b| - 1];
      assert (a + b)[..|a + b| - 1] == a + b';
      assert (a + b)[|a + b| - 1] == b[|b| - 1];
      ListingConcat(a, b', line);
    }
  }

  /** A listing holds the line of every entry, between the lines of those before and after it. */
  lemma {:induction false} ListingAt(entries: seq<Entry>, i: nat, line: Entry -> string)
    requires i < |entries|
    ensures Listing(entries, line)
      == Listing(entries[..i], line) + line(entries[i]) + Listing(entries[i + 1..], line)
  {
    var front := entries[..i + 1];
    assert front[..|front| - 1] == entries[..i];
    assert front + entries[i + 1..] == entries;
    ListingConcat(front, entries[i + 1..], line);
  }

  /** A reminder names the display title and the episode number. */
  lemma ReminderNamesEpisode(e: Entry, stamp: int -> string)
    ensures Mentions(ReminderMessage(e, stamp), BoldTitle(e))
    ensures Mentions(ReminderMessage(e, stamp), EpisodeTag(e))
  {
    var tail := " will air at " + stamp(e.airingAt) + "!";
    assert ReminderMessage(e, stamp) == "Reminder: " + BoldTitle(e) + (" " + EpisodeTag(e) + tail);
    MentionsInside("Reminder: ", BoldTitle(e), " " + EpisodeTag(e) + tail);
    assert ReminderMessage(e, stamp) == ("Reminder: " + BoldTitle(e) + " ") + EpisodeTag(e) + tail;
    MentionsInside("Reminder: " + BoldTitle(e) + " ", EpisodeTag(e), tail);
  }

  /** A listing line names the display title and the episode number. */
  lemma ListingLineNamesEpisode(e: Entry, stamp: int -> string)
    ensures Mentions(ListingLine(e, stamp), BoldTitle(e))
    ensures Mentions(ListingLine(e, stamp), EpisodeTag(e))
  {
    var tail := " airing at " + stamp(e.airingAt) + "\n";
    assert ListingLine(e, stamp) == "- " + BoldTitle(e) + (" " + EpisodeTag(e) + tail);
    MentionsInside("- ", BoldTitle(e), " " + EpisodeTag(e) + tail);
    assert ListingLine(e, stamp) == ("- " + BoldTitle(e) + " ") + EpisodeTag(e) + tail;
    MentionsInside("- " + BoldTitle(e) + " ", EpisodeTag(e), tail);
  }

  /** The title shown is the romaji title when it is non-empty, else the English one. */
  lemma ShownTitle(e: Entry)
    ensures Truthy(e.romaji) ==> BoldTitle(e) == "**" + e.romaji.value + "**"
    ensures !Truthy(e.romaji) && e.english.Some? ==> BoldTitle(e) == "**" + e.english.value + "**"
    ensures !Truthy(e.romaji) && e.english.None? ==> BoldTitle(e) == "**None**"
  {
  }

  /** Two entries with different episode numbers never share an episode tag. */
  lemma EpisodeTagsDiffer(e: Entry, f: Entry)
    requires e.episode != f.episode
    ensures EpisodeTag(e) != EpisodeTag(f)
  {
    if EpisodeTag(e) == EpisodeTag(f) {
      var n := |"(Episode "|;
      assert IntText(e.episode) == EpisodeTag(e)[n..|EpisodeTag(e)| - 1];
      assert IntText(f.episode) == EpisodeTag(f)[n..|EpisodeTag(f)| - 1];
      IntTextInjective(e.episode, f.episode);
    }
  }

  /** A listing shows the line of each of its entries. */
  lemma {:induction false} ListingShowsEntry(header: string, entries: seq<Entry>, line: Entry -> string, k: nat)
    requires k < |entries|
    ensures Mentions(header + Listing(entries, line), line(entries[k]))
  {
    ListingAt(entries, k, line);
    assert header + Listing(entries, line)
      == (header + Listing(entries[..k], line)) + line(entries[k]) + Listing(entries[k + 1..], line);
    MentionsInside(header + Listing(entries[..k], line), line(entries[k]), Listing(entries[k + 1..], line));
  }

  /** The digest lists every fetched episode that airs within the week. */
  lemma {:induction false} WeeklyReportListsWeek(entries: seq<Entry>, now: int, stamp: int -> string, e: Entry)
    requires e in entries && InWeek(e, now)
    ensures Mentions(WeeklyReport(entries, now, stamp), ListingLine(e, stamp))
  {
    var week := ThisWeek(entries, now);
    ThisWeekMembership(entries, now, e);
    var k :| 0 <= k < |week| && week[k] == e;
    ListingShowsEntry(WEEKLY_HEADER, week, LineFormat(stamp), k);
  }

  /** A successful, non-empty `upcoming` reply lists every fetched episode. */
  lemma {:induction false} UpcomingListsAll(entries: seq<Entry>, stamp: int -> string, k: nat)
    requires k < |entries|
    ensures Mentions(UpcomingReply(Some(entries), stamp), ListingLine(entries[k], stamp))
  {
    ListingShowsEntry(UPCOMING_HEADER, entries, LineFormat(stamp), k);
  }

  /** Appends `line(e)` for each entry `e` to `header`, as the `+=` loops do. */
  method AppendLines(header: string, entries: seq<Entry>, line: Entry -> string) returns (text: string)
    ensures text == header + Listing(entries, line)
  {
    text := header;
    for i := 0 to |entries|
      invariant text == header + Listing(entries[..i], line)
    {
      assert entries[..i + 1][..i] == entries[..i];
      text := text + line(entries[i]);
    }
    assert entries[..|entries|] == entries;
  }

  /** Builds the weekly digest from the fetched entries (main.py's `send_weekly_report`). */
  method BuildWeeklyReport(entries: seq<Entry>, now: int, stamp: int -> string) returns (report: string)
    ensures report == WeeklyReport(entries, now, stamp)
  {
    var week := ThisWeek(entries, now);
    if week == [] {
      report := NO_EPISODES_THIS_WEEK;
    } else {
      report := AppendLines(WEEKLY_HEADER, week, LineFormat(stamp));
    }
  }

  /** The `upcoming` command: its reply for a fetch result. */
  method Upcoming(fetched: Option<seq<Entry>>, stamp: int -> string) returns (reply: string)
    ensures reply == UpcomingReply(fetched, stamp)
  {
    if fetched.None? {
      return FETCH_FAILED_REPLY;
    }
    if fetched.value == [] {
      return NO_UPCOMING_REPLY;
    }
    reply := AppendLines(UPCOMING_HEADER, fetched.value, LineFormat(stamp));
  }
}
