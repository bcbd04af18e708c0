/**
 * The bot's process state: the guild-to-channel registry `announcement_channels`,
 * the jobs registered with the `schedule` library, and the messages posted to
 * channels. Discord's channel cache is the set `resolvable` of channel ids that
 * `bot.get_channel` can resolve at the moment of a send.
 */
module Bot {
  import opened Wrappers
  import opened Episodes
  import opened Messages

  /**
   * A job registered with `schedule.every().day.at(HH:MM)`: it recurs every day
   * when the local clock shows `at`, and each time posts `message` to `guild`.
   */
  datatype Job = Job(at: Clock, guild: int, message: string)

  /** A message posted to a channel with `channel.send`. */
  datatype Post = Post(channel: int, text: string)

  /**
   * What `send_alert` does for one guild: a successful send, no (or a falsy)
   * channel id, an unresolvable channel, or a send that raises (for example a
   * channel the bot may not write to).
   */
  datatype Delivery = Delivered(channel: int) | NoChannelSet | ChannelNotFound | SendRaised(channel: int)

  /**
   * `send_alert`'s outcome. `resolvable` is what `bot.get_channel` can resolve;
   * `raising` holds the channels whose `channel.send` raises at that moment.
   */
  function Route(channels: map<int, int>, guild: int, resolvable: set<int>, raising: set<int>): (d: Delivery)
    ensures d == NoChannelSet <==> guild !in channels || channels[guild] == 0
    ensures d == ChannelNotFound <==> guild in channels && channels[guild] != 0 && channels[guild] !in resolvable
    ensures d.SendRaised? <==> guild in channels && channels[guild] != 0 && channels[guild] in resolvable * raising
    ensures d.Delivered? || d.SendRaised? ==> guild in channels && d.channel == channels[guild]
  {
    if guild !in channels || channels[guild] == 0 then NoChannelSet
    else if channels[guild] !in resolvable then ChannelNotFound
    else if channels[guild] in raising then SendRaised(channels[guild])
    else Delivered(channels[guild])
  }

  /** The posts one `send_alert` call makes: one when the send succeeds, none otherwise. */
  function PostsFor(channels: map<int, int>, guild: int, resolvable: set<int>, raising: set<int>, text: string): (posts: seq<Post>)
    ensures |posts| <= 1
    ensures posts != [] <==> Route(channels, guild, resolvable, raising).Delivered?
    ensures posts != [] ==> posts == [Post(channels[guild], text)]
  {
    match Route(channels, guild, resolvable, raising)
    case Delivered(c) => [Post(c, text)]
    case _ => []
  }

  /** No guild of `guilds` has a send that raises. */
  predicate NoneRaise(channels: map<int, int>, guilds: seq<int>, resolvable: set<int>, raising: set<int>) {
    forall i :: 0 <= i < |guilds| ==> !Route(channels, guilds[i], resolvable, raising).SendRaised?
  }

  /**
   * The posts of `send_alert(g, text)` for the guilds `g` of `guilds`, in order.
   * A send that raises ends the loop: the exception leaves the caller, and the
   * guilds after it get nothing.
   */
  function Broadcast(channels: map<int, int>, guilds: seq<int>, resolvable: set<int>, raising: set<int>, text: string): seq<Post> {
    if guilds == [] then []
    else if Route(channels, guilds[0], resolvable, raising).SendRaised? then []
    else PostsFor(channels, guilds[0], resolvable, raising, text) + Broadcast(channels, guilds[1..], resolvable, raising, text)
  }

  /** Time of day of the reminder for `e`: that of 24 hours before it airs, which is the airing's own. */
  function ReminderClock(e: Entry, utcOffset: int): (c: Clock)
    ensures c == ClockOf(e.airingAt, utcOffset)
  {
    ClockIgnoresWholeDays(e.airingAt, utcOffset, -1);
    ClockOf(AlertTime(e), utcOffset)
  }

  /** One job per guild of `guilds`, in order, all at `at` and with the same message. */
  function JobsFor(at: Clock, message: string, guilds: seq<int>): (jobs: seq<Job>)
    ensures |jobs| == |guilds|
    ensures forall j :: 0 <= j < |guilds| ==> jobs[j] == Job(at, guilds[j], message)
  {
    seq(|guilds|, j requires 0 <= j < |guilds| => Job(at, guilds[j], message))
  }

  /** The jobs `schedule_alerts` registers for `entries` and the guilds known at planning time. */
  function Plan(entries: seq<Entry>, guilds: seq<int>, utcOffset: int, reminder: Entry -> string): seq<Job> {
    if entries == [] then []
    else
      var e := entries[|entries| - 1];
      Plan(entries[..|entries| - 1], guilds, utcOffset, reminder)
        + JobsFor(ReminderClock(e, utcOffset), reminder(e), guilds)
  }

  /** A failed fetch plans nothing; otherwise the plan for the fetched entries. */
  function PlanAlerts(fetched: Option<seq<Entry>>, guilds: seq<int>, utcOffset: int, stamp: int -> string): (jobs: seq<Job>)
    ensures fetched.None? ==> jobs == []
    ensures fetched.Some? ==> jobs == Plan(fetched.value, guilds, utcOffset, ReminderFormat(stamp))
  {
    match fetched
    case None => []
    case Some(entries) => Plan(entries, guilds, utcOffset, ReminderFormat(stamp))
  }

  /**
   * The posts `send_weekly_report` makes: none after a failed fetch, else the
   * digest to every guild in turn, up to the first send that raises.
   */
  function WeeklyPosts(
    fetched: Option<seq<Entry>>, now: int, channels: map<int, int>, guilds: seq<int>,
    resolvable: set<int>, raising: set<int>, stamp: int -> string): (posts: seq<Post>)
    ensures fetched.None? ==> posts == []
    ensures fetched.Some? ==> posts == Broadcast(channels, guilds, resolvable, raising, WeeklyReport(fetched.value, now, stamp))
  {
    match fetched
    case None => []
    case Some(entries) => Broadcast(channels, guilds, resolvable, raising, WeeklyReport(entries, now, stamp))
  }

  lemma MulMonotone(a: nat, b: nat, c: nat)
    requires a <= b
    ensures a * c <= b * c
  {
  }

  /** The plan holds exactly one job per (entry, guild) pair. */
  lemma {:induction false} PlanSize(entries: seq<Entry>, guilds: seq<int>, utcOffset: int, reminder: Entry -> string)
    ensures |Plan(entries, guilds, utcOffset, reminder)| == |entries| * |guilds|
  {
    if entries != [] {
      var n := |entries|;
      PlanSize(entries[..n - 1], guilds, utcOffset, reminder);
      assert (n - 1) * |guilds| + |guilds| == n * |guilds|;
    }
  }

  /**
   * The job for entry `i` and guild `j` sits at position `i * |guilds| + j`: it
   * is for that guild, at the reminder's time of day, with the entry's reminder.
   */
  lemma {:induction false} PlanJob(
    entries: seq<Entry>, guilds: seq<int>, utcOffset: int, reminder: Entry -> string, i: nat, j: nat)
    requires i < |entries| && j < |guilds|
    ensures i * |guilds| + j < |Plan(entries, guilds, utcOffset, reminder)|
    ensures Plan(entries, guilds, utcOffset, reminder)[i * |guilds| + j]
      == Job(ReminderClock(entries[i], utcOffset), guilds[j], reminder(entries[i]))
  {
    var n := |entries|;
    var front := entries[..n - 1];
    PlanSize(entries, guilds, utcOffset, reminder);
    PlanSize(front, guilds, utcOffset, reminder);
    if i == n - 1 {
      assert i * |guilds| + j == |Plan(front, guilds, utcOffset, reminder)| + j;
    } else {
      MulMonotone(i + 1, n - 1, |guilds|);
      assert i * |guilds| + j < (i + 1) * |guilds|;
      PlanJob(front, guilds, utcOffset, reminder, i, j);
    }
  }

  /** Every planned job comes from some fetched entry and some guild known at planning time. */
  lemma {:induction false} PlanJobOrigin(
    entries: seq<Entry>, guilds: seq<int>, utcOffset: int, reminder: Entry -> string, k: nat)
    requires k < |Plan(entries, guilds, utcOffset, reminder)|
    ensures exists i, j ::
      && 0 <= i < |entries| && 0 <= j < |guilds|
      && Plan(entries, guilds, utcOffset, reminder)[k]
         == Job(ReminderClock(entries[i], utcOffset), guilds[j], reminder(entries[i]))
  {
    var n := |entries|;
    var front := entries[..n - 1];
    var e := entries[n - 1];
    var before := Plan(front, guilds, utcOffset, reminder);
    if k < |before| {
      PlanJobOrigin(front, guilds, utcOffset, reminder, k);
      var i, j :| 0 <= i < |front| && 0 <= j < |guilds| &&
        before[k] == Job(ReminderClock(front[i], utcOffset), guilds[j], reminder(front[i]));
      assert front[i] == entries[i];
    } else {
      var j := k - |before|;
      assert Plan(entries, guilds, utcOffset, reminder)[k]
        == Job(ReminderClock(e, utcOffset), guilds[j], reminder(e));
    }
  }

  /** A guild registered after planning has no job in the plan. */
  lemma LateGuildGetsNoReminder(
    entries: seq<Entry>, guilds: seq<int>, utcOffset: int, reminder: Entry -> string, late: int)
    requires late !in guilds
    ensures forall job :: job in Plan(entries, guilds, utcOffset, reminder) ==> job.guild != late
  {
    var plan := Plan(entries, guilds, utcOffset, reminder);
    forall job | job in plan
      ensures job.guild != late
    {
      var k :| 0 <= k < |plan| && plan[k] == job;
      PlanJobOrigin(entries, guilds, utcOffset, reminder, k);
    }
  }

  /**
   * A reminder's daily job matches the clock at the alert instant, and equally at
   * the airing time and at the same time on every other day: it recurs daily.
   */
  lemma ReminderRecursDaily(e: Entry, utcOffset: int, days: int)
    ensures ReminderClock(e, utcOffset) == ClockOf(e.airingAt + days * SECONDS_PER_DAY, utcOffset)
  {
    ClockIgnoresWholeDays(e.airingAt, utcOffset, days);
  }

  /**
   * Sending to two runs of guilds posts for the first run and, unless a send
   * in the first run raised, then for the second.
   */
  lemma {:induction false} BroadcastConcat(
    channels: map<int, int>, a: seq<int>, b: seq<int>, resolvable: set<int>, raising: set<int>, text: string)
    ensures Broadcast(channels, a + b, resolvable, raising, text)
      == Broadcast(channels, a, resolvable, raising, text)
         + (if NoneRaise(channels, a, resolvable, raising) then Broadcast(channels, b, resolvable, raising, text) else [])
  {
    if a == [] {
      assert a + b == b;
    } else {
      assert (a + b)[0] == a[0];
      assert (a + b)[1..] == a[1..] + b;
      assert NoneRaise(channels, a, resolvable, raising)
        <==> !Route(channels, a[0], resolvable, raising).SendRaised? && NoneRaise(channels, a[1..], resolvable, raising)
      by {
        if NoneRaise(channels, a[1..], resolvable, raising) && !Route(channels, a[0], resolvable, raising).SendRaised? {
          forall i | 0 <= i < |a|
            ensures !Route(channels, a[i], resolvable, raising).SendRaised?
          {
            if i > 0 {
              assert a[i] == a[1..][i - 1];
            }
          }
        }
        if NoneRaise(channels, a, resolvable, raising) {
          forall i | 0 <= i < |a| - 1
            ensures !Route(channels, a[1..][i], resolvable, raising).SendRaised?
          {
            assert a[1..][i] == a[i + 1];
          }
        }
      }
      BroadcastConcat(channels, a[1..], b, resolvable, raising, text);
    }
  }

  /**
   * Every post of a broadcast carries the broadcast text to the channel of a
   * listed guild whose send succeeded, and there is at most one post per guild.
   */
  lemma {:induction false} BroadcastPosts(
    channels: map<int, int>, guilds: seq<int>, resolvable: set<int>, raising: set<int>, text: string)
    ensures |Broadcast(channels, guilds, resolvable, raising, text)| <= |guilds|
    ensures forall p :: p in Broadcast(channels, guilds, resolvable, raising, text) ==>
      p.text == text && exists g :: g in guilds && Route(channels, g, resolvable, raising) == Delivered(p.channel)
  {
    if guilds != [] && !Route(channels, guilds[0], resolvable, raising).SendRaised? {
      var rest := guilds[1..];
      BroadcastPosts(channels, rest, resolvable, raising, text);
      forall p | p in Broadcast(channels, guilds, resolvable, raising, text)
        ensures p.text == text && exists g :: g in guilds && Route(channels, g, resolvable, raising) == Delivered(p.channel)
      {
        if p in Broadcast(channels, rest, resolvable, raising, text) {
          var h :| h in rest && Route(channels, h, resolvable, raising) == Delivered(p.channel);
          assert h in guilds;
        } else {
          assert guilds[0] in guilds;
        }
      }
    }
  }

  /**
   * The guild at position `k` receives the text when its channel is set and
   * resolvable and its send succeeds, provided no earlier guild's send raised.
   */
  lemma {:induction false} BroadcastReaches(
    channels: map<int, int>, guilds: seq<int>, resolvable: set<int>, raising: set<int>, text: string, k: nat)
    requires k < |guilds|
    requires NoneRaise(channels, guilds[..k], resolvable, raising)
    requires guilds[k] in channels && channels[guilds[k]] != 0
    requires channels[guilds[k]] in resolvable && channels[guilds[k]] !in raising
    ensures Post(channels[guilds[k]], text) in Broadcast(channels, guilds, resolvable, raising, text)
  {
    if k > 0 {
      var before := guilds[..k];
      var after := guilds[1..][..k - 1];
      assert !Route(channels, before[0], resolvable, raising).SendRaised?;
      assert NoneRaise(channels, after, resolvable, raising) by {
        forall i | 0 <= i < k - 1
          ensures !Route(channels, after[i], resolvable, raising).SendRaised?
        {
          assert after[i] == before[i + 1];
        }
      }
      BroadcastReaches(channels, guilds[1..], resolvable, raising, text, k - 1);
    }
  }

  /** One more guild whose send does not raise: its posts follow those of the guilds before it. */
  lemma BroadcastStep(
    channels: map<int, int>, guilds: seq<int>, resolvable: set<int>, raising: set<int>, text: string, k: nat)
    requires k < |guilds| && NoneRaise(channels, guilds[..k], resolvable, raising)
    requires !Route(channels, guilds[k], resolvable, raising).SendRaised?
    ensures NoneRaise(channels, guilds[..k + 1], resolvable, raising)
    ensures Broadcast(channels, guilds[..k + 1], resolvable, raising, text)
      == Broadcast(channels, guilds[..k], resolvable, raising, text) + PostsFor(channels, guilds[k], resolvable, raising, text)
  {
    var g := guilds[k];
    assert guilds[..k + 1] == guilds[..k] + [g];
    BroadcastConcat(channels, guilds[..k], [g], resolvable, raising, text);
    assert [g][1..] == [];
  }

  /** Once the send for the guild at position `k` raises, no later guild gets anything. */
  lemma {:induction false} BroadcastStopsAtRaise(
    channels: map<int, int>, guilds: seq<int>, resolvable: set<int>, raising: set<int>, text: string, k: nat)
    requires k < |guilds| && Route(channels, guilds[k], resolvable, raising).SendRaised?
    ensures Broadcast(channels, guilds, resolvable, raising, text)
      == Broadcast(channels, guilds[..k], resolvable, raising, text)
  {
    assert guilds == guilds[..k] + guilds[k..];
    BroadcastConcat(channels, guilds[..k], guilds[k..], resolvable, raising, text);
    assert guilds[k..][0] == guilds[k];
  }

  /**
   * The running bot: `announcement_channels` as the map `channels` together with
   * its keys in insertion order (`guilds`, the order Python iterates them in),
   * the scheduler's job list, and every message posted so far.
   */
  class AlertBot {
    var channels: map<int, int>
    var guilds: seq<int>
    var jobs: seq<Job>
    var outbox: seq<Post>

    /** `guilds` lists the registry's keys, each once. */
    ghost predicate Valid()
      reads this`channels, this`guilds
    {
      && (forall i, j :: 0 <= i < j < |guilds| ==> guilds[i] != guilds[j])
      && (forall g :: g in channels <==> g in guilds)
    }

    constructor ()
      ensures Valid()
      ensures channels == map[] && guilds == [] && jobs == [] && outbox == []
    {
      channels, guilds, jobs, outbox := map[], [], [], [];
    }

    /**
     * The `setchannel` command: the invoking guild now maps to `channel`,
     * replacing any earlier value; every other guild keeps its entry, and a
     * guild seen for the first time goes last in iteration order.
     */
    method SetChannel(guild: int, channel: int)
      requires Valid()
      modifies this`channels, this`guilds
      ensures Valid()
      ensures guild in channels && channels[guild] == channel
      ensures forall g :: g != guild ==> (g in channels <==> g in old(channels))
      ensures forall g :: g != guild && g in channels ==> channels[g] == old(channels)[g]
      ensures guilds == if guild in old(channels) then old(guilds) else old(guilds) + [guild]
    {
      if guild !in channels {
        guilds := guilds + [guild];
      }
      channels := channels[guild := channel];
    }

    /**
     * `send_alert`: posts `message` to the guild's channel, or nothing when there
     * is none to post to or the send raises.
     */
    method SendAlert(guild: int, message: string, resolvable: set<int>, raising: set<int>) returns (d: Delivery)
      requires Valid()
      modifies this`outbox
      ensures Valid()
      ensures d == Route(channels, guild, resolvable, raising)
      ensures outbox == old(outbox) + PostsFor(channels, guild, resolvable, raising, message)
      ensures outbox != old(outbox) <==> d.Delivered?
    {
      if guild !in channels || channels[guild] == 0 {
        return NoChannelSet;
      }
      var channel := channels[guild];
      if channel !in resolvable {
        return ChannelNotFound;
      }
      if channel in raising {
        return SendRaised(channel);
      }
      outbox := outbox + [Post(channel, message)];
      d := Delivered(channel);
    }

    /**
     * What a planned job does when the scheduler runs it: `send_alert` for its
     * guild, looking the channel up at that moment.
     */
    method RunJob(job: Job, resolvable: set<int>, raising: set<int>) returns (d: Delivery)
      requires Valid()
      modifies this`outbox
      ensures Valid()
      ensures d == Route(channels, job.guild, resolvable, raising)
      ensures outbox == old(outbox) + PostsFor(channels, job.guild, resolvable, raising, job.message)
    {
      d := SendAlert(job.guild, job.message, resolvable, raising);
    }

    /**
     * `schedule_alerts`: for each fetched entry, and for each guild registered
     * now, registers a daily job with the entry's reminder.
     */
    method ScheduleAlerts(fetched: Option<seq<Entry>>, utcOffset: int, stamp: int -> string)
      requires Valid()
      modifies this`jobs
      ensures Valid()
      ensures jobs == old(jobs) + PlanAlerts(fetched, guilds, utcOffset, stamp)
    {
      if fetched.None? {
        return;
      }
      var entries := fetched.value;
      var remind := ReminderFormat(stamp);
      for i := 0 to |entries|
        invariant jobs == old(jobs) + Plan(entries[..i], guilds, utcOffset, remind)
      {
        var e := entries[i];
        var at := ClockOf(AlertTime(e), utcOffset);
        var message := remind(e);
        for j := 0 to |guilds|
          invariant jobs == old(jobs) + Plan(entries[..i], guilds, utcOffset, remind) + JobsFor(at, message, guilds[..j])
        {
          jobs := jobs + [Job(at, guilds[j], message)];
        }
        assert entries[..i + 1][..i] == entries[..i];
        assert guilds[..|guilds|] == guilds;
      }
      assert entries[..|entries|] == entries;
    }

    /**
     * `send_weekly_report`: builds the digest and sends it to every registered
     * guild in turn. A send that raises ends the method (`raised`); the guilds
     * after it get nothing.
     */
    method SendWeeklyReport(
      fetched: Option<seq<Entry>>, now: int, resolvable: set<int>, raising: set<int>, stamp: int -> string)
      returns (raised: bool)
      requires Valid()
      modifies this`outbox
      ensures Valid()
      ensures outbox == old(outbox) + WeeklyPosts(fetched, now, channels, guilds, resolvable, raising, stamp)
      ensures raised <==> fetched.Some? && !NoneRaise(channels, guilds, resolvable, raising)
    {
      if fetched.None? {
        return false;
      }
      var report := BuildWeeklyReport(fetched.value, now, stamp);
      for i := 0 to |guilds|
        invariant Valid()
        invariant NoneRaise(channels, guilds[..i], resolvable, raising)
        invariant outbox == old(outbox) + Broadcast(channels, guilds[..i], resolvable, raising, report)
      {
        var d := SendAlert(guilds[i], report, resolvable, raising);
        if d.SendRaised? {
          BroadcastStopsAtRaise(channels, guilds, resolvable, raising, report, i);
          return true;
        }
        BroadcastStep(channels, guilds, resolvable, raising, report, i);
      }
      assert guilds[..|guilds|] == guilds;
      return false;
    }
  }
}
