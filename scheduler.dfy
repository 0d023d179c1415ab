/**
 * The daily reminder sweep: for every active user with a cycle config,
 * whether today deserves a message, which header it carries and which
 * notes go with it. The AI-written tip and the sending itself are not part
 * of the model; the sweep returns the reminders it would send.
 */
module Scheduler {
  import opened Util
  import opened Cycle
  import opened Store

  const DefaultPeriodDuration: int := 5
  const RecentLogCount: int := 3

  /** `pms_start - 2` with `pms_start = cycle_length - 6`. */
  function WarningDay(cycleLength: int): (d: int)
    ensures d + 2 == cycleLength - 6
  {
    cycleLength - 8
  }

  /** The `should_send` flag. */
  function ShouldSend(phase: Phase, cycleDay: int, cycleLength: int): (send: bool)
    ensures send <==> phase != Follicular && (phase == Luteal ==> cycleDay == WarningDay(cycleLength))
  {
    if phase == Pms || phase == Menstruation then true
    else if phase == Ovulation then true
    else phase == Luteal && cycleDay == WarningDay(cycleLength)
  }

  /** The first line(s) of a reminder: the fixed PMS warning, or a greeting with the phase label and day. */
  datatype Header = PmsWarning | GoodMorning(phaseLabel: string, cycleDay: int)

  function HeaderFor(phase: Phase, cycleDay: int, cycleLength: int): (h: Header)
    ensures h.PmsWarning? <==> phase == Luteal && cycleDay == WarningDay(cycleLength)
    ensures h.GoodMorning? ==> h == GoodMorning(GetPhaseInfo(cycleDay, cycleLength).phaseLabel, cycleDay)
  {
    if phase == Luteal && cycleDay == WarningDay(cycleLength) then PmsWarning
    else GoodMorning(GetPhaseInfo(cycleDay, cycleLength).phaseLabel, cycleDay)
  }

  /** `config.get("period_duration", 5) or 5`: a missing or zero value means five days. */
  function PeriodDuration(stored: Option<int>): (d: int)
    ensures stored == None || stored == Some(0) ==> d == DefaultPeriodDuration
    ensures stored != None && stored != Some(0) ==> d == stored.value
  {
    match stored
    case None => DefaultPeriodDuration
    case Some(v) => if v == 0 then DefaultPeriodDuration else v
  }

  /** `today.year - year_of_birth if year_of_birth else None` */
  function Age(yearOfBirth: Option<int>, todayYear: int): (age: Option<int>)
    ensures age != None <==> yearOfBirth != None && yearOfBirth != Some(0)
    ensures age != None ==> yearOfBirth.value + age.value == todayYear
  {
    match yearOfBirth
    case None => None
    case Some(y) => if y == 0 then None else Some(todayYear - y)
  }

  /** One reminder the sweep would send. */
  datatype Reminder = Reminder(chatId: int, cycleDay: int, phase: Phase, header: Header, recentLogs: seq<MoodLog>)

  /** The notes handed to the tip writer: today's, or else the three newest. */
  function ReminderLogs(db: Database, chatId: int, today: int): (logs: seq<MoodLog>)
    reads db
    ensures db.GetUserLogsForDate(chatId, today) != [] ==> logs == db.GetUserLogsForDate(chatId, today)
    ensures db.GetUserLogsForDate(chatId, today) == [] ==> logs == db.GetUserRecentLogs(chatId, RecentLogCount)
  {
    var todays := db.GetUserLogsForDate(chatId, today);
    if todays != [] then todays else db.GetUserRecentLogs(chatId, RecentLogCount)
  }

  /** Every stored cycle length is positive; a zero length would stop the sweep with a division error. */
  ghost predicate PositiveLengths(db: Database)
    reads db
  {
    forall c :: c in db.configs ==> db.configs[c].cycleLength > 0
  }

  /** What the sweep does for one chat: nothing without a config or on a quiet day, else one reminder. */
  function PlanFor(db: Database, chatId: int, today: int): (plan: Option<Reminder>)
    requires PositiveLengths(db)
    reads db
    ensures chatId !in db.configs ==> plan == None
    ensures plan != None ==> plan.value.chatId == chatId
  {
    if chatId !in db.configs then None
    else
      var config := db.configs[chatId];
      var day := CycleDay(config.lastPeriodDate, today, config.cycleLength);
      var phase := GetPhase(day, config.cycleLength);
      if !ShouldSend(phase, day, config.cycleLength) then None
      else Some(Reminder(chatId, day, phase, HeaderFor(phase, day, config.cycleLength), ReminderLogs(db, chatId, today)))
  }

  /**
   * One pass of the loop in `send_daily_reminder`: no reminder for a chat
   * without a config or on a day that needs none, else the reminder with its
   * header and notes.
   */
  method PlanReminder(db: Database, chatId: int, today: int) returns (plan: Option<Reminder>)
    requires PositiveLengths(db)
    ensures plan == PlanFor(db, chatId, today)
  {
    var config := db.GetUserConfig(chatId);
    if config == None {
      return None;
    }
    var cycleLength := config.value.cycleLength;
    var cycleDay := CycleDay(config.value.lastPeriodDate, today, cycleLength);
    var phase := GetPhase(cycleDay, cycleLength);
    var warningDay := WarningDay(cycleLength);

    var shouldSend := false;
    if phase == Pms || phase == Menstruation {
      shouldSend := true;
    } else if phase == Ovulation {
      shouldSend := true;
    } else if phase == Luteal && cycleDay == warningDay {
      shouldSend := true;
    }
    assert shouldSend == ShouldSend(phase, cycleDay, cycleLength);
    if !shouldSend {
      return None;
    }

    var logs := db.GetUserLogsForDate(chatId, today);
    if logs == [] {
      logs := db.GetUserRecentLogs(chatId, RecentLogCount);
    }
    var header;
    if phase == Luteal && cycleDay == warningDay {
      header := PmsWarning;
    } else {
      header := GoodMorning(GetPhaseInfo(cycleDay, cycleLength).phaseLabel, cycleDay);
    }
    assert header == HeaderFor(phase, cycleDay, cycleLength);
    assert logs == ReminderLogs(db, chatId, today);
    plan := Some(Reminder(chatId, cycleDay, phase, header, logs));
  }

  /** The reminders a sweep over `ids` collects, in the order of `ids`. */
  ghost function Planned(db: Database, ids: seq<int>, today: int): seq<Reminder>
    requires PositiveLengths(db)
    reads db
    decreases |ids|
  {
    if ids == [] then []
    else
      var plan := PlanFor(db, ids[|ids| - 1], today);
      Planned(db, ids[..|ids| - 1], today) + (if plan == None then [] else [plan.value])
  }

  /** A collected reminder is the plan of one of the swept chats, and every plan of a swept chat is collected. */
  lemma {:induction false} PlannedMembers(db: Database, ids: seq<int>, today: int)
    requires PositiveLengths(db)
    ensures forall r :: r in Planned(db, ids, today) ==> r.chatId in ids && PlanFor(db, r.chatId, today) == Some(r)
    ensures forall k :: 0 <= k < |ids| && PlanFor(db, ids[k], today) != None ==>
      PlanFor(db, ids[k], today).value in Planned(db, ids, today)
    decreases |ids|
  {
    if ids != [] {
      var front := ids[..|ids| - 1];
      var last := ids[|ids| - 1];
      var plan := PlanFor(db, last, today);
      PlannedMembers(db, front, today);
      assert Planned(db, ids, today) == Planned(db, front, today) + (if plan == None then [] else [plan.value]);
      assert ids == front + [last];
    }
  }

  predicate OncePerChat(sent: seq<Reminder>)
  {
    forall i, j :: 0 <= i < j < |sent| ==> sent[i].chatId != sent[j].chatId
  }

  /** Sweeping chats without repeats sends each chat at most one reminder. */
  lemma {:induction false} PlannedOncePerChat(db: Database, ids: seq<int>, today: int)
    requires PositiveLengths(db)
    requires forall i, j :: 0 <= i < j < |ids| ==> ids[i] != ids[j]
    ensures OncePerChat(Planned(db, ids, today))
    decreases |ids|
  {
    if ids != [] {
      var front := ids[..|ids| - 1];
      var last := ids[|ids| - 1];
      var plan := PlanFor(db, last, today);
      PlannedOncePerChat(db, front, today);
      PlannedMembers(db, front, today);
      assert last !in front by {
        forall k | 0 <= k < |front|
          ensures front[k] != last
        {
          assert front[k] == ids[k];
        }
      }
      var extra := if plan == None then [] else [plan.value];
      assert Planned(db, ids, today) == Planned(db, front, today) + extra;
      AppendOtherChat(Planned(db, front, today), extra, front, last);
    }
  }

  lemma AppendOtherChat(before: seq<Reminder>, extra: seq<Reminder>, front: seq<int>, last: int)
    requires OncePerChat(before)
    requires forall r :: r in before ==> r.chatId in front
    requires last !in front
    requires |extra| <= 1 && forall r :: r in extra ==> r.chatId == last
    ensures OncePerChat(before + extra)
  {
    var sent := before + extra;
    forall i, j | 0 <= i < j < |sent|
      ensures sent[i].chatId != sent[j].chatId
    {
      if j >= |before| {
        assert sent[j] == extra[0] && sent[j] in extra;
        assert sent[i] == before[i] && before[i] in before;
      } else {
        assert sent[i] == before[i] && sent[j] == before[j];
      }
    }
  }

  /**
   * `send_daily_reminder`: walks the active users, skipping those without a
   * config and those whose day needs no message, and collects one reminder
   * for each of the others.
   */
  method SendDailyReminder(db: Database, today: int) returns (sent: seq<Reminder>)
    requires PositiveLengths(db)
    ensures forall r :: r in sent ==> db.IsUserAuthorized(r.chatId) && PlanFor(db, r.chatId, today) == Some(r)
    ensures forall c :: db.IsUserAuthorized(c) && PlanFor(db, c, today) != None ==> PlanFor(db, c, today).value in sent
    ensures forall i, j :: 0 <= i < j < |sent| ==> sent[i].chatId != sent[j].chatId
  {
    var ids := db.GetAllActiveUsers();
    sent := [];
    for i := 0 to |ids|
      invariant sent == Planned(db, ids[..i], today)
    {
      var plan := PlanReminder(db, ids[i], today);
      assert ids[..i + 1][..i] == ids[..i];
      if plan == None {
        continue;
      }
      sent := sent + [plan.value];
    }
    assert ids[..|ids|] == ids;
    PlannedMembers(db, ids, today);
    PlannedOncePerChat(db, ids, today);
    forall c | db.IsUserAuthorized(c) && PlanFor(db, c, today) != None
      ensures PlanFor(db, c, today).value in sent
    {
      var k :| 0 <= k < |ids| && ids[k] == c;
    }
  }

  /**
   * Who gets a reminder and what it says: a configured chat gets one exactly
   * when today's cycle day and phase pass `ShouldSend`, and it carries that
   * day and phase, the matching header and the notes.
   */
  lemma PlanForToday(db: Database, chatId: int, today: int)
    requires PositiveLengths(db) && chatId in db.configs
    ensures var config := db.configs[chatId];
      var day := CycleDay(config.lastPeriodDate, today, config.cycleLength);
      var phase := GetPhase(day, config.cycleLength);
      var plan := PlanFor(db, chatId, today);
      (plan != None <==> ShouldSend(phase, day, config.cycleLength)) &&
      (plan != None ==> plan.value == Reminder(chatId, day, phase, HeaderFor(phase, day, config.cycleLength), ReminderLogs(db, chatId, today)))
  {
  }

  /** A follicular day never produces a message. */
  lemma FollicularIsQuiet(db: Database, chatId: int, today: int)
    requires PositiveLengths(db) && chatId in db.configs
    ensures var config := db.configs[chatId];
      GetPhase(CycleDay(config.lastPeriodDate, today, config.cycleLength), config.cycleLength) == Follicular ==>
        PlanFor(db, chatId, today) == None
  {
  }

  /** Period, ovulation and PMS days always produce a message. */
  lemma LoudPhasesAlwaysSend(phase: Phase, cycleDay: int, cycleLength: int)
    requires phase in {Menstruation, Ovulation, Pms}
    ensures ShouldSend(phase, cycleDay, cycleLength)
    ensures HeaderFor(phase, cycleDay, cycleLength).GoodMorning?
  {
  }

  /**
   * The warning day falls in the luteal days 15..21 only for cycle lengths
   * 23..29; for any other length the PMS warning is never chosen.
   */
  lemma PmsWarningNeedsMidLength(cycleDay: int, cycleLength: int)
    ensures HeaderFor(GetPhase(cycleDay, cycleLength), cycleDay, cycleLength).PmsWarning? <==>
      23 <= cycleLength <= 29 && cycleDay == WarningDay(cycleLength)
  {
  }

  /**
   * On the warning day the days up to day 21 stay luteal and the PMS phase
   * begins on day 22, which is `30 - cycleLength` days later: two days, as
   * the warning says, only for a 28-day cycle.
   */
  lemma PmsWarningLeadTime(cycleLength: int)
    requires 23 <= cycleLength <= 29
    ensures forall day :: WarningDay(cycleLength) <= day < 22 ==> GetPhase(day, cycleLength) == Luteal
    ensures GetPhase(22, cycleLength) == Pms
    ensures 22 - WarningDay(cycleLength) == 30 - cycleLength
    ensures 22 - WarningDay(cycleLength) == 2 <==> cycleLength == 28
  {
  }
}
