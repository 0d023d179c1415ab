/**
 * The command handlers' decisions: who may use a command, how its
 * arguments are checked, how a new period start teaches the bot the cycle
 * length, and what each command writes to the database. The replies are
 * kept as values that name the message and the data shown in it.
 */
module Handlers {
  import opened Util
  import opened Cycle
  import opened Store
  import opened Text
  import opened RateLimit

  const MaxNoteLength: nat := 500
  const MaxChatMessageLength: nat := 2000
  const MinCycleLength: int := 20
  const MaxCycleLength: int := 45

  /** The gaps, in days, between two period starts that are trusted for learning. */
  const MinLearnGap: int := 18
  const MaxLearnGap: int := 45

  predicate ValidCycleLength(n: int)
  {
    MinCycleLength <= n <= MaxCycleLength
  }

  // -- Learning the cycle length

  /** Python's `round(n / 10)`: the nearest integer, a tie going to the even one. */
  function RoundTenths(n: int): (r: int)
    ensures 10 * r - 5 <= n <= 10 * r + 5
    ensures n % 10 != 5 ==> 10 * r - 5 < n < 10 * r + 5
    ensures n % 10 == 5 ==> r % 2 == 0
  {
    var q := n / 10;
    var m := n % 10;
    if m < 5 then q
    else if m > 5 then q + 1
    else if q % 2 == 0 then q
    else q + 1
  }

  /** `round(gap * 0.7 + cycleLength * 0.3)`, the weighted blend of the last gap and the old length. */
  function BlendedLength(gap: int, cycleLength: int): (r: int)
    ensures Min(gap, cycleLength) <= r <= Max(gap, cycleLength)
    ensures 10 * r - 5 <= 7 * gap + 3 * cycleLength <= 10 * r + 5
  {
    RoundTenths(7 * gap + 3 * cycleLength)
  }

  predicate Learnable(gap: int)
  {
    gap > 0 && MinLearnGap <= gap <= MaxLearnGap
  }

  /**
   * The config after a period that started on `periodDate`: the start date
   * moves there, and a plausible gap pulls the cycle length towards it.
   */
  function LearnCycleLength(config: CycleConfig, periodDate: int): (r: CycleConfig)
    ensures r.lastPeriodDate == periodDate
    ensures var gap := periodDate - config.lastPeriodDate;
      if Learnable(gap) then r.cycleLength == BlendedLength(gap, config.cycleLength)
      else r.cycleLength == config.cycleLength
  {
    var gap := periodDate - config.lastPeriodDate;
    CycleConfig(if Learnable(gap) then BlendedLength(gap, config.cycleLength) else config.cycleLength, periodDate)
  }

  /** A cycle exactly as long as expected leaves the length as it is. */
  lemma LearningKeepsAnExactCycle(config: CycleConfig)
    requires MinLearnGap <= config.cycleLength <= MaxLearnGap
    ensures LearnCycleLength(config, config.lastPeriodDate + config.cycleLength) == CycleConfig(config.cycleLength, config.lastPeriodDate + config.cycleLength)
  {
    DivModUnique(10 * config.cycleLength, 10, config.cycleLength, 0);
  }

  /** Learning never takes a length in 18..45 out of that range. */
  lemma LearningStaysPlausible(config: CycleConfig, periodDate: int)
    requires MinLearnGap <= config.cycleLength <= MaxLearnGap
    ensures MinLearnGap <= LearnCycleLength(config, periodDate).cycleLength <= MaxLearnGap
  {
  }

  /** A longer cycle lengthens the estimate, a shorter one shortens it, never past the gap itself. */
  lemma LearningMovesTowardsTheGap(config: CycleConfig, periodDate: int)
    requires Learnable(periodDate - config.lastPeriodDate)
    ensures var gap := periodDate - config.lastPeriodDate;
      var learned := LearnCycleLength(config, periodDate).cycleLength;
      (gap >= config.cycleLength ==> config.cycleLength <= learned <= gap) &&
      (gap <= config.cycleLength ==> gap <= learned <= config.cycleLength)
  {
  }

  /** Learned lengths are not held to the 20..45 that setup and settings demand: 20 and a gap of 18 give 19. */
  lemma LearningCanLeaveTheSetupRange()
    ensures LearnCycleLength(CycleConfig(20, 0), 18) == CycleConfig(19, 18)
    ensures !ValidCycleLength(19)
  {
  }

  /** A 28-day estimate and a 30-day cycle give 29 (21 + 8.4 = 29.4). */
  lemma LearningExample()
    ensures LearnCycleLength(CycleConfig(28, 0), 30) == CycleConfig(29, 30)
  {
  }

  /** What the period reply says about the cycle length. */
  datatype LengthNote =
    | LengthUpdated(newLength: int, gap: int)
    | LengthKeptUnusual(gap: int)
    | LengthUnchanged

  function NoteFor(config: CycleConfig, periodDate: int): (n: LengthNote)
    ensures var gap := periodDate - config.lastPeriodDate;
      (n.LengthUpdated? <==> Learnable(gap)) &&
      (n.LengthKeptUnusual? <==> gap > 0 && !Learnable(gap)) &&
      (n.LengthUnchanged? <==> gap <= 0)
    ensures n.LengthUpdated? ==> n.newLength == LearnCycleLength(config, periodDate).cycleLength
    ensures !n.LengthUnchanged? ==> n.gap == periodDate - config.lastPeriodDate
  {
    var gap := periodDate - config.lastPeriodDate;
    if Learnable(gap) then LengthUpdated(BlendedLength(gap, config.cycleLength), gap)
    else if gap > 0 then LengthKeptUnusual(gap)
    else LengthUnchanged
  }

  // -- Arguments and replies

  /** One word after the command, with what `int()` and `date.fromisoformat()` make of it. */
  datatype Arg = Arg(text: string, asInt: Option<int>, asDate: Option<int>)

  datatype InputError = NotANumber | LengthOutOfRange | BadDateFormat | DateInFuture

  /** The message a handler answers with, and the values shown in it. */
  datatype Reply =
    | NotForYou
    | NeedsSetup
    | Usage
    | Rejected(error: InputError)
    | SetupDone(config: CycleConfig, cycleDay: int, phaseLabel: string)
    | PeriodLogged(periodDate: int, lengthNote: LengthNote)
    | DateAdjusted(periodDate: int)
    | LengthChanged(cycleLength: int)
    | ShowSettings(config: CycleConfig)
    | NoteLogged(shownNote: string, phaseLabel: string)
    | SlowDown
    | BrainFroze
    | Tip(tip: string)
    | Answer(text: string)
    | ChatCleared

  /** The outcome of checking a command's arguments. */
  datatype Checked<T> = Accept(value: T) | Refuse(reply: Reply)

  /** `" ".join(args)` */
  function JoinWords(args: seq<Arg>): string
  {
    if args == [] then ""
    else if |args| == 1 then args[0].text
    else args[0].text + " " + JoinWords(args[1..])
  }

  /** Cutting text at every space; Telegram's command arguments are the words of the message. */
  function SplitAtSpaces(s: string): (r: seq<string>)
    ensures |r| >= 1
  {
    if s == [] then [[]]
    else
      var rest := SplitAtSpaces(s[1..]);
      if s[0] == ' ' then [[]] + rest
      else [[s[0]] + rest[0]] + rest[1..]
  }

  lemma {:induction false} SplitAfterWord(w: string, t: string)
    requires ' ' !in w
    ensures SplitAtSpaces(w + t) == [w + SplitAtSpaces(t)[0]] + SplitAtSpaces(t)[1..]
  {
    if w == [] {
      var r := SplitAtSpaces(t);
      assert w + t == t && w + r[0] == r[0];
      assert r == [r[0]] + r[1..];
    } else {
      assert (w + t)[1..] == w[1..] + t;
      SplitAfterWord(w[1..], t);
      assert [w[0]] + (w[1..] + SplitAtSpaces(t)[0]) == w + SplitAtSpaces(t)[0];
    }
  }

  /** Joining words that hold no space loses nothing: cutting at the spaces gives the words back. */
  lemma {:induction false} SplitJoinWords(args: seq<Arg>)
    requires args != []
    requires forall i :: 0 <= i < |args| ==> ' ' !in args[i].text
    ensures var words := SplitAtSpaces(JoinWords(args));
      |words| == |args| && forall i :: 0 <= i < |args| ==> words[i] == args[i].text
  {
    var w := args[0].text;
    if |args| == 1 {
      SplitAfterWord(w, []);
      assert w + [] == w;
    } else {
      var rest := JoinWords(args[1..]);
      SplitJoinWords(args[1..]);
      assert JoinWords(args) == w + ([' '] + rest);
      assert ([' '] + rest)[1..] == rest;
      SplitAfterWord(w, [' '] + rest);
      assert SplitAtSpaces([' '] + rest) == [[]] + SplitAtSpaces(rest);
    }
  }

  /** A date argument must parse and must not lie after today. */
  function CheckPastDate(arg: Arg, today: int): (r: Checked<int>)
    ensures r.Accept? <==> arg.asDate.Some? && arg.asDate.value <= today
    ensures r.Accept? ==> r.value == arg.asDate.value
    ensures arg.asDate.None? ==> r == Refuse(Rejected(BadDateFormat))
    ensures arg.asDate.Some? && arg.asDate.value > today ==> r == Refuse(Rejected(DateInFuture))
  {
    match arg.asDate
    case None => Refuse(Rejected(BadDateFormat))
    case Some(d) => if d > today then Refuse(Rejected(DateInFuture)) else Accept(d)
  }

  /** `/setup <cycle_length> <last_period_date>`, checked in the order the handler checks. */
  function ValidateSetup(args: seq<Arg>, today: int): (r: Checked<CycleConfig>)
    ensures r.Accept? <==>
      |args| >= 2 && args[0].asInt.Some? && ValidCycleLength(args[0].asInt.value) &&
      args[1].asDate.Some? && args[1].asDate.value <= today
    ensures r.Accept? ==> r.value == CycleConfig(args[0].asInt.value, args[1].asDate.value)
    ensures |args| < 2 ==> r == Refuse(Usage)
    ensures |args| >= 2 && args[0].asInt.None? ==> r == Refuse(Rejected(NotANumber))
    ensures |args| >= 2 && args[0].asInt.Some? && !ValidCycleLength(args[0].asInt.value) ==>
      r == Refuse(Rejected(LengthOutOfRange))
    ensures |args| >= 2 && args[0].asInt.Some? && ValidCycleLength(args[0].asInt.value) && CheckPastDate(args[1], today).Refuse? ==>
      r == Refuse(CheckPastDate(args[1], today).reply)
  {
    if |args| < 2 then Refuse(Usage)
    else match args[0].asInt
      case None => Refuse(Rejected(NotANumber))
      case Some(n) =>
        if !ValidCycleLength(n) then Refuse(Rejected(LengthOutOfRange))
        else match CheckPastDate(args[1], today)
          case Refuse(reply) => Refuse(reply)
          case Accept(d) => Accept(CycleConfig(n, d))
  }

  /** `/settings [cycle_length]`: no argument shows the settings, one sets a length in range. */
  function ValidateSettings(args: seq<Arg>): (r: Checked<Option<int>>)
    ensures r == Accept(None) <==> args == []
    ensures r.Accept? && r.value.Some? <==> args != [] && args[0].asInt.Some? && ValidCycleLength(args[0].asInt.value)
    ensures r.Accept? && r.value.Some? ==> r.value == args[0].asInt
    ensures args != [] && args[0].asInt.None? ==> r == Refuse(Rejected(NotANumber))
    ensures args != [] && args[0].asInt.Some? && !ValidCycleLength(args[0].asInt.value) ==>
      r == Refuse(Rejected(LengthOutOfRange))
  {
    if args == [] then Accept(None)
    else match args[0].asInt
      case None => Refuse(Rejected(NotANumber))
      case Some(n) => if ValidCycleLength(n) then Accept(Some(n)) else Refuse(Rejected(LengthOutOfRange))
  }

  /** `/period [date]`: no argument means today. */
  function PeriodDate(args: seq<Arg>, today: int): (r: Checked<int>)
    ensures args == [] ==> r == Accept(today)
    ensures r.Accept? ==> r.value <= today
    ensures args != [] ==> r == CheckPastDate(args[0], today)
  {
    if args == [] then Accept(today) else CheckPastDate(args[0], today)
  }

  /** `/adjust <date>`: the date is required. */
  function AdjustDate(args: seq<Arg>, today: int): (r: Checked<int>)
    ensures args == [] ==> r == Refuse(Usage)
    ensures r.Accept? ==> r.value <= today
    ensures args != [] ==> r == CheckPastDate(args[0], today)
  {
    if args == [] then Refuse(Usage) else CheckPastDate(args[0], today)
  }

  // -- Access

  /** The `authorized` decorators: whitelisted and active, and set up. */
  function Gate(db: Database, chatId: int): (r: Option<Reply>)
    reads db
    ensures r == None <==> db.IsUserAuthorized(chatId) && db.UserHasConfig(chatId)
    ensures r != None ==> r.value == (if db.IsUserAuthorized(chatId) then NeedsSetup else NotForYou)
  {
    if !db.IsUserAuthorized(chatId) then Some(NotForYou)
    else if !db.UserHasConfig(chatId) then Some(NeedsSetup)
    else None
  }

  // -- Handlers

  /** `/setup`: any active user may (re)configure; the reply shows today's cycle day and phase. */
  method SetupCommand(db: Database, chatId: int, args: seq<Arg>, today: int) returns (reply: Reply)
    requires db.Valid()
    modifies db`configs
    ensures db.Valid()
    ensures !db.IsUserAuthorized(chatId) ==> reply == NotForYou && db.configs == old(db.configs)
    ensures db.IsUserAuthorized(chatId) ==>
      var v := ValidateSetup(args, today);
      if v.Refuse? then reply == v.reply && db.configs == old(db.configs)
      else
        var day := CycleDay(v.value.lastPeriodDate, today, v.value.cycleLength);
        db.configs == old(db.configs)[chatId := v.value] &&
        reply == SetupDone(v.value, day, GetPhaseInfo(day, v.value.cycleLength).phaseLabel)
  {
    if !db.IsUserAuthorized(chatId) {
      return NotForYou;
    }
    var v := ValidateSetup(args, today);
    if v.Refuse? {
      return v.reply;
    }
    var config := v.value;
    db.UpsertUserConfig(chatId, config.cycleLength, config.lastPeriodDate);
    var day := CycleDay(config.lastPeriodDate, today, config.cycleLength);
    reply := SetupDone(config, day, GetPhaseInfo(day, config.cycleLength).phaseLabel);
  }

  /** The shared body of `/period` and the "period started today" button. */
  method RecordPeriod(db: Database, chatId: int, periodDate: int) returns (note: LengthNote)
    requires db.Valid() && chatId in db.configs
    modifies db`configs
    ensures db.Valid()
    ensures db.configs == old(db.configs)[chatId := LearnCycleLength(old(db.configs[chatId]), periodDate)]
    ensures note == NoteFor(old(db.configs[chatId]), periodDate)
  {
    var before := db.configs;
    var config := db.configs[chatId];
    note := NoteFor(config, periodDate);
    if note.LengthUpdated? {
      db.UpdateUserCycleLength(chatId, note.newLength);
    }
    db.UpdateUserLastPeriodDate(chatId, periodDate);
    var expected := before[chatId := LearnCycleLength(config, periodDate)];
    assert db.configs.Keys == expected.Keys;
    assert forall c :: c in db.configs ==> db.configs[c] == expected[c];
  }

  /** `/period [date]`: a new period started, today unless a past date is given. */
  method PeriodCommand(db: Database, chatId: int, args: seq<Arg>, today: int) returns (reply: Reply)
    requires db.Valid()
    modifies db`configs
    ensures db.Valid()
    ensures old(Gate(db, chatId)) != None ==> reply == old(Gate(db, chatId)).value && db.configs == old(db.configs)
    ensures old(Gate(db, chatId)) == None ==>
      var v := PeriodDate(args, today);
      if v.Refuse? then reply == v.reply && db.configs == old(db.configs)
      else
        var config := old(db.configs[chatId]);
        db.configs == old(db.configs)[chatId := LearnCycleLength(config, v.value)] &&
        reply == PeriodLogged(v.value, NoteFor(config, v.value))
  {
    var gate := Gate(db, chatId);
    if gate != None {
      return gate.value;
    }
    var v := PeriodDate(args, today);
    if v.Refuse? {
      return v.reply;
    }
    var note := RecordPeriod(db, chatId, v.value);
    reply := PeriodLogged(v.value, note);
  }

  /** The "period started today" button: the same learning, with today's date. */
  method PeriodToday(db: Database, chatId: int, today: int) returns (reply: Reply)
    requires db.Valid()
    modifies db`configs
    ensures db.Valid()
    ensures old(Gate(db, chatId)) != None ==> reply == old(Gate(db, chatId)).value && db.configs == old(db.configs)
    ensures old(Gate(db, chatId)) == None ==>
      var config := old(db.configs[chatId]);
      db.configs == old(db.configs)[chatId := LearnCycleLength(config, today)] &&
      reply == PeriodLogged(today, NoteFor(config, today))
  {
    var gate := Gate(db, chatId);
    if gate != None {
      return gate.value;
    }
    var note := RecordPeriod(db, chatId, today);
    reply := PeriodLogged(today, note);
  }

  /** `/adjust <date>`: corrects the last period start, leaving the length alone. */
  method AdjustCommand(db: Database, chatId: int, args: seq<Arg>, today: int) returns (reply: Reply)
    requires db.Valid()
    modifies db`configs
    ensures db.Valid()
    ensures old(Gate(db, chatId)) != None ==> reply == old(Gate(db, chatId)).value && db.configs == old(db.configs)
    ensures old(Gate(db, chatId)) == None ==>
      var v := AdjustDate(args, today);
      if v.Refuse? then reply == v.reply && db.configs == old(db.configs)
      else
        db.configs == old(db.configs)[chatId := old(db.configs[chatId]).(lastPeriodDate := v.value)] &&
        reply == DateAdjusted(v.value)
  {
    var gate := Gate(db, chatId);
    if gate != None {
      return gate.value;
    }
    var v := AdjustDate(args, today);
    if v.Refuse? {
      return v.reply;
    }
    db.UpdateUserLastPeriodDate(chatId, v.value);
    reply := DateAdjusted(v.value);
  }

  /** `/settings [length]`: shows the config, or sets a length in 20..45. */
  method SettingsCommand(db: Database, chatId: int, args: seq<Arg>) returns (reply: Reply)
    requires db.Valid()
    modifies db`configs
    ensures db.Valid()
    ensures old(Gate(db, chatId)) != None ==> reply == old(Gate(db, chatId)).value && db.configs == old(db.configs)
    ensures old(Gate(db, chatId)) == None ==>
      var v := ValidateSettings(args);
      if v.Refuse? then reply == v.reply && db.configs == old(db.configs)
      else if v.value == None then reply == ShowSettings(old(db.configs[chatId])) && db.configs == old(db.configs)
      else
        db.configs == old(db.configs)[chatId := old(db.configs[chatId]).(cycleLength := v.value.value)] &&
        reply == LengthChanged(v.value.value)
  {
    var gate := Gate(db, chatId);
    if gate != None {
      return gate.value;
    }
    var v := ValidateSettings(args);
    if v.Refuse? {
      return v.reply;
    }
    match v.value
    case None =>
      reply := ShowSettings(db.configs[chatId]);
    case Some(n) =>
      db.UpdateUserCycleLength(chatId, n);
      reply := LengthChanged(n);
  }

  /** `/clearchat`: any set-up user may empty their own chat history. */
  method ClearChatCommand(db: Database, chatId: int) returns (reply: Reply)
    requires db.Valid()
    modifies db`chatHistory
    ensures db.Valid()
    ensures old(Gate(db, chatId)) != None ==> reply == old(Gate(db, chatId)).value && db.chatHistory == old(db.chatHistory)
    ensures old(Gate(db, chatId)) == None ==>
      reply == ChatCleared && db.HistoryOf(chatId) == [] &&
      forall c :: c != chatId ==> db.HistoryOf(c) == old(db.HistoryOf(c))
  {
    var gate := Gate(db, chatId);
    if gate != None {
      return gate.value;
    }
    db.ClearChatHistory(chatId);
    reply := ChatCleared;
  }

  /** The phase a chat is in on `today`, from its stored config. */
  function PhaseToday(config: CycleConfig, today: int): Phase
    requires config.cycleLength > 0
  {
    GetPhase(CycleDay(config.lastPeriodDate, today, config.cycleLength), config.cycleLength)
  }

  /** `/log <note>`: stores the note, cut to 500 characters, with today's phase; echoes it escaped. */
  method LogCommand(db: Database, chatId: int, args: seq<Arg>, today: int) returns (reply: Reply)
    requires db.Valid()
    requires chatId in db.configs ==> db.configs[chatId].cycleLength > 0
    modifies db`moodLogs
    ensures db.Valid()
    ensures old(Gate(db, chatId)) != None ==> reply == old(Gate(db, chatId)).value && db.moodLogs == old(db.moodLogs)
    ensures old(Gate(db, chatId)) == None && args == [] ==> reply == Usage && db.moodLogs == old(db.moodLogs)
    ensures old(Gate(db, chatId)) == None && args != [] ==>
      var note := Truncate(JoinWords(args), MaxNoteLength);
      var phase := PhaseToday(db.configs[chatId], today);
      db.moodLogs == old(db.moodLogs)[chatId := LogsOf(old(db.moodLogs), chatId) + [MoodLog(today, note, Some(PhaseName(phase)))]] &&
      reply == NoteLogged(Escaped(note), PhaseLabels[PhaseName(phase)])
  {
    var gate := Gate(db, chatId);
    if gate != None {
      return gate.value;
    }
    if args == [] {
      return Usage;
    }
    var config := db.configs[chatId];
    var phase := PhaseToday(config, today);
    var note := Truncate(JoinWords(args), MaxNoteLength);
    db.AddUserLog(chatId, note, Some(PhaseName(phase)), today);
    var shown := EscapeMarkdown(note);
    PhaseNamesAreTheKeys(phase, phase);
    TablesHaveThePhaseKeys();
    reply := NoteLogged(shown, PhaseLabels[PhaseName(phase)]);
  }

  /** `/tip`: rate-limited; `tip` is what the AI answered, `None` when the call failed. */
  method TipCommand(db: Database, limiter: AiRateLimiter, chatId: int, now: real, tip: Option<string>)
    returns (reply: Reply)
    requires limiter.Valid() && limiter.InOrder(chatId, now)
    modifies limiter
    ensures limiter.Valid()
    ensures Gate(db, chatId) != None ==>
      reply == Gate(db, chatId).value && limiter.calls == old(limiter.calls) &&
      limiter.granted == old(limiter.granted) && limiter.lastAsk == old(limiter.lastAsk)
    ensures Gate(db, chatId) == None ==>
      var kept := Recent(old(limiter.CallsOf(chatId)), now);
      var allowed := |kept| < AiRateLimit;
      limiter.calls == old(limiter.calls)[chatId := kept + if allowed then [now] else []] &&
      limiter.granted == old(limiter.granted)[chatId := old(limiter.GrantedOf(chatId)) + if allowed then [now] else []] &&
      limiter.lastAsk == old(limiter.lastAsk)[chatId := now] &&
      reply == (if !allowed then SlowDown else if tip == None then BrainFroze else Tip(tip.value))
  {
    var gate := Gate(db, chatId);
    if gate != None {
      return gate.value;
    }
    var allowed := limiter.Check(chatId, now);
    if !allowed {
      return SlowDown;
    }
    reply := if tip == None then BrainFroze else Tip(tip.value);
  }

  /**
   * Free text: cut to 2000 characters and rate-limited; `response` is what
   * the AI answered, `None` when the call failed. Only an answered message
   * is stored, together with the answer.
   */
  method ChatHandler(db: Database, limiter: AiRateLimiter, chatId: int, text: string, now: real,
                     response: Option<string>) returns (reply: Reply)
    requires db.Valid() && limiter.Valid() && limiter.InOrder(chatId, now)
    modifies db`chatHistory, limiter
    ensures db.Valid() && limiter.Valid()
    ensures old(Gate(db, chatId)) != None ==>
      reply == old(Gate(db, chatId)).value && limiter.calls == old(limiter.calls) && db.chatHistory == old(db.chatHistory) &&
      limiter.granted == old(limiter.granted) && limiter.lastAsk == old(limiter.lastAsk)
    ensures old(Gate(db, chatId)) == None ==>
      var message := Truncate(text, MaxChatMessageLength);
      var kept := Recent(old(limiter.CallsOf(chatId)), now);
      var allowed := |kept| < AiRateLimit;
      limiter.calls == old(limiter.calls)[chatId := kept + if allowed then [now] else []] &&
      limiter.granted == old(limiter.granted)[chatId := old(limiter.GrantedOf(chatId)) + if allowed then [now] else []] &&
      limiter.lastAsk == old(limiter.lastAsk)[chatId := now] &&
      (!allowed ==> reply == SlowDown && db.chatHistory == old(db.chatHistory)) &&
      (allowed && response == None ==> reply == BrainFroze && db.chatHistory == old(db.chatHistory)) &&
      (allowed && response != None ==>
        reply == Answer(response.value) &&
        db.chatHistory == old(db.chatHistory)[chatId := old(db.HistoryOf(chatId)) +
          [ChatMessage(UserRole, message), ChatMessage(AssistantRole, response.value)]])
  {
    var gate := Gate(db, chatId);
    if gate != None {
      return gate.value;
    }
    var message := Truncate(text, MaxChatMessageLength);
    var allowed := limiter.Check(chatId, now);
    if !allowed {
      return SlowDown;
    }
    if response == None {
      return BrainFroze;
    }
    StoreExchange(db, chatId, message, response.value);
    reply := Answer(response.value);
  }

  /** The two `add_chat_message` calls of an answered message: the message, then the answer. */
  method StoreExchange(db: Database, chatId: int, message: string, answer: string)
    requires db.Valid() && chatId in db.users
    modifies db`chatHistory
    ensures db.Valid()
    ensures db.chatHistory == old(db.chatHistory)[chatId := old(db.HistoryOf(chatId)) +
      [ChatMessage(UserRole, message), ChatMessage(AssistantRole, answer)]]
  {
    var history := db.HistoryOf(chatId);
    db.AddChatMessage(chatId, UserRole, message);
    db.AddChatMessage(chatId, AssistantRole, answer);
    assert history + [ChatMessage(UserRole, message)] + [ChatMessage(AssistantRole, answer)]
      == history + [ChatMessage(UserRole, message), ChatMessage(AssistantRole, answer)];
  }
}
