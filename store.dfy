/**
 * The per-user store: the users whitelist, each user's cycle configuration,
 * each chat's mood logs and chat history, and the two legacy single-user
 * tables that the admin bootstrap migrates from. The SQL tables are held
 * as maps keyed by chat id; rows of one chat keep their insertion order.
 * Dates are whole-day ordinals.
 */
module Store {
  import opened Util

  datatype User = User(addedBy: Option<int>, isAdmin: bool, isActive: bool)

  datatype CycleConfig = CycleConfig(cycleLength: int, lastPeriodDate: int)

  /** A mood note; the phase column may be NULL in migrated legacy rows. */
  datatype MoodLog = MoodLog(date: int, note: string, phase: Option<string>)

  datatype Role = UserRole | AssistantRole

  datatype ChatMessage = ChatMessage(role: Role, content: string)

  // ---------------------------------------------------------------------
  // Query helpers

  /** How many rows `LIMIT limit` lets through; SQLite reads a negative limit as no limit. */
  function LimitCount(limit: int, available: nat): (n: nat)
    ensures n <= available
    ensures limit < 0 ==> n == available
    ensures 0 <= limit ==> n == Min(limit, available)
  {
    if limit < 0 || available <= limit then available else limit
  }

  /** The newest rows of `s` that `LIMIT limit` keeps, oldest first. */
  function Newest<T>(s: seq<T>, limit: int): (r: seq<T>)
    ensures |r| == LimitCount(limit, |s|)
    ensures s[..|s| - |r|] + r == s
  {
    s[|s| - LimitCount(limit, |s|)..]
  }

  /** Taking the newest `n` of the newest `k` is taking the newest `min(k, n)`. */
  lemma NewestOfNewest<T>(s: seq<T>, k: nat, n: nat)
    ensures Newest(Newest(s, k), n) == Newest(s, Min(k, n))
  {
    var a := LimitCount(k, |s|);
    var b := LimitCount(n, a);
    var r := s[|s| - a..];
    assert Newest(s, k) == r;
    assert b == LimitCount(Min(k, n), |s|);
    assert Newest(r, n) == r[a - b..];
    assert r[a - b..] == s[|s| - b..];
  }

  function Reverse<T>(s: seq<T>): (r: seq<T>)
    ensures |r| == |s|
    ensures forall i :: 0 <= i < |s| ==> r[i] == s[|s| - 1 - i]
  {
    if s == [] then [] else Reverse(s[1..]) + [s[0]]
  }

  /** The rows of one chat's logs dated `date`, in insertion order. */
  function LogsDated(logs: seq<MoodLog>, date: int): (r: seq<MoodLog>)
    ensures forall i :: 0 <= i < |r| ==> r[i].date == date && r[i] in logs
    ensures forall log :: multiset(r)[log] == if log.date == date then multiset(logs)[log] else 0
    ensures |r| <= |logs|
  {
    if logs == [] then []
    else
      assert logs == [logs[0]] + logs[1..];
      if logs[0].date == date then [logs[0]] + LogsDated(logs[1..], date)
      else LogsDated(logs[1..], date)
  }

  /**
   * The selection keeps insertion order: it works piece by piece. With
   * `LogsDatedSingle`, which keeps a single log exactly when it carries the
   * date, this fixes the result for every input.
   */
  lemma {:induction false} LogsDatedAppend(a: seq<MoodLog>, b: seq<MoodLog>, date: int)
    ensures LogsDated(a + b, date) == LogsDated(a, date) + LogsDated(b, date)
  {
    if a == [] {
      assert a + b == b;
    } else {
      assert (a + b)[1..] == a[1..] + b;
      LogsDatedAppend(a[1..], b, date);
    }
  }

  lemma LogsDatedSingle(log: MoodLog, date: int)
    ensures LogsDated([log], date) == if log.date == date then [log] else []
  {
    assert [log][1..] == [];
  }

  // ---------------------------------------------------------------------
  // bootstrap_admin and _migrate_legacy_data as transitions on table values

  /** The users table after bootstrap: the admin row exists and is an active admin. */
  function WithAdmin(users: map<int, User>, adminId: int): (r: map<int, User>)
    ensures adminId in r && r[adminId].isAdmin && r[adminId].isActive
    ensures adminId in users ==> r[adminId].addedBy == users[adminId].addedBy
    ensures adminId !in users ==> r[adminId].addedBy == None
    ensures r.Keys == users.Keys + {adminId}
    ensures forall c :: c in users && c != adminId ==> r[c] == users[c]
  {
    if adminId in users then users[adminId := users[adminId].(isAdmin := true, isActive := true)]
    else users[adminId := User(None, true, true)]
  }

  /** The config table after migration: an admin without a config gets the legacy one, else the defaults. */
  function MigratedConfigs(configs: map<int, CycleConfig>, adminId: int,
                           legacy: Option<CycleConfig>, defaults: CycleConfig): (r: map<int, CycleConfig>)
    ensures adminId in configs ==> r == configs
    ensures adminId !in configs ==> r == configs[adminId := if legacy.Some? then legacy.value else defaults]
  {
    if adminId in configs then configs
    else if legacy.Some? then configs[adminId := legacy.value]
    else configs[adminId := defaults]
  }

  function LogsOf(logs: map<int, seq<MoodLog>>, chatId: int): seq<MoodLog>
  {
    if chatId in logs then logs[chatId] else []
  }

  /** The mood-log table after migration: an admin without logs receives every legacy log, in order. */
  function MigratedLogs(logs: map<int, seq<MoodLog>>, adminId: int, legacy: seq<MoodLog>): (r: map<int, seq<MoodLog>>)
    ensures LogsOf(logs, adminId) == [] ==> LogsOf(r, adminId) == legacy
    ensures LogsOf(logs, adminId) != [] ==> r == logs
    ensures forall c :: c != adminId ==> LogsOf(r, c) == LogsOf(logs, c)
    ensures r.Keys <= logs.Keys + {adminId}
  {
    if LogsOf(logs, adminId) != [] || legacy == [] then logs
    else logs[adminId := legacy]
  }

  /** Bootstrapping a second time changes nothing. */
  lemma BootstrapIdempotent(users: map<int, User>, configs: map<int, CycleConfig>,
                            logs: map<int, seq<MoodLog>>, adminId: int,
                            legacyConfig: Option<CycleConfig>, legacyLogs: seq<MoodLog>,
                            defaults: CycleConfig)
    ensures WithAdmin(WithAdmin(users, adminId), adminId) == WithAdmin(users, adminId)
    ensures var once := MigratedConfigs(configs, adminId, legacyConfig, defaults);
            MigratedConfigs(once, adminId, legacyConfig, defaults) == once
    ensures var once := MigratedLogs(logs, adminId, legacyLogs);
            MigratedLogs(once, adminId, legacyLogs) == once
  {
  }

  // ---------------------------------------------------------------------
  // The database

  class Database {
    var users: map<int, User>
    var configs: map<int, CycleConfig>
    var moodLogs: map<int, seq<MoodLog>>
    var chatHistory: map<int, seq<ChatMessage>>
    /** The legacy single-user tables `cycle_config` (at most one row) and `mood_logs`. */
    var legacyConfig: Option<CycleConfig>
    var legacyLogs: seq<MoodLog>

    /** Foreign keys: every per-chat row belongs to a row of the users table. */
    ghost predicate Valid()
      reads this
    {
      configs.Keys <= users.Keys && moodLogs.Keys <= users.Keys && chatHistory.Keys <= users.Keys
    }

    /** A database whose per-user tables are freshly created and whose legacy tables hold the given rows. */
    constructor (legacyConfig: Option<CycleConfig>, legacyLogs: seq<MoodLog>)
      ensures Valid()
      ensures users == map[] && configs == map[] && moodLogs == map[] && chatHistory == map[]
      ensures this.legacyConfig == legacyConfig && this.legacyLogs == legacyLogs
    {
      users, configs, moodLogs, chatHistory := map[], map[], map[], map[];
      this.legacyConfig, this.legacyLogs := legacyConfig, legacyLogs;
    }

    // -- Admin bootstrap and legacy migration

    method BootstrapAdmin(adminId: int, cycleLength: int, lastPeriodStart: int)
      requires Valid()
      modifies this
      ensures Valid()
      ensures users == WithAdmin(old(users), adminId)
      ensures configs == MigratedConfigs(old(configs), adminId, legacyConfig,
                                         CycleConfig(cycleLength, lastPeriodStart))
      ensures moodLogs == MigratedLogs(old(moodLogs), adminId, legacyLogs)
      ensures chatHistory == old(chatHistory)
      ensures legacyConfig == old(legacyConfig) && legacyLogs == old(legacyLogs)
    {
      if adminId !in users {
        users := users[adminId := User(None, true, true)];
      } else {
        users := users[adminId := users[adminId].(isAdmin := true, isActive := true)];
      }
      MigrateLegacyData(adminId, cycleLength, lastPeriodStart);
    }

    method MigrateLegacyData(adminId: int, defaultCycleLength: int, defaultLastPeriod: int)
      requires Valid() && adminId in users
      modifies this
      ensures Valid()
      ensures configs == MigratedConfigs(old(configs), adminId, legacyConfig,
                                         CycleConfig(defaultCycleLength, defaultLastPeriod))
      ensures moodLogs == MigratedLogs(old(moodLogs), adminId, legacyLogs)
      ensures users == old(users) && chatHistory == old(chatHistory)
      ensures legacyConfig == old(legacyConfig) && legacyLogs == old(legacyLogs)
    {
      if adminId !in configs {
        if legacyConfig.Some? {
          configs := configs[adminId := legacyConfig.value];
        } else {
          configs := configs[adminId := CycleConfig(defaultCycleLength, defaultLastPeriod)];
        }
      }
      if LogsOf(moodLogs, adminId) == [] {
        for i := 0 to |legacyLogs|
          invariant Valid() && users == old(users) && chatHistory == old(chatHistory)
          invariant legacyConfig == old(legacyConfig) && legacyLogs == old(legacyLogs)
          invariant configs == MigratedConfigs(old(configs), adminId, legacyConfig,
                                               CycleConfig(defaultCycleLength, defaultLastPeriod))
          invariant moodLogs == if i == 0 then old(moodLogs) else old(moodLogs)[adminId := legacyLogs[..i]]
        {
          var log := legacyLogs[i];
          AddUserLog(adminId, log.note, log.phase, log.date);
          assert legacyLogs[..i + 1] == legacyLogs[..i] + [log];
        }
        assert legacyLogs[..|legacyLogs|] == legacyLogs;
      }
    }

    // -- User management

    /** Insert an active non-admin user, or reactivate an existing one and record who added it. */
    method AddUser(chatId: int, addedBy: int)
      requires Valid()
      modifies this`users
      ensures Valid()
      ensures chatId in users && users[chatId].isActive
      ensures users[chatId].addedBy == Some(addedBy)
      ensures users[chatId].isAdmin == (chatId in old(users) && old(users)[chatId].isAdmin)
      ensures users == old(users)[chatId := users[chatId]]
    {
      if chatId in users {
        users := users[chatId := users[chatId].(isActive := true, addedBy := Some(addedBy))];
      } else {
        users := users[chatId := User(Some(addedBy), false, true)];
      }
    }

    /** Soft delete: the row stays and only its active flag is cleared. */
    method RemoveUser(chatId: int)
      requires Valid()
      modifies this`users
      ensures Valid()
      ensures !IsUserAuthorized(chatId)
      ensures users.Keys == old(users).Keys
      ensures chatId in users ==> users[chatId] == old(users)[chatId].(isActive := false)
      ensures forall c :: c in users && c != chatId ==> users[c] == old(users)[c]
    {
      if chatId in users {
        users := users[chatId := users[chatId].(isActive := false)];
      }
    }

    /** A row exists for the chat and is active; a deactivated user stays on the whitelist. */
    predicate IsUserAuthorized(chatId: int): (r: bool)
      reads this
      ensures r ==> chatId in users
      ensures chatId in users ==> (r <==> users[chatId].isActive)
    {
      chatId in users && users[chatId].isActive
    }

    /** An admin is an active user with the admin flag; a deactivated admin is no admin. */
    predicate IsAdmin(chatId: int): (r: bool)
      reads this
      ensures r ==> IsUserAuthorized(chatId)
      ensures IsUserAuthorized(chatId) ==> (r <==> users[chatId].isAdmin)
    {
      chatId in users && users[chatId].isAdmin && users[chatId].isActive
    }

    /** Every active user once; the order of the rows is not modelled. */
    method GetAllActiveUsers() returns (ids: seq<int>)
      ensures forall c :: c in ids <==> IsUserAuthorized(c)
      ensures forall i, j :: 0 <= i < j < |ids| ==> ids[i] != ids[j]
    {
      ids := ListOf(set c | c in users && users[c].isActive);
    }

    /** Every user, active or not, once; the order of the rows is not modelled. */
    method GetAllWhitelistedUsers() returns (ids: seq<int>)
      ensures forall c :: c in ids <==> c in users
      ensures forall i, j :: 0 <= i < j < |ids| ==> ids[i] != ids[j]
    {
      ids := ListOf(users.Keys);
    }

    // -- Per-user cycle config

    /** The chat's config row, if there is one; under the foreign keys it belongs to a known user. */
    function GetUserConfig(chatId: int): (r: Option<CycleConfig>)
      reads this
      ensures r.Some? <==> chatId in configs
      ensures r.Some? ==> r.value == configs[chatId]
      ensures Valid() && r.Some? ==> chatId in users
    {
      if chatId in configs then Some(configs[chatId]) else None
    }

    predicate UserHasConfig(chatId: int): (r: bool)
      reads this
      ensures r <==> chatId in configs
    {
      GetUserConfig(chatId) != None
    }

    method UpsertUserConfig(chatId: int, cycleLength: int, lastPeriodDate: int)
      requires Valid() && chatId in users
      modifies this`configs
      ensures Valid()
      ensures GetUserConfig(chatId) == Some(CycleConfig(cycleLength, lastPeriodDate))
      ensures configs == old(configs)[chatId := CycleConfig(cycleLength, lastPeriodDate)]
    {
      configs := configs[chatId := CycleConfig(cycleLength, lastPeriodDate)];
    }

    /** Changes only the cycle length, and only of a chat that has a config. */
    method UpdateUserCycleLength(chatId: int, cycleLength: int)
      requires Valid()
      modifies this`configs
      ensures Valid()
      ensures configs.Keys == old(configs).Keys
      ensures chatId in configs ==> configs[chatId] == old(configs)[chatId].(cycleLength := cycleLength)
      ensures forall c :: c in configs && c != chatId ==> configs[c] == old(configs)[c]
    {
      if chatId in configs {
        configs := configs[chatId := configs[chatId].(cycleLength := cycleLength)];
      }
    }

    /** Changes only the last-period date, and only of a chat that has a config. */
    method UpdateUserLastPeriodDate(chatId: int, lastPeriodDate: int)
      requires Valid()
      modifies this`configs
      ensures Valid()
      ensures configs.Keys == old(configs).Keys
      ensures chatId in configs ==> configs[chatId] == old(configs)[chatId].(lastPeriodDate := lastPeriodDate)
      ensures forall c :: c in configs && c != chatId ==> configs[c] == old(configs)[c]
    {
      if chatId in configs {
        configs := configs[chatId := configs[chatId].(lastPeriodDate := lastPeriodDate)];
      }
    }

    // -- Per-user mood logs

    method AddUserLog(chatId: int, note: string, phase: Option<string>, date: int)
      requires Valid() && chatId in users
      modifies this`moodLogs
      ensures Valid()
      ensures moodLogs == old(moodLogs)[chatId := LogsOf(old(moodLogs), chatId) + [MoodLog(date, note, phase)]]
    {
      moodLogs := moodLogs[chatId := LogsOf(moodLogs, chatId) + [MoodLog(date, note, phase)]];
    }

    /** The chat's newest `limit` logs, newest first. */
    function GetUserRecentLogs(chatId: int, limit: int): (r: seq<MoodLog>)
      reads this
      ensures var logs := LogsOf(moodLogs, chatId);
              |r| == LimitCount(limit, |logs|) &&
              forall i :: 0 <= i < |r| ==> r[i] == logs[|logs| - 1 - i]
    {
      Reverse(Newest(LogsOf(moodLogs, chatId), limit))
    }

    function GetUserLogsForDate(chatId: int, date: int): seq<MoodLog>
      reads this
    {
      LogsDated(LogsOf(moodLogs, chatId), date)
    }

    // -- Chat history

    function HistoryOf(chatId: int): seq<ChatMessage>
      reads this
    {
      if chatId in chatHistory then chatHistory[chatId] else []
    }

    method AddChatMessage(chatId: int, role: Role, content: string)
      requires Valid() && chatId in users
      modifies this`chatHistory
      ensures Valid()
      ensures chatHistory == old(chatHistory)[chatId := old(HistoryOf(chatId)) + [ChatMessage(role, content)]]
    {
      chatHistory := chatHistory[chatId := HistoryOf(chatId) + [ChatMessage(role, content)]];
    }

    /** The chat's newest `limit` messages, oldest first. */
    function GetChatHistory(chatId: int, limit: int): (r: seq<ChatMessage>)
      reads this
      ensures |r| == LimitCount(limit, |HistoryOf(chatId)|)
      ensures HistoryOf(chatId)[..|HistoryOf(chatId)| - |r|] + r == HistoryOf(chatId)
    {
      Newest(HistoryOf(chatId), limit)
    }

    /** Keeps the chat's newest `keep` messages; other chats are untouched. */
    method PruneChatHistory(chatId: int, keep: int)
      requires Valid()
      modifies this`chatHistory
      ensures Valid()
      ensures HistoryOf(chatId) == Newest(old(HistoryOf(chatId)), keep)
      ensures forall c :: c != chatId ==> HistoryOf(c) == old(HistoryOf(c))
    {
      if chatId in chatHistory {
        chatHistory := chatHistory[chatId := Newest(chatHistory[chatId], keep)];
      }
    }

    method ClearChatHistory(chatId: int)
      requires Valid()
      modifies this`chatHistory
      ensures Valid()
      ensures HistoryOf(chatId) == []
      ensures forall c :: c != chatId ==> HistoryOf(c) == old(HistoryOf(c))
    {
      chatHistory := chatHistory - {chatId};
    }
  }

  /** The elements of a finite set, each once, in an unspecified order. */
  method ListOf(s: set<int>) returns (r: seq<int>)
    ensures forall c :: c in r <==> c in s
    ensures forall i, j :: 0 <= i < j < |r| ==> r[i] != r[j]
  {
    r := [];
    var rest := s;
    while rest != {}
      invariant forall c :: c in r <==> c in s && c !in rest
      invariant rest <= s
      invariant forall i, j :: 0 <= i < j < |r| ==> r[i] != r[j]
      decreases rest
    {
      EmptyOrHasElement(rest);
      var c :| c in rest;
      r := r + [c];
      rest := rest - {c};
    }
  }

  lemma EmptyOrHasElement(s: set<int>)
    ensures s == {} || exists x :: x in s
  {
    if forall x :: x !in s {
      assert s == {};
    }
  }
}
