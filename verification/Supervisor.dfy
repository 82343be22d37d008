/** The process table of the manager and one pass of its monitor over it. */
module Supervisor {
  import opened Prelude
  import opened RestartBudget
  import CommandLine

  datatype Config = Config(
    exchangeId: string, exchangeName: string,
    apiKey: Option<string>, secret: Option<string>, password: Option<string>, uid: Option<string>,
    enableRateLimit: bool, timeout: int, verbose: bool, sandbox: bool)

  /** How starting a subprocess ends; one that counts as started may be dead already, or not ready yet. */
  datatype Launch = SpawnFails | StartupTimeout | Started(startedAt: real, returncode: Option<int>)

  /** What the operating system shows the monitor about one entry during a pass. */
  datatype Observation = Observation(
    exit: Option<int>, rss: Option<real>, now: real, launch: Launch, recordedAt: real)

  datatype Settings = Settings(maxRssMb: int, autoRestart: bool, maxRestartsPerHour: int)

  /** The contents of a process object. */
  datatype Record = Record(config: Config, counter: Counter, rssMb: real, returncode: Option<int>, startedAt: real)

  /** A restart starts from the stored configuration, except that the sandbox flag is not passed on. */
  function RestartConfig(c: Config): Config {
    c.(sandbox := false)
  }

  /** The arguments a subprocess is started with. */
  function CommandOf(c: Config, broker: string): seq<string> {
    CommandLine.Command(c.exchangeId, c.exchangeName, broker, c.apiKey, c.secret, c.sandbox)
  }

  /** A started subprocess reads back the settings of its configuration. */
  lemma SubprocessReadsConfig(c: Config, broker: string)
    ensures CommandLine.Parse(CommandOf(c, broker)) ==
      CommandLine.Parsed(c.exchangeId, c.exchangeName,
        CommandLine.Options(broker, CommandLine.NonEmpty(c.apiKey), CommandLine.NonEmpty(c.secret), c.sandbox))
  {
    CommandLine.CommandRoundTrip(c.exchangeId, c.exchangeName, broker, c.apiKey, c.secret, c.sandbox);
  }

  /** A restarted subprocess sees the same settings as the first one exactly when the sandbox was off. */
  lemma RestartKeepsSettingsIff(c: Config, broker: string)
    ensures CommandLine.Parse(CommandOf(RestartConfig(c), broker)) == CommandLine.Parse(CommandOf(c, broker)) <==>
      !c.sandbox
  {
    SubprocessReadsConfig(c, broker);
    SubprocessReadsConfig(RestartConfig(c), broker);
  }

  /** What becomes of an entry in a pass: the same object, a new object under the same id, or none. */
  datatype Fate = Kept(record: Record) | Replaced(record: Record) | Removed

  /** `_restart_exchange` on an entry: a new object with the counter one up, or none. */
  function Relaunched(p: Record, counter: Counter, launch: Launch, recordedAt: real): Fate {
    if launch.Started? then
      Replaced(Record(
        RestartConfig(p.config), Recorded(counter, recordedAt), 0.0, launch.returncode, launch.startedAt))
    else Removed
  }

  /** The entry is dead when the monitor looks at it. */
  predicate ObservedDead(p: Record, o: Observation) {
    p.returncode.Some? || o.exit.Some?
  }

  /** The memory reading of a live process; a failed one counts as zero. */
  function Reading(rss: Option<real>): real {
    if rss.Some? then rss.value else 0.0
  }

  function Examined(p: Record, o: Observation, s: Settings): Fate {
    if ObservedDead(p, o) then
      var (allowed, counter) := ShouldRestart(p.counter, s.maxRestartsPerHour, o.now);
      if s.autoRestart && allowed then Relaunched(p, counter, o.launch, o.recordedAt) else Removed
    else if Reading(o.rss) > s.maxRssMb as real && s.autoRestart then
      Relaunched(p, p.counter, o.launch, o.recordedAt)
    else Kept(p.(rssMb := Reading(o.rss)))
  }

  /** The pass wants a new process for the entry: it crashed within its budget, or uses too much memory. */
  predicate WantsRestart(p: Record, o: Observation, s: Settings) {
    s.autoRestart &&
      if ObservedDead(p, o) then ShouldRestart(p.counter, s.maxRestartsPerHour, o.now).0
      else Reading(o.rss) > s.maxRssMb as real
  }

  /**
   Which entry is kept, replaced or removed, and with what: no dead object is kept, a live one
   within its memory limit always is, with the same configuration and counter, and a
   replacement carries the counter its restart is charged to.
   */
  lemma FateOfEntry(p: Record, o: Observation, s: Settings)
    ensures Examined(p, o, s).Kept? <==> !ObservedDead(p, o) && (Reading(o.rss) <= s.maxRssMb as real || !s.autoRestart)
    ensures Examined(p, o, s).Replaced? <==> WantsRestart(p, o, s) && o.launch.Started?
    ensures Examined(p, o, s).Kept? ==> Examined(p, o, s).record == p.(rssMb := Reading(o.rss))
    ensures Examined(p, o, s).Replaced? ==>
      var r := Examined(p, o, s).record;
      && r.counter == After(p.counter, Restart(ObservedDead(p, o), o.now, o.recordedAt), s.maxRestartsPerHour)
      && r.config == p.config.(sandbox := false)
      && r.returncode == o.launch.returncode && r.startedAt == o.launch.startedAt && r.rssMb == 0.0
  {
  }

  // ---------------------------------------------------------------- the history of one id

  /**
   What happens to one exchange id, in order: the monitor passes over it, a restart is asked
   for by a REST call or an administrator, or it is started or stopped through the API. Only
   the monitor asks for the budget.
   */
  datatype Turn =
    | Pass(o: Observation)
    | Manual(decided: real, launch: Launch, recordedAt: real)
    | Start(config: Config, launch: Launch)
    | Stop

  function Survivor(fate: Fate): Option<Record> {
    if fate.Removed? then None else Some(fate.record)
  }

  function Restarted(entry: Option<Record>, launch: Launch, recordedAt: real): Option<Record> {
    if entry.Some? then Survivor(Relaunched(entry.value, entry.value.counter, launch, recordedAt)) else None
  }

  /** The table entry under the id after one turn. */
  function EntryNext(entry: Option<Record>, t: Turn, s: Settings): Option<Record> {
    match t
    case Pass(o) => if entry.Some? then Survivor(Examined(entry.value, o, s)) else None
    case Manual(_, launch, recordedAt) => Restarted(entry, launch, recordedAt)
    case Start(config, launch) =>
      if entry.Some? then entry
      else if launch.Started? then Some(Record(config, FRESH, 0.0, launch.returncode, launch.startedAt))
      else None
    case Stop => None
  }

  function EntryAfter(turns: seq<Turn>, s: Settings): Option<Record> {
    if turns == [] then None else EntryNext(EntryAfter(turns[..|turns| - 1], s), turns[|turns| - 1], s)
  }

  /** The restart that a turn brings about, if any. */
  function RestartBy(entry: Option<Record>, t: Turn, s: Settings): Option<Restart> {
    match t
    case Pass(o) =>
      if entry.Some? && Examined(entry.value, o, s).Replaced? then
        Some(Restart(ObservedDead(entry.value, o), o.now, o.recordedAt))
      else None
    case Manual(decided, launch, recordedAt) =>
      if entry.Some? && launch.Started? then Some(Restart(false, decided, recordedAt)) else None
    case _ => None
  }

  predicate Begins(entry: Option<Record>, t: Turn) {
    t.Start? && entry.None? && t.launch.Started?
  }

  /** The restarts since the exchange was last started through the API. */
  function ChainAfter(turns: seq<Turn>, s: Settings): seq<Restart> {
    if turns == [] then []
    else
      var earlier, t := turns[..|turns| - 1], turns[|turns| - 1];
      var entry := EntryAfter(earlier, s);
      if Begins(entry, t) then []
      else if RestartBy(entry, t, s).Some? then ChainAfter(earlier, s) + [RestartBy(entry, t, s).value]
      else ChainAfter(earlier, s)
  }

  /** All crash restarts of the history recorded in the hour that begins at `from`. */
  function AllCrashesIn(turns: seq<Turn>, s: Settings, from: real): nat {
    if turns == [] then 0
    else
      var earlier, t := turns[..|turns| - 1], turns[|turns| - 1];
      var e := RestartBy(EntryAfter(earlier, s), t, s);
      AllCrashesIn(earlier, s, from) + (if e.Some? && e.value.crash && InWindow(e.value, from) then 1 else 0)
  }

  /** How often the exchange was started through the API in that hour. */
  function StartsIn(turns: seq<Turn>, s: Settings, from: real): nat {
    if turns == [] then 0
    else
      var earlier, t := turns[..|turns| - 1], turns[|turns| - 1];
      StartsIn(earlier, s, from) +
        (if Begins(EntryAfter(earlier, s), t) && from <= t.launch.startedAt < from + HOUR then 1 else 0)
  }

  /** The time a turn begins and the time it is over, for the turns that look at the clock. */
  function Span(t: Turn): Option<(real, real)> {
    match t
    case Pass(o) => Some((o.now, o.recordedAt))
    case Manual(decided, _, recordedAt) => Some((decided, recordedAt))
    case Start(_, launch) => if launch.Started? then Some((launch.startedAt, launch.startedAt)) else None
    case Stop => None
  }

  function Clock(turns: seq<Turn>): Option<real> {
    if turns == [] then None
    else if Span(turns[|turns| - 1]).Some? then Some(Span(turns[|turns| - 1]).value.1)
    else Clock(turns[..|turns| - 1])
  }

  /** Turns of one id do not overlap and the clock does not run back. */
  predicate Clocked(turns: seq<Turn>) {
    turns != [] ==>
      var earlier, span := turns[..|turns| - 1], Span(turns[|turns| - 1]);
      && Clocked(earlier)
      && (span.Some? ==> span.value.0 <= span.value.1)
      && (span.Some? && Clock(earlier).Some? ==> Clock(earlier).value <= span.value.0)
  }

  /** The counter in the table is the counter of the chain, and the chain is one of RestartBudget. */
  predicate Budgeted(entry: Option<Record>, chain: seq<Restart>, clock: Option<real>, max: int) {
    && Chain(chain, max)
    && (chain != [] ==> clock.Some? && chain[|chain| - 1].recorded <= clock.value)
    && (entry.Some? ==> entry.value.counter == Counted(chain, max))
  }

  /** What a turn does to the counter in the table. */
  lemma CounterTurn(entry: Option<Record>, t: Turn, s: Settings)
    ensures var e, next := RestartBy(entry, t, s), EntryNext(entry, t, s);
      if e.Some? then
        && entry.Some? && next.Some? && next.value.counter == After(entry.value.counter, e.value, s.maxRestartsPerHour)
        && (e.value.crash ==> ShouldRestart(entry.value.counter, s.maxRestartsPerHour, e.value.decided).0)
        && Span(t) == Some((e.value.decided, e.value.recorded)) && !Begins(entry, t)
      else if Begins(entry, t) then next.Some? && next.value.counter == FRESH
      else next.Some? ==> entry.Some? && next.value.counter == entry.value.counter
  {
  }

  /** One turn keeps the table and the chain together. */
  lemma BudgetedTurn(turns: seq<Turn>, s: Settings)
    requires turns != [] && Clocked(turns)
    requires var earlier := turns[..|turns| - 1];
      Budgeted(EntryAfter(earlier, s), ChainAfter(earlier, s), Clock(earlier), s.maxRestartsPerHour)
    ensures Budgeted(EntryAfter(turns, s), ChainAfter(turns, s), Clock(turns), s.maxRestartsPerHour)
  {
    var earlier, t := turns[..|turns| - 1], turns[|turns| - 1];
    var entry, chain := EntryAfter(earlier, s), ChainAfter(earlier, s);
    var e := RestartBy(entry, t, s);
    CounterTurn(entry, t, s);
    if e.Some? {
      Append(chain, e.value, s.maxRestartsPerHour, 0.0);
      assert ChainAfter(turns, s) == chain + [e.value];
    } else {
      assert ChainAfter(turns, s) == if Begins(entry, t) then [] else chain;
    }
  }

  lemma {:induction false} BudgetedHistory(turns: seq<Turn>, s: Settings)
    requires Clocked(turns)
    ensures Budgeted(EntryAfter(turns, s), ChainAfter(turns, s), Clock(turns), s.maxRestartsPerHour)
  {
    if turns != [] {
      BudgetedHistory(turns[..|turns| - 1], s);
      BudgetedTurn(turns, s);
    }
  }

  /** A budget of m for each of n lives of an exchange. */
  function Allowance(m: nat, n: nat): (a: nat)
    ensures a == m * n
  {
    if n == 0 then 0 else Allowance(m, n - 1) + m
  }

  /** Before the window there are no crashes in it, after it there is one more life, in it the chain counts. */
  predicate WithinAllowance(crashes: nat, recent: nat, clock: Option<real>, from: real, m: nat, starts: nat) {
    if clock.None? || clock.value < from then crashes == 0
    else if clock.value < from + HOUR then crashes <= Allowance(m, starts) + recent
    else crashes <= Allowance(m, starts + 1)
  }

  predicate Within(turns: seq<Turn>, s: Settings, from: real) {
    WithinAllowance(AllCrashesIn(turns, s, from), CrashesIn(ChainAfter(turns, s), from),
      Clock(turns), from, Max(1, s.maxRestartsPerHour), StartsIn(turns, s, from))
  }

  /** Time passes, and at its end a crash restart may be recorded. */
  lemma AllowanceKept(
    crashes: nat, recent: nat, clock: Option<real>, now: real, hit: nat, from: real, m: nat, starts: nat)
    requires WithinAllowance(crashes, recent, clock, from, m, starts)
    requires (clock.Some? ==> clock.value <= now) && recent + hit <= m
    requires hit > 0 ==> from <= now < from + HOUR
    ensures WithinAllowance(crashes + hit, recent + hit, Some(now), from, m, starts)
  {
  }

  /** A start begins a new chain, and brings its own budget when it falls into the window. */
  lemma AllowanceBegun(crashes: nat, recent: nat, clock: Option<real>, at: real, from: real, m: nat, starts: nat)
    requires WithinAllowance(crashes, recent, clock, from, m, starts)
    requires (clock.Some? ==> clock.value <= at) && recent <= m
    ensures WithinAllowance(crashes, 0, Some(at), from, m, starts + (if from <= at < from + HOUR then 1 else 0))
  {
  }

  lemma AllowanceTurn(turns: seq<Turn>, s: Settings, from: real)
    requires turns != [] && Clocked(turns)
    requires CrashesIn(ChainAfter(turns[..|turns| - 1], s), from) <= Max(1, s.maxRestartsPerHour)
    requires CrashesIn(ChainAfter(turns, s), from) <= Max(1, s.maxRestartsPerHour)
    requires Within(turns[..|turns| - 1], s, from)
    ensures Within(turns, s, from)
  {
    var earlier, t := turns[..|turns| - 1], turns[|turns| - 1];
    var m, entry, chain := Max(1, s.maxRestartsPerHour), EntryAfter(earlier, s), ChainAfter(earlier, s);
    var crashes, starts := AllCrashesIn(earlier, s, from), StartsIn(earlier, s, from);
    if Begins(entry, t) {
      AllowanceBegun(crashes, CrashesIn(chain, from), Clock(earlier), t.launch.startedAt, from, m, starts);
    } else if Span(t).Some? {
      var e := RestartBy(entry, t, s);
      var hit := if e.Some? && e.value.crash && InWindow(e.value, from) then 1 else 0;
      if e.Some? {
        Append(chain, e.value, s.maxRestartsPerHour, from);
      }
      AllowanceKept(crashes, CrashesIn(chain, from), Clock(earlier), Span(t).value.1, hit, from, m, starts);
    }
  }

  lemma {:induction false} CrashesPerStart(turns: seq<Turn>, s: Settings, from: real)
    requires Clocked(turns)
    ensures Within(turns, s, from)
  {
    if turns != [] {
      var earlier := turns[..|turns| - 1];
      CrashesPerStart(earlier, s, from);
      BudgetedHistory(earlier, s);
      WindowBound(ChainAfter(earlier, s), s.maxRestartsPerHour, from);
      BudgetedHistory(turns, s);
      WindowBound(ChainAfter(turns, s), s.maxRestartsPerHour, from);
      AllowanceTurn(turns, s, from);
    }
  }

  /**
   The table keeps the budget over any history of one exchange: passes that keep, replace or
   remove the entry, manual restarts, starts and stops, in any order. With the budget
   m = max(1, max_restarts_per_hour): the entry always holds the counter of the restarts since
   the last start, every hour of these holds at most m crash restarts, and every hour of the
   whole history at most m, and m more for each start through the API within that hour.
   */
  lemma MonitorKeepsBudget(turns: seq<Turn>, s: Settings, from: real)
    requires Clocked(turns)
    ensures Chain(ChainAfter(turns, s), s.maxRestartsPerHour)
    ensures EntryAfter(turns, s).Some? ==>
      EntryAfter(turns, s).value.counter == Counted(ChainAfter(turns, s), s.maxRestartsPerHour)
    ensures CrashesIn(ChainAfter(turns, s), from) <= Max(1, s.maxRestartsPerHour)
    ensures AllCrashesIn(turns, s, from) <= Allowance(Max(1, s.maxRestartsPerHour), 1 + StartsIn(turns, s, from))
  {
    BudgetedHistory(turns, s);
    WindowBound(ChainAfter(turns, s), s.maxRestartsPerHour, from);
    CrashesPerStart(turns, s, from);
  }

  // ---------------------------------------------------------------- the objects

  class ExchangeProcess {
    const exchangeId: string
    const config: Config
    const startedAt: real
    var restartCount: nat
    var lastRestart: Option<real>
    var rssMb: real
    var returncode: Option<int>

    constructor (config: Config, startedAt: real, returncode: Option<int>)
      ensures exchangeId == config.exchangeId
      ensures Contents() == Record(config, FRESH, 0.0, returncode, startedAt)
    {
      exchangeId := config.exchangeId;
      this.config := config;
      this.startedAt := startedAt;
      restartCount, lastRestart := 0, None;
      rssMb := 0.0;
      this.returncode := returncode;
    }

    function Contents(): Record
      reads this
    {
      Record(config, Counter(restartCount, lastRestart), rssMb, returncode, startedAt)
    }

    method ShouldRestart(maxRestartsPerHour: int, now: real) returns (allowed: bool)
      modifies this
      ensures var (verdict, left) := RestartBudget.ShouldRestart(old(Contents()).counter, maxRestartsPerHour, now);
        allowed == verdict && Contents() == old(Contents()).(counter := left)
    {
      if restartCount >= maxRestartsPerHour {
        if lastRestart.Some? {
          var elapsed := now - lastRestart.value;
          if elapsed < HOUR {
            return false;
          }
          restartCount := 0;
          lastRestart := None;
        }
      }
      return true;
    }

    method UpdateMemory(reading: Option<real>)
      modifies this
      ensures Contents() ==
        if old(returncode).Some? then old(Contents())
        else old(Contents()).(rssMb := match reading case Some(v) => v case None => 0.0)
    {
      if returncode.Some? {
        return;
      }
      rssMb := Reading(reading);
    }
  }

  class ProcessManager {
    const settings: Settings
    const brokerAddress: string
    var processes: map<string, ExchangeProcess>
    /** The command lines handed to the operating system so far. */
    var spawned: seq<seq<string>>

    constructor (settings: Settings, brokerAddress: string)
      ensures processes == map[] && spawned == []
      ensures this.settings == settings && this.brokerAddress == brokerAddress
    {
      this.settings := settings;
      this.brokerAddress := brokerAddress;
      processes, spawned := map[], [];
    }

    /** Every object is filed under its own id, and will restart under it. */
    ghost predicate Valid()
      reads this
    {
      forall id :: id in processes ==> processes[id].exchangeId == id && processes[id].config.exchangeId == id
    }

    /** The record filed under an id. */
    ghost function EntryAt(id: string): Option<Record>
      reads this, processes.Values
    {
      if id in processes then Some(processes[id].Contents()) else None
    }

    method StartExchange(config: Config, launch: Launch) returns (started: bool)
      requires Valid()
      modifies this
      ensures Valid()
      ensures started == (config.exchangeId !in old(processes) && launch.Started?)
      ensures spawned ==
        old(spawned) + if config.exchangeId in old(processes) then [] else [CommandOf(config, brokerAddress)]
      ensures !started ==> processes == old(processes)
      ensures EntryAt(config.exchangeId) ==
        EntryNext(old(EntryAt(config.exchangeId)), Start(config, launch), settings)
      ensures started ==>
        && config.exchangeId in processes && fresh(processes[config.exchangeId])
        && processes == old(processes)[config.exchangeId := processes[config.exchangeId]]
        && processes[config.exchangeId].Contents() == Record(config, FRESH, 0.0, launch.returncode, launch.startedAt)
    {
      if config.exchangeId in processes {
        return false;
      }
      var cmd := CommandLine.BuildCommand(
        config.exchangeId, config.exchangeName, brokerAddress, config.apiKey, config.secret, config.sandbox);
      spawned := spawned + [cmd];
      match launch
      case SpawnFails =>
        return false;
      case StartupTimeout =>
        var process := new ExchangeProcess(config, 0.0, None);
        processes := processes[config.exchangeId := process];
        CleanupProcess(config.exchangeId);
        return false;
      case Started(startedAt, returncode) =>
        var process := new ExchangeProcess(config, startedAt, returncode);
        processes := processes[config.exchangeId := process];
        return true;
    }

    method CleanupProcess(exchangeId: string)
      requires Valid()
      modifies this`processes
      ensures Valid() && processes == old(processes) - {exchangeId}
    {
      if exchangeId in processes {
        processes := processes - {exchangeId};
      }
    }

    /** Terminating the process may fail in any way; the entry goes in the `finally` block. */
    method StopExchange(exchangeId: string)
      requires Valid()
      modifies this`processes
      ensures Valid() && processes == old(processes) - {exchangeId}
      ensures EntryAt(exchangeId) == EntryNext(old(EntryAt(exchangeId)), Stop, settings)
    {
      if exchangeId !in processes {
        return;
      }
      CleanupProcess(exchangeId);
    }

    method RestartExchange(exchangeId: string, launch: Launch, recordedAt: real)
      requires Valid()
      modifies this
      ensures Valid() && processes.Keys <= old(processes.Keys)
      ensures exchangeId !in old(processes) ==> processes == old(processes) && spawned == old(spawned)
      ensures exchangeId in old(processes) ==>
        spawned == old(spawned) + [CommandOf(RestartConfig(old(processes[exchangeId].config)), brokerAddress)]
      ensures forall id :: id in old(processes) && id != exchangeId ==>
        id in processes && processes[id] == old(processes[id])
      ensures exchangeId in processes ==> fresh(processes[exchangeId])
      ensures EntryAt(exchangeId) == Restarted(old(EntryAt(exchangeId)), launch, recordedAt)
    {
      if exchangeId !in processes {
        return;
      }
      var proc := processes[exchangeId];
      var config := RestartConfig(proc.config);
      StopExchange(exchangeId);
      var success := StartExchange(config, launch);
      if success {
        var newProc := processes[exchangeId];
        newProc.restartCount := proc.restartCount + 1;
        newProc.lastRestart := Some(recordedAt);
      }
    }

    /** What the table holds at id, now that the pass is done with the entry that was there. */
    ghost predicate Settled(id: string, before: ExchangeProcess, fate: Fate)
      reads this, processes.Values
    {
      match fate
      case Removed => id !in processes
      case Kept(r) => id in processes && processes[id] == before && processes[id].Contents() == r
      case Replaced(r) => id in processes && processes[id] != before && processes[id].Contents() == r
    }

    method CheckProcess(exchangeId: string, o: Observation)
      requires Valid() && exchangeId in processes
      modifies this, processes[exchangeId]
      ensures Valid() && processes.Keys <= old(processes.Keys)
      ensures forall id :: id in old(processes) && id != exchangeId ==>
        id in processes && processes[id] == old(processes[id])
      ensures Settled(exchangeId, old(processes[exchangeId]),
                Examined(old(processes[exchangeId].Contents()), o, settings))
      ensures exchangeId in processes && processes[exchangeId] != old(processes[exchangeId]) ==>
        fresh(processes[exchangeId])
      ensures var p := old(processes[exchangeId].Contents());
        spawned == old(spawned) +
          if WantsRestart(p, o, settings) then [CommandOf(RestartConfig(p.config), brokerAddress)] else []
    {
      var proc := processes[exchangeId];
      if proc.returncode.None? {
        proc.returncode := o.exit;
      }
      if proc.returncode.Some? {
        if settings.autoRestart {
          var allowed := proc.ShouldRestart(settings.maxRestartsPerHour, o.now);
          if allowed {
            RestartExchange(exchangeId, o.launch, o.recordedAt);
            return;
          }
        }
        CleanupProcess(exchangeId);
        return;
      }
      proc.UpdateMemory(o.rss);
      if proc.rssMb > settings.maxRssMb as real {
        if settings.autoRestart {
          RestartExchange(exchangeId, o.launch, o.recordedAt);
        }
      }
    }

    /** A pass under way: entries still to do are untouched, the others have met their fate. */
    ghost predicate Midway(todo: set<string>,
        objects: map<string, ExchangeProcess>, records: map<string, Record>, fates: map<string, Fate>)
      reads this, processes.Values
    {
      && objects.Keys == records.Keys == fates.Keys
      && todo <= processes.Keys <= objects.Keys
      && (forall id :: id in todo ==> processes[id] == objects[id] && processes[id].Contents() == records[id])
      && (forall id :: id in objects && id !in todo ==> Settled(id, objects[id], fates[id]))
    }

    method CheckNext(exchangeId: string, o: Observation, ghost todo: set<string>,
        ghost objects: map<string, ExchangeProcess>, ghost records: map<string, Record>, ghost fates: map<string, Fate>)
      requires Valid() && Midway(todo, objects, records, fates)
      requires exchangeId in todo && fates[exchangeId] == Examined(records[exchangeId], o, settings)
      modifies this, processes[exchangeId]
      ensures Valid() && Midway(todo - {exchangeId}, objects, records, fates)
      ensures forall id :: id in processes ==>
        (id in old(processes) && processes[id] == old(processes[id])) || fresh(processes[id])
    {
      CheckProcess(exchangeId, o);
      forall id | id in objects && id != exchangeId && id !in todo
        ensures Settled(id, objects[id], fates[id])
      {
        assert old(Settled(id, objects[id], fates[id]));
      }
    }

    method CheckEach(world: map<string, Observation>,
        ghost objects: map<string, ExchangeProcess>, ghost records: map<string, Record>, ghost fates: map<string, Fate>)
      requires Valid() && objects == processes && processes.Keys <= world.Keys
      requires Midway(processes.Keys, objects, records, fates)
      requires forall id {:trigger fates[id]} :: id in fates ==> fates[id] == Examined(records[id], world[id], settings)
      modifies this, processes.Values
      ensures Valid() && Midway({}, objects, records, fates)
      ensures forall id :: id in processes ==> processes[id] == objects[id] || fresh(processes[id])
    {
      var todo := processes.Keys;
      while todo != {}
        invariant Valid() && Midway(todo, objects, records, fates)
        invariant forall id :: id in processes ==> processes[id] == objects[id] || fresh(processes[id])
        decreases todo
      {
        var exchangeId :| exchangeId in todo;
        CheckNext(exchangeId, world[exchangeId], todo, objects, records, fates);
        todo := todo - {exchangeId};
      }
    }

    /**
     What the pass promises for one entry of the starting table. It keeps the very same object
     exactly when that is alive and within its memory limit, or nothing may be restarted; it
     holds a new object exactly when a restart was wanted and worked; otherwise the id is gone.
     A kept object only has its memory reading updated, a new one carries the counter its
     restart is charged to.
     */
    ghost predicate MetItsFate(id: string, before: ExchangeProcess, p: Record, o: Observation)
      reads this, processes.Values
    {
      var dead := p.returncode.Some? || o.exit.Some?;
      var rss := if o.rss.Some? then o.rss.value else 0.0;
      var over := rss > settings.maxRssMb as real;
      var wanted := settings.autoRestart &&
        if dead then ShouldRestart(p.counter, settings.maxRestartsPerHour, o.now).0 else over;
      && (id in processes && processes[id] == before <==> !dead && (!over || !settings.autoRestart))
      && (id in processes && processes[id] != before <==> wanted && o.launch.Started?)
      && (id in processes ==>
            var r := processes[id].Contents();
            if processes[id] == before then r == p.(rssMb := rss)
            else
              && r.counter == After(p.counter, Restart(dead, o.now, o.recordedAt), settings.maxRestartsPerHour)
              && r.config == p.config.(sandbox := false)
              && r.returncode == o.launch.returncode && r.startedAt == o.launch.startedAt && r.rssMb == 0.0)
    }

    lemma SettledAsPromised(id: string, before: ExchangeProcess, p: Record, o: Observation)
      requires Settled(id, before, Examined(p, o, settings))
      ensures MetItsFate(id, before, p, o)
      ensures EntryAt(id) == EntryNext(Some(p), Pass(o), settings)
    {
      FateOfEntry(p, o, settings);
    }

    /** One pass over a snapshot of the table. */
    method CheckSnapshot(world: map<string, Observation>, ghost records: map<string, Record>)
      requires Valid() && processes.Keys <= world.Keys && records.Keys == processes.Keys
      requires forall id :: id in processes ==> processes[id].Contents() == records[id]
      modifies this, processes.Values
      ensures Valid() && processes.Keys <= old(processes.Keys)
      ensures forall id :: id in records ==>
        MetItsFate(id, old(processes[id]), records[id], world[id]) &&
        EntryAt(id) == EntryNext(Some(records[id]), Pass(world[id]), settings)
      ensures forall id :: id in processes ==> processes[id] == old(processes[id]) || fresh(processes[id])
    {
      ghost var objects := processes;
      ghost var fates := map id | id in processes :: Examined(records[id], world[id], settings);
      CheckEach(world, objects, records, fates);
      forall id | id in objects
        ensures MetItsFate(id, objects[id], records[id], world[id])
        ensures EntryAt(id) == EntryNext(Some(records[id]), Pass(world[id]), settings)
      {
        assert Settled(id, objects[id], fates[id]);
        SettledAsPromised(id, objects[id], records[id], world[id]);
      }
    }

    /** One pass of the monitor: nothing else runs on the table meanwhile. */
    method CheckAllProcesses(world: map<string, Observation>)
      requires Valid() && processes.Keys <= world.Keys
      modifies this, processes.Values
      ensures Valid()
      ensures processes.Keys <= old(processes.Keys)
      ensures forall id :: id in old(processes) ==>
        && MetItsFate(id, old(processes[id]), old(processes[id].Contents()), world[id])
        && EntryAt(id) == EntryNext(old(EntryAt(id)), Pass(world[id]), settings)
      ensures forall id :: id in processes ==> processes[id] == old(processes[id]) || fresh(processes[id])
    {
      ghost var records := map id | id in processes :: processes[id].Contents();
      CheckSnapshot(world, records);
    }
  }
}
