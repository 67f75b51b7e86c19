/**
 * Model of `Logger.swift`, the delegate-based logger.
 *
 * A `Logger` holds its mutable configuration and a reference to a `Shared`
 * queue, the model of the class's one serial queue (`Shared.queue`): a FIFO
 * of pending handlers and the record of the handlers that have run. Every
 * `Logger` is meant to be given the same `Shared` object; nothing in the
 * model enforces that.
 * A handler writes the body, mirrors it to the system log when enabled,
 * calls the delegate when one is set, and finally calls the completion.
 */
module LoggerVariant {
  import opened Optional
  import opened Text

  // -----------------------------------------------------------------------
  // Levels

  /** `Logger.Level`, backed by `Int`. */
  datatype Level = Verbose | Info | Warning | Error

  /** `rawValue`. */
  function Rank(l: Level): (n: int)
    ensures 0 <= n < 4
  {
    match l
    case Verbose => 0
    case Info => 1
    case Warning => 2
    case Error => 3
  }

  /** `Level(rawValue:)`: the level with raw value `n`, if there is one. */
  function LevelFromRaw(n: int): (r: Option<Level>)
    ensures r.Some? <==> 0 <= n < 4
    ensures r.Some? ==> Rank(r.value) == n
  {
    if n == 0 then Some(Verbose)
    else if n == 1 then Some(Info)
    else if n == 2 then Some(Warning)
    else if n == 3 then Some(Error)
    else None
  }

  /** The display names, indexed by raw value. */
  const LevelNames: seq<string> := ["Verbose", "Info", "Warning", "Error"]

  /** `Level.description`. */
  function Description(l: Level): (name: string)
    ensures name == LevelNames[Rank(l)]
  {
    match l
    case Verbose => "Verbose"
    case Info => "Info"
    case Warning => "Warning"
    case Error => "Error"
  }

  /** Raw values are distinct, so comparing raw values totally orders the levels. */
  lemma RankInjective(a: Level, b: Level)
    ensures Rank(a) == Rank(b) <==> a == b
    ensures Rank(a) < Rank(b) || Rank(a) == Rank(b) || Rank(b) < Rank(a)
  {
  }

  /** Each raw value read back gives its level, and no two levels share a name. */
  lemma LevelRoundTrip(l: Level)
    ensures LevelFromRaw(Rank(l)) == Some(l)
    ensures forall m: Level :: Description(m) == Description(l) ==> m == l
  {
  }

  /** The setter of `primitiveThresholdLevel`: the level of raw value `n`, Verbose when out of range. */
  function ThresholdFromPrimitive(n: int): (l: Level)
    ensures 0 <= n < 4 ==> Rank(l) == n
    ensures !(0 <= n < 4) ==> l == Verbose
  {
    LevelFromRaw(n).GetOr(Verbose)
  }

  // -----------------------------------------------------------------------
  // Formatting

  /** The formatter closure: (message, tag, levelString, functionName, file, line) to body. */
  type Formatter = (string, string, string, string, string, int) -> string

  /** The message a handler works with: `message ?? "(null)"`. */
  function MessageText(message: Option<string>): (m: string)
    ensures message.Some? ==> m == message.value
    ensures message.None? ==> m == "(null)"
  {
    message.GetOr("(null)")
  }

  /** The file name shown in the default body: the last '/'-separated component of `file`. */
  function FileBasename(file: string): (name: string)
    ensures '/' !in name
    ensures |name| <= |file| && file[|file| - |name|..] == name
    ensures |name| < |file| ==> file[|file| - |name| - 1] == '/'
    ensures '/' !in file ==> name == file
  {
    LastComponent(file, '/')
  }

  /**
   * The first line of the default body:
   * "<time> [<executable>|Plank] [<tag>|<level>] [<file basename> <function>:<line>]".
   */
  function DefaultHeader(now: string, executable: string, tag: string, level: Level,
                         functionName: string, file: string, line: int): (header: string)
    ensures |header| >= |now| && header[..|now|] == now
    ensures IsInfix(executable, header)
    ensures IsInfix(tag, header)
    ensures IsInfix(Description(level), header)
    ensures IsInfix(FileBasename(file), header)
    ensures IsInfix(functionName + ":" + IntToDecimal(line), header)
  {
    var parts := [now, " [", executable, "|Plank] [", tag, "|", Description(level), "] [",
                  FileBasename(file), " ", functionName + ":" + IntToDecimal(line), "]"];
    assert Concat(parts) == now + Concat(parts[1..]);
    ConcatInfix(parts, 2);
    ConcatInfix(parts, 4);
    ConcatInfix(parts, 6);
    ConcatInfix(parts, 8);
    ConcatInfix(parts, 10);
    Concat(parts)
  }

  /**
   * The default body: the header line, then the message on a line of its own.
   * It shows the tag, the level's name, the file's basename, function:line
   * and the message; the message is its last line.
   */
  function DefaultText(now: string, executable: string, tag: string, level: Level,
                       functionName: string, file: string, line: int, message: string): (body: string)
    ensures |body| >= |now| && body[..|now|] == now
    ensures IsInfix(executable, body)
    ensures IsInfix(tag, body)
    ensures IsInfix(Description(level), body)
    ensures IsInfix(FileBasename(file), body)
    ensures IsInfix(functionName + ":" + IntToDecimal(line), body)
    ensures IsInfix(message, body)
    ensures |body| >= |message| + 2
    ensures body[|body| - |message| - 2..] == "\n" + message + "\n"
  {
    var header := DefaultHeader(now, executable, tag, level, functionName, file, line);
    var tail := "\n" + message + "\n";
    InfixAppend(executable, header, tail);
    InfixAppend(tag, header, tail);
    InfixAppend(Description(level), header, tail);
    InfixAppend(FileBasename(file), header, tail);
    InfixAppend(functionName + ":" + IntToDecimal(line), header, tail);
    LastLine(header, message);
    header + tail
  }

  /** The configuration a handler reads from its logger when it runs. */
  datatype Settings = Settings(tag: string, systemLogEnabled: bool, hasDelegate: bool, formatter: Option<Formatter>)

  /** `logText`: the custom formatter's result verbatim, otherwise the default body. */
  function LogText(s: Settings, message: string, level: Level, functionName: string, file: string, line: int,
                   now: string, executable: string): (body: string)
    ensures s.formatter.Some? ==> body == s.formatter.value(message, s.tag, Description(level), functionName, file, line)
    ensures s.formatter.None? ==> |body| >= |now| && body[..|now|] == now && IsInfix(executable, body)
    ensures s.formatter.None? ==> IsInfix(s.tag, body) && IsInfix(Description(level), body)
    ensures s.formatter.None? ==> IsInfix(FileBasename(file), body) && IsInfix(functionName + ":" + IntToDecimal(line), body)
    ensures s.formatter.None? ==> IsInfix(message, body)
  {
    if s.formatter.Some? then
      s.formatter.value(message, s.tag, Description(level), functionName, file, line)
    else
      DefaultText(now, executable, s.tag, level, functionName, file, line, message)
  }

  // -----------------------------------------------------------------------
  // The handler

  /** What one call of `log` captures: its arguments. */
  datatype Request = Request(message: Option<string>, level: Level, hasCompletion: bool,
                             functionName: string, file: string, line: int)

  /** The side effects of a handler, in the order they happen. */
  datatype Event =
    | Write(body: string)                        // println
    | SystemLog(body: string, rank: int)         // systemLogger.logMessage(_, level:)
    | Delegated(message: string, body: string)   // delegate?.logger(_, didLog:, body:)
    | Completion                                 // completion!()

  /** The position of an event kind within a handler. */
  function Phase(e: Event): nat
  {
    match e
    case Write(_) => 0
    case SystemLog(_, _) => 1
    case Delegated(_, _) => 2
    case Completion => 3
  }

  /** The body a handler writes for `req` under settings `s`. */
  function Body(req: Request, s: Settings, now: string, executable: string): string
  {
    LogText(s, MessageText(req.message), req.level, req.functionName, req.file, req.line, now, executable)
  }

  /**
   * The side effects of one handler that logs `message` with `body` at raw
   * level `rank`: the write, the system-log mirror if `mirror`, the delegate
   * call if `notify`, the completion if `complete`.
   */
  function Effects(message: string, body: string, rank: int, mirror: bool, notify: bool, complete: bool): (events: seq<Event>)
    ensures |events| == 1 + (if mirror then 1 else 0) + (if notify then 1 else 0) + (if complete then 1 else 0)
    ensures events[0] == Write(body)
  {
    var written := [Write(body)];
    var mirrored := if mirror then written + [SystemLog(body, rank)] else written;
    var notified := if notify then mirrored + [Delegated(message, body)] else mirrored;
    if complete then notified + [Completion] else notified
  }

  /** The events a handler produces before its completion. */
  function Prelude(message: string, body: string, rank: int, mirror: bool, notify: bool): (events: seq<Event>)
    ensures Effects(message, body, rank, mirror, notify, false) == events
  {
    var w, s, d := Write(body), SystemLog(body, rank), Delegated(message, body);
    if mirror && notify then [w, s, d] else if mirror then [w, s] else if notify then [w, d] else [w]
  }

  /**
   * A handler writes first, then mirrors to the system log, then calls the
   * delegate, then the completion: each kind at most once and in that order,
   * all carrying the body that was written.
   */
  lemma EffectsOrder(message: string, body: string, rank: int, mirror: bool, notify: bool, complete: bool)
    ensures var events := Effects(message, body, rank, mirror, notify, complete);
      && |events| >= 1 && events[0] == Write(body)
      && (forall i, j :: 0 <= i < j < |events| ==> Phase(events[i]) < Phase(events[j]))
      && (forall e :: e in events ==> e == Write(body) || e == SystemLog(body, rank) || e == Delegated(message, body) || e == Completion)
  {
    var before := Prelude(message, body, rank, mirror, notify);
    if complete {
      assert Effects(message, body, rank, mirror, notify, complete) == before + [Completion];
    }
  }

  /** A handler mirrors to the system log iff `mirror` and calls the delegate iff `notify`. */
  lemma EffectsPresence(message: string, body: string, rank: int, mirror: bool, notify: bool, complete: bool)
    ensures var events := Effects(message, body, rank, mirror, notify, complete);
      && (SystemLog(body, rank) in events <==> mirror)
      && (Delegated(message, body) in events <==> notify)
  {
    var before := Prelude(message, body, rank, mirror, notify);
    if complete {
      assert Effects(message, body, rank, mirror, notify, complete) == before + [Completion];
    }
  }

  /** A handler calls the completion exactly once, as its last effect, iff `complete`. */
  lemma EffectsCompleteOnce(message: string, body: string, rank: int, mirror: bool, notify: bool, complete: bool)
    ensures var events := Effects(message, body, rank, mirror, notify, complete);
      && Count(events, Completion) == (if complete then 1 else 0)
      && (complete ==> events[|events| - 1] == Completion)
  {
    var before := Prelude(message, body, rank, mirror, notify);
    assert Completion !in before;
    if complete {
      assert Effects(message, body, rank, mirror, notify, complete) == before + [Completion];
      CountAppend(before, [Completion], Completion);
    }
  }

  /** The events of the handler of `req` run with the logger's settings `s`. */
  function HandlerEvents(req: Request, s: Settings, now: string, executable: string): seq<Event>
  {
    Effects(MessageText(req.message), Body(req, s, now, executable), Rank(req.level),
            s.systemLogEnabled, s.hasDelegate, req.hasCompletion)
  }

  /**
   * The events of the handler of `req` run with the logger's settings `s`:
   * it writes the body first, mirrors it iff the system log is enabled,
   * calls the delegate iff one is set, and completes iff a completion was
   * supplied.
   */
  lemma HandlerEventsShape(req: Request, s: Settings, now: string, executable: string)
    ensures var events := HandlerEvents(req, s, now, executable);
      && |events| >= 1 && events[0] == Write(Body(req, s, now, executable))
      && (SystemLog(Body(req, s, now, executable), Rank(req.level)) in events <==> s.systemLogEnabled)
      && (Delegated(MessageText(req.message), Body(req, s, now, executable)) in events <==> s.hasDelegate)
      && (Completion in events <==> req.hasCompletion)
  {
    var message, body := MessageText(req.message), Body(req, s, now, executable);
    EffectsPresence(message, body, Rank(req.level), s.systemLogEnabled, s.hasDelegate, req.hasCompletion);
    EffectsCompleteOnce(message, body, Rank(req.level), s.systemLogEnabled, s.hasDelegate, req.hasCompletion);
  }

  // -----------------------------------------------------------------------
  // The shared serial queue

  /** A handler waiting on the queue: its submission number, its logger and its request. */
  datatype Job = Job(ticket: nat, owner: Logger, request: Request)

  /** A handler that has run: its job, the settings it read from its logger, and the events it produced. */
  datatype Run = Run(job: Job, seen: Settings, events: seq<Event>)

  /** A snapshot of the queue. */
  datatype Queue = Queue(pending: seq<Job>, runs: seq<Run>)

  /** How many events of `events` are delegate calls. */
  function DelegateCalls(events: seq<Event>): (n: nat)
    ensures n <= |events|
  {
    if events == [] then 0
    else DelegateCalls(events[..|events| - 1]) + (if events[|events| - 1].Delegated? then 1 else 0)
  }

  lemma {:induction false} DelegateCallsAppend(a: seq<Event>, b: seq<Event>)
    ensures DelegateCalls(a + b) == DelegateCalls(a) + DelegateCalls(b)
  {
    if b != [] {
      assert (a + b)[..|a + b| - 1] == a + b[..|b| - 1];
      DelegateCallsAppend(a, b[..|b| - 1]);
    } else {
      assert a + b == a;
    }
  }

  /** A handler calls the delegate once if one is set, and never otherwise. */
  lemma EffectsDelegateCalls(message: string, body: string, rank: int, mirror: bool, notify: bool, complete: bool)
    ensures DelegateCalls(Effects(message, body, rank, mirror, notify, complete)) == if notify then 1 else 0
  {
    var w, s, d := Write(body), SystemLog(body, rank), Delegated(message, body);
    var before := Prelude(message, body, rank, mirror, notify);
    assert DelegateCalls([w]) == 0;
    assert DelegateCalls([w, s]) == 0 by { assert [w, s][..1] == [w]; }
    assert DelegateCalls([w, d]) == 1 by { assert [w, d][..1] == [w]; }
    assert DelegateCalls([w, s, d]) == 1 by { assert [w, s, d][..2] == [w, s]; }
    if complete {
      assert Effects(message, body, rank, mirror, notify, complete) == before + [Completion];
      DelegateCallsAppend(before, [Completion]);
    }
  }

  /** How many of `runs` were asked to call a completion. */
  function CompletionsRequested(runs: seq<Run>): (n: nat)
    ensures n <= |runs|
  {
    if runs == [] then 0
    else CompletionsRequested(runs[..|runs| - 1]) + (if runs[|runs| - 1].job.request.hasCompletion then 1 else 0)
  }

  /**
   * The `Shared` struct: the serial queue every `Logger` uses, the bundle's
   * executable name, and the date formatter, seen here as `clock(n)`, the
   * formatted time at which the n-th handler runs.
   */
  class Shared {
    const executableName: string
    const clock: nat -> string
    var pending: seq<Job>
    var runs: seq<Run>

    /**
     * Handlers run one at a time in submission order: run i was ticket i,
     * its events are those of its request under the settings it read, at
     * time `clock(i)`; the queue holds the next tickets in order.
     */
    ghost predicate Valid()
      reads this
    {
      && (forall i :: 0 <= i < |runs| ==> runs[i].job.ticket == i)
      && (forall i :: 0 <= i < |runs| ==>
            runs[i].events == HandlerEvents(runs[i].job.request, runs[i].seen, clock(i), executableName))
      && (forall i :: 0 <= i < |pending| ==> pending[i].ticket == |runs| + i)
    }

    function NextTicket(): nat
      reads this
    {
      |runs| + |pending|
    }

    function State(): Queue
      reads this
    {
      Queue(pending, runs)
    }

    /** The run of `job`, reading its logger's configuration at the time it runs. */
    ghost function RunOf(job: Job): Run
      reads job.owner
    {
      Run(job, job.owner.CurrentSettings(), HandlerEvents(job.request, job.owner.CurrentSettings(), clock(job.ticket), executableName))
    }

    /**
     * A handler reads its logger's settings when it runs (the closure
     * captures the logger itself): the run records the job and those
     * settings, and writes the body formatted with them, and calls
     * the delegate iff one is set at that time.
     */
    lemma RunOfReadsSettings(job: Job)
      ensures RunOf(job).job == job && RunOf(job).seen == job.owner.CurrentSettings()
      ensures |RunOf(job).events| >= 1 && RunOf(job).events[0] == Write(Body(job.request, job.owner.CurrentSettings(), clock(job.ticket), executableName))
      ensures Delegated(MessageText(job.request.message),
                        Body(job.request, job.owner.CurrentSettings(), clock(job.ticket), executableName)) in RunOf(job).events
              <==> job.owner.hasDelegate
    {
      HandlerEventsShape(job.request, job.owner.CurrentSettings(), clock(job.ticket), executableName);
    }

    /** The runs of `jobs`, one after another. */
    ghost function RunsOf(jobs: seq<Job>): (rs: seq<Run>)
      reads set j | j in jobs :: j.owner
      ensures |rs| == |jobs|
      ensures forall i :: 0 <= i < |jobs| ==> rs[i] == RunOf(jobs[i])
    {
      if jobs == [] then []
      else
        var rest := RunsOf(jobs[1..]);
        assert forall i :: 1 <= i < |jobs| ==> jobs[1..][i - 1] == jobs[i];
        [RunOf(jobs[0])] + rest
    }

    /** The queue once every pending handler has run, oldest first. */
    ghost function Drained(q: Queue): Queue
      reads set j | j in q.pending :: j.owner
    {
      Queue([], q.runs + RunsOf(q.pending))
    }

    /**
     * The queue after a `log` call that built `job`: unchanged when the call
     * was filtered; `job` appended when asynchronous; when synchronous,
     * everything queued before it and then `job` itself has run.
     */
    ghost function Outcome(before: Queue, job: Job, admitted: bool, synchronous: bool): (after: Queue)
      reads job.owner, set j | j in before.pending :: j.owner
      ensures !admitted ==> after == before
      ensures admitted ==> |after.runs| + |after.pending| == |before.runs| + |before.pending| + 1
      ensures admitted ==> |before.runs| <= |after.runs| && after.runs[..|before.runs|] == before.runs
      ensures admitted && !synchronous ==> after.runs == before.runs && after.pending == before.pending + [job]
      ensures admitted && synchronous ==> after.pending == [] && |after.runs| >= 1 && after.runs[|after.runs| - 1] == RunOf(job)
    {
      if !admitted then before
      else if !synchronous then Queue(before.pending + [job], before.runs)
      else Drained(Queue(before.pending + [job], before.runs))
    }

    constructor (executableName: string, clock: nat -> string)
      ensures Valid()
      ensures this.executableName == executableName && this.clock == clock
      ensures pending == [] && runs == []
    {
      this.executableName := executableName;
      this.clock := clock;
      pending := [];
      runs := [];
    }

    /** `dispatch_async`: append a handler to the queue. */
    method Enqueue(job: Job)
      requires Valid() && job.ticket == NextTicket()
      modifies this
      ensures Valid()
      ensures pending == old(pending) + [job] && runs == old(runs)
    {
      pending := pending + [job];
    }

    /** The queue runs its oldest handler. */
    method RunNext()
      requires Valid() && pending != []
      modifies this
      ensures Valid()
      ensures pending == old(pending)[1..]
      ensures runs == old(runs) + [RunOf(old(pending)[0])]
    {
      var job := pending[0];
      var logger := job.owner;
      var req := job.request;
      var message := MessageText(req.message);
      var body := LogText(logger.CurrentSettings(), message, req.level, req.functionName, req.file, req.line,
                          clock(job.ticket), executableName);
      var events := [Write(body)];
      if logger.systemLogEnabled {
        events := events + [SystemLog(body, Rank(req.level))];
      }
      if logger.hasDelegate {
        events := events + [Delegated(message, body)];
      }
      if req.hasCompletion {
        events := events + [Completion];
      }
      runs := runs + [Run(job, logger.CurrentSettings(), events)];
      pending := pending[1..];
    }

    /** The queue runs every pending handler, oldest first. */
    method Drain()
      requires Valid()
      modifies this
      ensures Valid()
      ensures State() == Drained(old(State()))
    {
      ghost var done := 0;
      while pending != []
        invariant Valid()
        invariant 0 <= done <= |old(pending)|
        invariant pending == old(pending)[done..]
        invariant |runs| == |old(runs)| + done && runs[..|old(runs)|] == old(runs)
        invariant forall i :: 0 <= i < done ==> runs[|old(runs)| + i] == RunOf(old(pending)[i])
        decreases |pending|
      {
        RunNext();
        done := done + 1;
      }
      RunsExtended(old(runs), old(pending));
    }

    /** Runs recorded one by one for `jobs` after `earlier` are `earlier + RunsOf(jobs)`. */
    lemma RunsExtended(earlier: seq<Run>, jobs: seq<Job>)
      requires |runs| == |earlier| + |jobs| && runs[..|earlier|] == earlier
      requires forall i :: 0 <= i < |jobs| ==> runs[|earlier| + i] == RunOf(jobs[i])
      ensures runs == earlier + RunsOf(jobs)
    {
      var ran := RunsOf(jobs);
      assert |runs| == |earlier + ran|;
    }

    /** `dispatch_sync`: run everything queued so far, then `job`, before returning. */
    method RunSynchronously(job: Job)
      requires Valid() && job.ticket == NextTicket()
      modifies this
      ensures Valid()
      ensures State() == Drained(Queue(old(pending) + [job], old(runs)))
    {
      Enqueue(job);
      Drain();
    }
  }

  // -----------------------------------------------------------------------
  // The logger

  class Logger {
    /** `queue = Shared.queue`: every logger of the class is meant to be given the same object. */
    const shared: Shared
    var tag: string
    var enabled: bool
    var systemLogEnabled: bool
    var thresholdLevel: Level
    var synchronous: bool
    var formatter: Option<Formatter>
    /** Whether the weak `delegate` is set. */
    var hasDelegate: bool

    /** A new logger: empty tag, enabled, mirrored to the system log, threshold Warning, asynchronous, no formatter, no delegate. */
    constructor (shared: Shared)
      ensures this.shared == shared
      ensures tag == "" && enabled && systemLogEnabled && thresholdLevel == Warning
      ensures !synchronous && formatter == None && !hasDelegate
    {
      this.shared := shared;
      tag := "";
      enabled := true;
      systemLogEnabled := true;
      thresholdLevel := Warning;
      synchronous := false;
      formatter := None;
      hasDelegate := false;
    }

    function CurrentSettings(): Settings
      reads this
    {
      Settings(tag, systemLogEnabled, hasDelegate, formatter)
    }

    /** The getter of `primitiveThresholdLevel`. */
    function PrimitiveThresholdLevel(): (n: int)
      reads this
      ensures 0 <= n < 4 && LevelFromRaw(n) == Some(thresholdLevel)
    {
      Rank(thresholdLevel)
    }

    /** The setter of `primitiveThresholdLevel`: an out-of-range value selects Verbose. */
    method SetPrimitiveThresholdLevel(n: int)
      modifies this`thresholdLevel
      ensures thresholdLevel == ThresholdFromPrimitive(n)
      ensures PrimitiveThresholdLevel() == if 0 <= n < 4 then n else 0
    {
      thresholdLevel := LevelFromRaw(n).GetOr(Verbose);
    }

    /** `shouldLog`: enabled, and the level is at or above the threshold. */
    predicate ShouldLog(level: Level)
      reads this
      ensures ShouldLog(level) ==> enabled
      ensures ShouldLog(level) <==> enabled && Rank(level) >= Rank(thresholdLevel)
    {
      !(!enabled || Rank(level) < Rank(thresholdLevel))
    }

    /** The private `log`: filter, then hand a handler to the shared queue, waiting for it when synchronous. */
    method Log(message: Option<string>, level: Level, hasCompletion: bool, functionName: string, file: string, line: int)
      requires shared.Valid()
      modifies shared
      ensures shared.Valid()
      ensures shared.State() == shared.Outcome(old(shared.State()),
        Job(old(shared.NextTicket()), this, Request(message, level, hasCompletion, functionName, file, line)),
        ShouldLog(level), synchronous)
    {
      if !ShouldLog(level) {
        return;
      }
      var job := Job(shared.NextTicket(), this, Request(message, level, hasCompletion, functionName, file, line));
      if synchronous {
        shared.RunSynchronously(job);
      } else {
        shared.Enqueue(job);
      }
    }

    method LogError(message: Option<string>, hasCompletion: bool, functionName: string, file: string, line: int)
      requires shared.Valid()
      modifies shared
      ensures shared.Valid()
      ensures shared.State() == shared.Outcome(old(shared.State()),
        Job(old(shared.NextTicket()), this, Request(message, Error, hasCompletion, functionName, file, line)),
        ShouldLog(Error), synchronous)
    {
      Log(message, Error, hasCompletion, functionName, file, line);
    }

    method LogWarning(message: Option<string>, hasCompletion: bool, functionName: string, file: string, line: int)
      requires shared.Valid()
      modifies shared
      ensures shared.Valid()
      ensures shared.State() == shared.Outcome(old(shared.State()),
        Job(old(shared.NextTicket()), this, Request(message, Warning, hasCompletion, functionName, file, line)),
        ShouldLog(Warning), synchronous)
    {
      Log(message, Warning, hasCompletion, functionName, file, line);
    }

    method LogInfo(message: Option<string>, hasCompletion: bool, functionName: string, file: string, line: int)
      requires shared.Valid()
      modifies shared
      ensures shared.Valid()
      ensures shared.State() == shared.Outcome(old(shared.State()),
        Job(old(shared.NextTicket()), this, Request(message, Info, hasCompletion, functionName, file, line)),
        ShouldLog(Info), synchronous)
    {
      Log(message, Info, hasCompletion, functionName, file, line);
    }

    method LogVerbose(message: Option<string>, hasCompletion: bool, functionName: string, file: string, line: int)
      requires shared.Valid()
      modifies shared
      ensures shared.Valid()
      ensures shared.State() == shared.Outcome(old(shared.State()),
        Job(old(shared.NextTicket()), this, Request(message, Verbose, hasCompletion, functionName, file, line)),
        ShouldLog(Verbose), synchronous)
    {
      Log(message, Verbose, hasCompletion, functionName, file, line);
    }
  }

  // -----------------------------------------------------------------------
  // Properties of the emission pipeline

  /** The queue's tickets continue those of the handlers that have run. */
  ghost predicate Numbered(q: Queue)
  {
    forall i :: 0 <= i < |q.pending| ==> q.pending[i].ticket == |q.runs| + i
  }

  /** All events, in the order the handlers produced them. */
  function Trace(runs: seq<Run>): seq<Event>
  {
    if runs == [] then [] else Trace(runs[..|runs| - 1]) + runs[|runs| - 1].events
  }

  lemma {:induction false} TraceAppend(a: seq<Run>, b: seq<Run>)
    ensures Trace(a + b) == Trace(a) + Trace(b)
  {
    if b != [] {
      assert (a + b)[..|a + b| - 1] == a + b[..|b| - 1];
      TraceAppend(a, b[..|b| - 1]);
    } else {
      assert a + b == a;
    }
  }

  /**
   * A synchronous call returns after every handler queued before it and then
   * its own have run, in submission order; its run is the last one, under
   * its own ticket, and includes the completion when one was supplied.
   */
  lemma SynchronousLogRunsThrough(sh: Shared, before: Queue, job: Job)
    requires Numbered(before) && job.ticket == |before.runs| + |before.pending|
    ensures var after := sh.Outcome(before, job, true, true);
      && after.pending == []
      && |after.runs| == job.ticket + 1
      && after.runs[..|before.runs|] == before.runs
      && (forall i :: 0 <= i < |before.pending| ==> after.runs[|before.runs| + i] == sh.RunOf(before.pending[i]))
      && after.runs[job.ticket] == sh.RunOf(job)
      && (job.request.hasCompletion ==> after.runs[job.ticket].events[|after.runs[job.ticket].events| - 1] == Completion)
  {
    var req := job.request;
    var s := job.owner.CurrentSettings();
    EffectsCompleteOnce(MessageText(req.message), Body(req, s, sh.clock(job.ticket), sh.executableName),
                        Rank(req.level), s.systemLogEnabled, s.hasDelegate, req.hasCompletion);
  }

  /** An asynchronous call only appends its handler: nothing runs, so no delegate call or completion is visible yet. */
  lemma AsynchronousLogDefers(sh: Shared, before: Queue, job: Job)
    requires Numbered(before) && job.ticket == |before.runs| + |before.pending|
    ensures var after := sh.Outcome(before, job, true, false);
      && Numbered(after)
      && after.pending == before.pending + [job]
      && after.runs == before.runs
      && |after.runs| <= job.ticket
  {
  }

  /** Once the queue drains, an asynchronous call has had exactly the effect of a synchronous one. */
  lemma AsynchronousThenDrainIsSynchronous(sh: Shared, before: Queue, job: Job)
    ensures sh.Drained(sh.Outcome(before, job, true, false)) == sh.Outcome(before, job, true, true)
  {
  }

  /**
   * When a synchronous call returns, its logger's delegate has already been
   * called for it: its own run holds the delegate call with its message and
   * body, and the trace holds at least one more delegate call than before.
   */
  lemma SynchronousDelegateVisible(sh: Shared, before: Queue, job: Job)
    requires job.ticket == |before.runs| + |before.pending|
    requires job.owner.hasDelegate
    ensures Delegated(MessageText(job.request.message),
                      Body(job.request, job.owner.CurrentSettings(), sh.clock(job.ticket), sh.executableName))
            in sh.Outcome(before, job, true, true).runs[job.ticket].events
    ensures DelegateCalls(Trace(sh.Outcome(before, job, true, true).runs)) >= DelegateCalls(Trace(before.runs)) + 1
  {
    var earlier := sh.RunsOf(before.pending);
    var own := sh.RunOf(job);
    assert sh.RunsOf(before.pending + [job]) == earlier + [own];
    var after := sh.Outcome(before, job, true, true);
    assert after.runs == (before.runs + earlier) + [own];
    TraceAppend(before.runs, earlier);
    TraceAppend(before.runs + earlier, [own]);
    assert Trace([own]) == own.events by { assert [own][..0] == []; }
    DelegateCallsAppend(Trace(before.runs), Trace(earlier));
    DelegateCallsAppend(Trace(before.runs + earlier), own.events);
    var req := job.request;
    var s := job.owner.CurrentSettings();
    EffectsDelegateCalls(MessageText(req.message), Body(req, s, sh.clock(job.ticket), sh.executableName),
                         Rank(req.level), s.systemLogEnabled, s.hasDelegate, req.hasCompletion);
    EffectsPresence(MessageText(req.message), Body(req, s, sh.clock(job.ticket), sh.executableName),
                    Rank(req.level), s.systemLogEnabled, s.hasDelegate, req.hasCompletion);
    assert after.runs[job.ticket] == own;
  }

  /** Every handler that has run called its completion exactly once if one was supplied, and no other completion ran. */
  lemma {:induction false} CompletionsMatchRequests(runs: seq<Run>, clock: nat -> string, executable: string)
    requires forall i :: 0 <= i < |runs| ==>
      runs[i].events == HandlerEvents(runs[i].job.request, runs[i].seen, clock(i), executable)
    ensures Count(Trace(runs), Completion) == CompletionsRequested(runs)
  {
    if runs != [] {
      var last := runs[|runs| - 1];
      CompletionsMatchRequests(runs[..|runs| - 1], clock, executable);
      CountAppend(Trace(runs[..|runs| - 1]), last.events, Completion);
      var req, s := last.job.request, last.seen;
      EffectsCompleteOnce(MessageText(req.message), Body(req, s, clock(|runs| - 1), executable),
                          Rank(req.level), s.systemLogEnabled, s.hasDelegate, req.hasCompletion);
    }
  }

  /** On the shared queue, the completions in the trace are exactly the ones requested by the handlers that ran. */
  lemma QueueCompletionsExactlyOnce(sh: Shared)
    requires sh.Valid()
    ensures forall i :: 0 <= i < |sh.runs| ==>
      Count(sh.runs[i].events, Completion) == (if sh.runs[i].job.request.hasCompletion then 1 else 0)
    ensures Count(Trace(sh.runs), Completion) == CompletionsRequested(sh.runs)
  {
    forall i | 0 <= i < |sh.runs|
      ensures Count(sh.runs[i].events, Completion) == (if sh.runs[i].job.request.hasCompletion then 1 else 0)
    {
      var req, s := sh.runs[i].job.request, sh.runs[i].seen;
      EffectsCompleteOnce(MessageText(req.message), Body(req, s, sh.clock(i), sh.executableName),
                          Rank(req.level), s.systemLogEnabled, s.hasDelegate, req.hasCompletion);
    }
    CompletionsMatchRequests(sh.runs, sh.clock, sh.executableName);
  }

  /** How many delegate calls the handlers of `owner` among `runs` made. */
  function DelegateCallsOf(runs: seq<Run>, owner: Logger): (n: nat)
  {
    if runs == [] then 0
    else
      var r := runs[|runs| - 1];
      DelegateCallsOf(runs[..|runs| - 1], owner) + (if r.job.owner == owner then DelegateCalls(r.events) else 0)
  }

  /** How many handlers of `owner` among `runs` ran while it had a delegate. */
  function DelegatedRuns(runs: seq<Run>, owner: Logger): (n: nat)
    ensures n <= |runs|
  {
    if runs == [] then 0
    else
      var r := runs[|runs| - 1];
      DelegatedRuns(runs[..|runs| - 1], owner) + (if r.job.owner == owner && r.seen.hasDelegate then 1 else 0)
  }

  /**
   * A logger's delegate is called exactly once per handler of that logger
   * that ran while a delegate was set, and by no handler of another logger.
   */
  lemma {:induction false} DelegateCallsPerLogger(runs: seq<Run>, clock: nat -> string, executable: string, owner: Logger)
    requires forall i :: 0 <= i < |runs| ==>
      runs[i].events == HandlerEvents(runs[i].job.request, runs[i].seen, clock(i), executable)
    ensures DelegateCallsOf(runs, owner) == DelegatedRuns(runs, owner)
  {
    if runs != [] {
      var n := |runs| - 1;
      DelegateCallsPerLogger(runs[..n], clock, executable, owner);
      var req, s := runs[n].job.request, runs[n].seen;
      EffectsDelegateCalls(MessageText(req.message), Body(req, s, clock(n), executable),
                           Rank(req.level), s.systemLogEnabled, s.hasDelegate, req.hasCompletion);
    }
  }

  /** On the shared queue, each logger's delegate has been called once per handler of it that ran with a delegate. */
  lemma QueueDelegateCalls(sh: Shared, owner: Logger)
    requires sh.Valid()
    ensures DelegateCallsOf(sh.runs, owner) == DelegatedRuns(sh.runs, owner)
    ensures DelegateCallsOf(sh.runs, owner) <= |sh.runs|
  {
    DelegateCallsPerLogger(sh.runs, sh.clock, sh.executableName, owner);
  }
}
