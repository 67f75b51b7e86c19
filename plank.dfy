/**
 * Model of `Plank.swift`, the notification-based logger.
 *
 * Every `Plank` holds a reference to a `Shared` queue, the model of the
 * class's one serial queue (`Shared.queue`); every `Plank` is meant to be
 * given the same object, which the model does not enforce. A handler posts the "will log"
 * notification, writes the body, posts the "did log" notification with the
 * same payload, and finally calls the completion.
 */
module PlankVariant {
  import opened Optional
  import opened Text

  // -----------------------------------------------------------------------
  // Notification names and payload keys

  const WillLogNotification: string := "PlankWillLogNotification"
  const DidLogNotification: string := "PlankDidLogNotification"
  const LogMessageKey: string := "PlankLogMessageKey"
  const LogBodyKey: string := "PlankLogBodyKey"

  /** The `userInfo` dictionary both notifications carry. */
  function UserInfo(message: string, body: string): (info: map<string, string>)
    ensures info.Keys == {LogMessageKey, LogBodyKey}
    ensures info[LogMessageKey] == message && info[LogBodyKey] == body
  {
    map[LogMessageKey := message, LogBodyKey := body]
  }

  // -----------------------------------------------------------------------
  // Levels

  /** `Plank.Level`, backed by `UInt`. */
  datatype Level = Verbose | Info | Warning | Error

  /** `toRaw()`. */
  function Rank(l: Level): (n: nat)
    ensures n < 4
  {
    match l
    case Verbose => 0
    case Info => 1
    case Warning => 2
    case Error => 3
  }

  /** The display names, indexed by raw value. */
  const LevelNames: seq<string> := ["VERBOSE", "INFO", "WARNING", "ERROR"]

  /** `Level.description`. */
  function Description(l: Level): (name: string)
    ensures name == LevelNames[Rank(l)]
  {
    match l
    case Verbose => "VERBOSE"
    case Info => "INFO"
    case Warning => "WARNING"
    case Error => "ERROR"
  }

  /** Raw values are distinct, so comparing raw values totally orders the levels, and no two levels share a name. */
  lemma LevelsOrdered(a: Level, b: Level)
    ensures Rank(a) == Rank(b) <==> a == b
    ensures Description(a) == Description(b) <==> a == b
    ensures Rank(a) < Rank(b) || Rank(a) == Rank(b) || Rank(b) < Rank(a)
  {
  }

  // -----------------------------------------------------------------------
  // Formatting

  /** The formatter closure, seen through (message, tag, levelString). */
  type Formatter = (string, string, string) -> string

  /** The message a handler works with: `message ?? "(null)"`. */
  function MessageText(message: Option<string>): (m: string)
    ensures message.Some? ==> m == message.value
    ensures message.None? ==> m == "(null)"
  {
    message.GetOr("(null)")
  }

  /** The first line of the default body: "<time> [Plank|<executable>] [<tag>|<level>]". */
  function DefaultHeader(now: string, executable: string, tag: string, level: Level): (header: string)
    ensures |header| >= |now| && header[..|now|] == now
    ensures IsInfix(executable, header)
    ensures IsInfix(tag, header)
    ensures IsInfix(Description(level), header)
  {
    var parts := [now, " [Plank|", executable, "] [", tag, "|", Description(level), "]"];
    assert Concat(parts) == now + Concat(parts[1..]);
    ConcatInfix(parts, 2);
    ConcatInfix(parts, 4);
    ConcatInfix(parts, 6);
    Concat(parts)
  }

  /**
   * The default body: the header line, then the message on a line of its
   * own. It shows the tag, the level's name and the message; the message is
   * its last line.
   */
  function DefaultText(now: string, executable: string, tag: string, level: Level, message: string): (body: string)
    ensures |body| >= |now| && body[..|now|] == now
    ensures IsInfix(executable, body)
    ensures IsInfix(tag, body)
    ensures IsInfix(Description(level), body)
    ensures IsInfix(message, body)
    ensures |body| >= |message| + 2
    ensures body[|body| - |message| - 2..] == "\n" + message + "\n"
  {
    var header := DefaultHeader(now, executable, tag, level);
    var tail := "\n" + message + "\n";
    InfixAppend(executable, header, tail);
    InfixAppend(tag, header, tail);
    InfixAppend(Description(level), header, tail);
    LastLine(header, message);
    header + tail
  }

  /** The configuration a handler reads from its logger when it runs. */
  datatype Settings = Settings(tag: string, formatter: Option<Formatter>)

  /** `logText`: the custom formatter's result verbatim, otherwise the default body. */
  function LogText(s: Settings, message: string, level: Level, now: string, executable: string): (body: string)
    ensures s.formatter.Some? ==> body == s.formatter.value(message, s.tag, Description(level))
    ensures s.formatter.None? ==> |body| >= |now| && body[..|now|] == now && IsInfix(executable, body)
    ensures s.formatter.None? ==> IsInfix(s.tag, body) && IsInfix(Description(level), body) && IsInfix(message, body)
  {
    if s.formatter.Some? then
      s.formatter.value(message, s.tag, Description(level))
    else
      DefaultText(now, executable, s.tag, level, message)
  }

  // -----------------------------------------------------------------------
  // The handler

  /** What one call of `log` captures: its arguments. */
  datatype Request = Request(message: Option<string>, level: Level, hasCompletion: bool)

  /** The side effects of a handler, in the order they happen. */
  datatype Event =
    | Post(name: string, userInfo: map<string, string>)   // NSNotificationCenter post, object: the logger
    | Write(body: string)                                 // println
    | Completion                                          // completion!()

  /** The body a handler writes for `req` under settings `s`. */
  function Body(req: Request, s: Settings, now: string, executable: string): string
  {
    LogText(s, MessageText(req.message), req.level, now, executable)
  }

  /** The side effects of one handler that logs `message` with `body`. */
  function Effects(message: string, body: string, complete: bool): (events: seq<Event>)
    ensures |events| == (if complete then 4 else 3)
    ensures events[1] == Write(body)
  {
    var info := UserInfo(message, body);
    var around := [Post(WillLogNotification, info), Write(body), Post(DidLogNotification, info)];
    if complete then around + [Completion] else around
  }

  /**
   * A handler posts "will log", writes the body once, posts "did log", and
   * then calls the completion exactly once iff one was supplied; both
   * notifications carry the same payload, whose message and body entries are
   * the substituted message and the body written.
   */
  lemma EffectsOrder(message: string, body: string, complete: bool)
    ensures var events := Effects(message, body, complete);
      && |events| == (if complete then 4 else 3)
      && events[0].Post? && events[0].name == WillLogNotification
      && events[1] == Write(body)
      && events[2].Post? && events[2].name == DidLogNotification
      && events[0].userInfo == events[2].userInfo
      && events[0].userInfo[LogMessageKey] == message && events[0].userInfo[LogBodyKey] == body
      && Count(events, Write(body)) == 1
      && Count(events, Completion) == (if complete then 1 else 0)
      && (complete ==> events[3] == Completion)
  {
    var info := UserInfo(message, body);
    var around := [Post(WillLogNotification, info), Write(body), Post(DidLogNotification, info)];
    assert Count(around, Write(body)) == 1 by {
      assert around[1..][1..] == [Post(DidLogNotification, info)];
    }
    assert Completion !in around;
    if complete {
      CountAppend(around, [Completion], Completion);
      CountAppend(around, [Completion], Write(body));
    }
  }

  /** The events of the handler of `req` run with the logger's settings `s`. */
  function HandlerEvents(req: Request, s: Settings, now: string, executable: string): seq<Event>
  {
    Effects(MessageText(req.message), Body(req, s, now, executable), req.hasCompletion)
  }

  /**
   * The events of the handler of `req` run with the logger's settings `s`:
   * "will log" with the message and body, the write of the body, "did log"
   * with the same payload, and the completion iff one was supplied.
   */
  lemma HandlerEventsShape(req: Request, s: Settings, now: string, executable: string)
    ensures var events := HandlerEvents(req, s, now, executable);
      && |events| >= 3
      && events[0] == Post(WillLogNotification, UserInfo(MessageText(req.message), Body(req, s, now, executable)))
      && events[1] == Write(Body(req, s, now, executable))
      && events[2] == Post(DidLogNotification, UserInfo(MessageText(req.message), Body(req, s, now, executable)))
      && (Completion in events <==> req.hasCompletion)
  {
    var message, body := MessageText(req.message), Body(req, s, now, executable);
    EffectsOrder(message, body, req.hasCompletion);
  }

  // -----------------------------------------------------------------------
  // The shared serial queue

  /** A handler waiting on the queue: its submission number, its logger and its request. */
  datatype Job = Job(ticket: nat, owner: Plank, request: Request)

  /** A handler that has run: its job, the settings it read from its logger, and the events it produced. */
  datatype Run = Run(job: Job, seen: Settings, events: seq<Event>)

  /** A snapshot of the queue. */
  datatype Queue = Queue(pending: seq<Job>, runs: seq<Run>)

  /**
   * The `Shared` struct: the serial queue every `Plank` uses, the bundle's
   * executable name, and the date formatter, seen here as `clock(n)`, the
   * formatted time at which the n-th handler runs.
   */
  class Shared {
    const executableName: string
    const clock: nat -> string
    var pending: seq<Job>
    var runs: seq<Run>

    /**
     * Handlers run one at a time in submission order: run i was ticket i,
     * its events are those of its request under the settings it read, at
     * time `clock(i)`; the queue holds the next tickets in order.
     */
    ghost predicate Valid()
      reads this
    {
      && (forall i :: 0 <= i < |runs| ==> runs[i].job.ticket == i)
      && (forall i :: 0 <= i < |runs| ==>
            runs[i].events == HandlerEvents(runs[i].job.request, runs[i].seen, clock(i), executableName))
      && (forall i :: 0 <= i < |pending| ==> pending[i].ticket == |runs| + i)
    }

    function NextTicket(): nat
      reads this
    {
      |runs| + |pending|
    }

    function State(): Queue
      reads this
    {
      Queue(pending, runs)
    }

    /** The run of `job`, reading its logger's configuration at the time it runs. */
    ghost function RunOf(job: Job): Run
      reads job.owner
    {
      Run(job, job.owner.CurrentSettings(),
          HandlerEvents(job.request, job.owner.CurrentSettings(), clock(job.ticket), executableName))
    }

    /**
     * A handler reads its logger's settings when it runs (the closure
     * captures the logger itself): the run records the job and those
     * settings, and writes the body formatted with them.
     */
    lemma RunOfReadsSettings(job: Job)
      ensures RunOf(job).job == job && RunOf(job).seen == job.owner.CurrentSettings()
      ensures |RunOf(job).events| >= 3 && RunOf(job).events[1] == Write(Body(job.request, job.owner.CurrentSettings(), clock(job.ticket), executableName))
    {
      HandlerEventsShape(job.request, job.owner.CurrentSettings(), clock(job.ticket), executableName);
    }

    /** The runs of `jobs`, one after another. */
    ghost function RunsOf(jobs: seq<Job>): (rs: seq<Run>)
      reads set j | j in jobs :: j.owner
      ensures |rs| == |jobs|
      ensures forall i :: 0 <= i < |jobs| ==> rs[i] == RunOf(jobs[i])
    {
      if jobs == [] then []
      else
        var rest := RunsOf(jobs[1..]);
        assert forall i :: 1 <= i < |jobs| ==> jobs[1..][i - 1] == jobs[i];
        [RunOf(jobs[0])] + rest
    }

    /** The queue once every pending handler has run, oldest first. */
    ghost function Drained(q: Queue): Queue
      reads set j | j in q.pending :: j.owner
    {
      Queue([], q.runs + RunsOf(q.pending))
    }

    /**
     * The queue after a `log` call that built `job`: unchanged when the call
     * was filtered; `job` appended when asynchronous; when synchronous,
     * everything queued before it and then `job` itself has run.
     */
    ghost function Outcome(before: Queue, job: Job, admitted: bool, synchronous: bool): (after: Queue)
      reads job.owner, set j | j in before.pending :: j.owner
      ensures !admitted ==> after == before
      ensures admitted ==> |after.runs| + |after.pending| == |before.runs| + |before.pending| + 1
      ensures admitted ==> |before.runs| <= |after.runs| && after.runs[..|before.runs|] == before.runs
      ensures admitted && !synchronous ==> after.runs == before.runs && after.pending == before.pending + [job]
      ensures admitted && synchronous ==> after.pending == [] && |after.runs| >= 1 && after.runs[|after.runs| - 1] == RunOf(job)
    {
      if !admitted then before
      else if !synchronous then Queue(before.pending + [job], before.runs)
      else Drained(Queue(before.pending + [job], before.runs))
    }

    constructor (executableName: string, clock: nat -> string)
      ensures Valid()
      ensures this.executableName == executableName && this.clock == clock
      ensures pending == [] && runs == []
    {
      this.executableName := executableName;
      this.clock := clock;
      pending := [];
      runs := [];
    }

    /** `dispatch_async`: append a handler to the queue. */
    method Enqueue(job: Job)
      requires Valid() && job.ticket == NextTicket()
      modifies this
      ensures Valid()
      ensures pending == old(pending) + [job] && runs == old(runs)
    {
      pending := pending + [job];
    }

    /** The queue runs its oldest handler. */
    method RunNext()
      requires Valid() && pending != []
      modifies this
      ensures Valid()
      ensures pending == old(pending)[1..]
      ensures runs == old(runs) + [RunOf(old(pending)[0])]
    {
      var job := pending[0];
      var logger := job.owner;
      var req := job.request;
      var message := MessageText(req.message);
      var body := LogText(logger.CurrentSettings(), message, req.level, clock(job.ticket), executableName);
      var userInfo := UserInfo(message, body);
      var events := [Post(WillLogNotification, userInfo)];
      events := events + [Write(body)];
      events := events + [Post(DidLogNotification, userInfo)];
      if req.hasCompletion {
        events := events + [Completion];
      }
      assert events == HandlerEvents(req, logger.CurrentSettings(), clock(job.ticket), executableName);
      runs := runs + [Run(job, logger.CurrentSettings(), events)];
      pending := pending[1..];
    }

    /** The queue runs every pending handler, oldest first. */
    method Drain()
      requires Valid()
      modifies this
      ensures Valid()
      ensures State() == Drained(old(State()))
    {
      ghost var done := 0;
      while pending != []
        invariant Valid()
        invariant 0 <= done <= |old(pending)|
        invariant pending == old(pending)[done..]
        invariant |runs| == |old(runs)| + done && runs[..|old(runs)|] == old(runs)
        invariant forall i :: 0 <= i < done ==> runs[|old(runs)| + i] == RunOf(old(pending)[i])
        decreases |pending|
      {
        RunNext();
        done := done + 1;
      }
      RunsExtended(old(runs), old(pending));
    }

    /** Runs recorded one by one for `jobs` after `earlier` are `earlier + RunsOf(jobs)`. */
    lemma RunsExtended(earlier: seq<Run>, jobs: seq<Job>)
      requires |runs| == |earlier| + |jobs| && runs[..|earlier|] == earlier
      requires forall i :: 0 <= i < |jobs| ==> runs[|earlier| + i] == RunOf(jobs[i])
      ensures runs == earlier + RunsOf(jobs)
    {
      var ran := RunsOf(jobs);
      assert |runs| == |earlier + ran|;
    }

    /** `dispatch_sync`: run everything queued so far, then `job`, before returning. */
    method RunSynchronously(job: Job)
      requires Valid() && job.ticket == NextTicket()
      modifies this
      ensures Valid()
      ensures State() == Drained(Queue(old(pending) + [job], old(runs)))
    {
      Enqueue(job);
      Drain();
    }
  }

  // -----------------------------------------------------------------------
  // The logger

  class Plank {
    /** `queue = Shared.queue`: every logger of the class is meant to be given the same object. */
    const shared: Shared
    var tag: string
    var enabled: bool
    var thresholdLevel: Level
    var synchronous: bool
    var formatter: Option<Formatter>

    /** `init(tag:)`: enabled, threshold Warning, asynchronous, no formatter. */
    constructor (tag: string, shared: Shared)
      ensures this.shared == shared && this.tag == tag
      ensures enabled && thresholdLevel == Warning && !synchronous && formatter == None
    {
      this.shared := shared;
      this.tag := tag;
      enabled := true;
      thresholdLevel := Warning;
      synchronous := false;
      formatter := None;
    }

    function CurrentSettings(): Settings
      reads this
    {
      Settings(tag, formatter)
    }

    /** `shouldLog`: enabled, and the level is at or above the threshold. */
    predicate ShouldLog(level: Level)
      reads this
      ensures ShouldLog(level) <==> enabled && Rank(level) >= Rank(thresholdLevel)
    {
      !(!enabled || Rank(level) < Rank(thresholdLevel))
    }

    /** The private `log`: filter, then hand a handler to the shared queue, waiting for it when synchronous. */
    method Log(message: Option<string>, level: Level, hasCompletion: bool)
      requires shared.Valid()
      modifies shared
      ensures shared.Valid()
      ensures shared.State() == shared.Outcome(old(shared.State()),
        Job(old(shared.NextTicket()), this, Request(message, level, hasCompletion)), ShouldLog(level), synchronous)
    {
      if !ShouldLog(level) {
        return;
      }
      var job := Job(shared.NextTicket(), this, Request(message, level, hasCompletion));
      if synchronous {
        shared.RunSynchronously(job);
      } else {
        shared.Enqueue(job);
      }
    }

    /** `logError(_:)` and `logError(_:completion:)`. */
    method LogError(message: Option<string>, hasCompletion: bool)
      requires shared.Valid()
      modifies shared
      ensures shared.Valid()
      ensures shared.State() == shared.Outcome(old(shared.State()),
        Job(old(shared.NextTicket()), this, Request(message, Error, hasCompletion)), ShouldLog(Error), synchronous)
    {
      Log(message, Error, hasCompletion);
    }

    /** `logWarning(_:)` and `logWarning(_:completion:)`. */
    method LogWarning(message: Option<string>, hasCompletion: bool)
      requires shared.Valid()
      modifies shared
      ensures shared.Valid()
      ensures shared.State() == shared.Outcome(old(shared.State()),
        Job(old(shared.NextTicket()), this, Request(message, Warning, hasCompletion)), ShouldLog(Warning), synchronous)
    {
      Log(message, Warning, hasCompletion);
    }

    /** `logInfo(_:)` and `logInfo(_:completion:)`. */
    method LogInfo(message: Option<string>, hasCompletion: bool)
      requires shared.Valid()
      modifies shared
      ensures shared.Valid()
      ensures shared.State() == shared.Outcome(old(shared.State()),
        Job(old(shared.NextTicket()), this, Request(message, Info, hasCompletion)), ShouldLog(Info), synchronous)
    {
      Log(message, Info, hasCompletion);
    }

    /** `logVerbose(_:)` and `logVerbose(_:completion:)`. */
    method LogVerbose(message: Option<string>, hasCompletion: bool)
      requires shared.Valid()
      modifies shared
      ensures shared.Valid()
      ensures shared.State() == shared.Outcome(old(shared.State()),
        Job(old(shared.NextTicket()), this, Request(message, Verbose, hasCompletion)), ShouldLog(Verbose), synchronous)
    {
      Log(message, Verbose, hasCompletion);
    }
  }

  // -----------------------------------------------------------------------
  // Properties of the emission pipeline

  /** The queue's tickets continue those of the handlers that have run. */
  ghost predicate Numbered(q: Queue)
  {
    forall i :: 0 <= i < |q.pending| ==> q.pending[i].ticket == |q.runs| + i
  }

  /**
   * A synchronous call returns after every handler queued before it and then
   * its own have run, in submission order; its run is the last one, under
   * its own ticket, and ends with the completion when one was supplied.
   */
  lemma SynchronousLogRunsThrough(sh: Shared, before: Queue, job: Job)
    requires Numbered(before) && job.ticket == |before.runs| + |before.pending|
    ensures var after := sh.Outcome(before, job, true, true);
      && after.pending == []
      && |after.runs| == job.ticket + 1
      && after.runs[..|before.runs|] == before.runs
      && (forall i :: 0 <= i < |before.pending| ==> after.runs[|before.runs| + i] == sh.RunOf(before.pending[i]))
      && after.runs[job.ticket] == sh.RunOf(job)
      && (job.request.hasCompletion ==> after.runs[job.ticket].events[|after.runs[job.ticket].events| - 1] == Completion)
  {
    var req := job.request;
    EffectsOrder(MessageText(req.message), Body(req, job.owner.CurrentSettings(), sh.clock(job.ticket), sh.executableName),
                 req.hasCompletion);
  }

  /** An asynchronous call only appends its handler: nothing runs, so no notification or completion is visible yet. */
  lemma AsynchronousLogDefers(sh: Shared, before: Queue, job: Job)
    requires Numbered(before) && job.ticket == |before.runs| + |before.pending|
    ensures var after := sh.Outcome(before, job, true, false);
      && Numbered(after)
      && after.pending == before.pending + [job]
      && after.runs == before.runs
      && |after.runs| <= job.ticket
  {
  }

  /** Once the queue drains, an asynchronous call has had exactly the effect of a synchronous one. */
  lemma AsynchronousThenDrainIsSynchronous(sh: Shared, before: Queue, job: Job)
    ensures sh.Drained(sh.Outcome(before, job, true, false)) == sh.Outcome(before, job, true, true)
  {
  }

  /** The payloads of the notifications named `name` among `events`, in order. */
  function Payloads(events: seq<Event>, name: string): seq<map<string, string>>
  {
    if events == [] then []
    else
      var e := events[|events| - 1];
      Payloads(events[..|events| - 1], name) + (if e.Post? && e.name == name then [e.userInfo] else [])
  }

  /**
   * What an observer registered for notification `name` from logger `sender`
   * receives from `runs`, in order (a notification is posted with the
   * logger as its object).
   */
  function Received(runs: seq<Run>, name: string, sender: Plank): (received: seq<map<string, string>>)
    ensures (forall i :: 0 <= i < |runs| ==> runs[i].job.owner != sender) ==> received == []
  {
    if runs == [] then []
    else
      var r := runs[|runs| - 1];
      Received(runs[..|runs| - 1], name, sender) + (if r.job.owner == sender then Payloads(r.events, name) else [])
  }

  /** One handler posts exactly one "will log" and one "did log" notification, with the same payload. */
  lemma EffectsPayloads(message: string, body: string, complete: bool)
    ensures Payloads(Effects(message, body, complete), WillLogNotification) == [UserInfo(message, body)]
    ensures Payloads(Effects(message, body, complete), DidLogNotification) == [UserInfo(message, body)]
  {
    var info := UserInfo(message, body);
    var w, b, d := Post(WillLogNotification, info), Write(body), Post(DidLogNotification, info);
    var around := [w, b, d];
    assert WillLogNotification != DidLogNotification by {
      assert WillLogNotification[5] != DidLogNotification[5];
    }
    assert around[..2] == [w, b] && [w, b][..1] == [w] && [w][..0] == [];
    assert Payloads([w], WillLogNotification) == [info];
    assert Payloads([w, b], WillLogNotification) == [info];
    assert Payloads(around, WillLogNotification) == [info];
    assert Payloads([w], DidLogNotification) == [];
    assert Payloads([w, b], DidLogNotification) == [];
    assert Payloads(around, DidLogNotification) == [info];
    if complete {
      var all := around + [Completion];
      assert all[..3] == around;
    }
  }

  /**
   * The payload of every handler of `sender` among `runs`, in the order they
   * ran: the substituted message and the body that handler wrote.
   */
  function Announced(runs: seq<Run>, clock: nat -> string, executable: string, sender: Plank): seq<map<string, string>>
  {
    if runs == [] then []
    else
      var n := |runs| - 1;
      var req := runs[n].job.request;
      Announced(runs[..n], clock, executable, sender)
        + (if runs[n].job.owner == sender
           then [UserInfo(MessageText(req.message), Body(req, runs[n].seen, clock(n), executable))]
           else [])
  }

  /**
   * Observers of "will log" and of "did log" from the same logger receive
   * exactly one payload per handler of that logger that has run, in the
   * order they ran, and therefore the same payloads as each other; requests
   * that were filtered out never run and post nothing.
   */
  lemma {:induction false} WillAndDidAgree(runs: seq<Run>, clock: nat -> string, executable: string, sender: Plank)
    requires forall i :: 0 <= i < |runs| ==>
      runs[i].events == HandlerEvents(runs[i].job.request, runs[i].seen, clock(i), executable)
    ensures Received(runs, WillLogNotification, sender) == Announced(runs, clock, executable, sender)
    ensures Received(runs, DidLogNotification, sender) == Announced(runs, clock, executable, sender)
  {
    if runs != [] {
      var n := |runs| - 1;
      WillAndDidAgree(runs[..n], clock, executable, sender);
      var req := runs[n].job.request;
      EffectsPayloads(MessageText(req.message), Body(req, runs[n].seen, clock(n), executable), req.hasCompletion);
    }
  }

  /** The agreement holds at every point of the shared queue's life. */
  lemma QueueNotificationsAgree(sh: Shared, sender: Plank)
    requires sh.Valid()
    ensures Received(sh.runs, WillLogNotification, sender) == Received(sh.runs, DidLogNotification, sender)
    ensures |Received(sh.runs, DidLogNotification, sender)| <= |sh.runs|
  {
    WillAndDidAgree(sh.runs, sh.clock, sh.executableName, sender);
    AnnouncedLength(sh.runs, sh.clock, sh.executableName, sender);
  }

  /** At most one payload per run. */
  lemma {:induction false} AnnouncedLength(runs: seq<Run>, clock: nat -> string, executable: string, sender: Plank)
    ensures |Announced(runs, clock, executable, sender)| <= |runs|
  {
    if runs != [] {
      AnnouncedLength(runs[..|runs| - 1], clock, executable, sender);
    }
  }
}
