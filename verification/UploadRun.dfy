/** An upload run (`uploadChartPatterns`): workers that share a queue, the list of results and the gate.
    A run is a sequence of steps, each one worker going from one await to the next, or time passing, in
    any order and with any answers. */
module UploadRun {
  import opened Common
  import opened UploadGate

  datatype File = File(md5: string, path: string)

  datatype Stop = Auth | RateLimit

  datatype Kind = Created | Replaced | Unchanged | Checked | Failed(stop: Option<Stop>)

  datatype FileResult = FileResult(file: File, kind: Kind)

  /** Where a worker stands. `slot` is the number of the reserved slot, `pauses` how many pauses had
      begun when the gate was passed, `pausesSent` how many when the request was sent. */
  datatype Phase =
    | Idle
    | Reading(file: File)
    | AtGate(file: File)
    | Held(file: File, until: int)
    | Slotted(file: File, slot: nat)
    | Passed(file: File, slot: nat, at: int, pauses: nat)
    | InFlight(file: File, sentAt: int, pauses: nat, pausesSent: nat)
    | Answered(file: File, status: Option<nat>)
    | Ended

  /** What a worker has done so far: files taken, requests sent, requests sent again after a 429,
      requests that got through. */
  datatype Tally = Tally(taken: nat, sent: nat, retried: nat, got: nat)

  datatype Pause = Pause(begun: int, until: int)

  /** `slots` are the reserved slots in order, `starts` the times at which requests were sent in them. */
  datatype Run = Run(
    now: int,
    gate: Gate,
    queue: seq<File>,
    results: seq<FileResult>,
    phases: seq<Phase>,
    tallies: seq<Tally>,
    slots: seq<int>,
    starts: map<nat, int>,
    pauses: seq<Pause>)

  predicate Shaped(run: Run) {
    |run.tallies| == |run.phases|
  }

  function Start(files: seq<File>, workers: nat, now: nat): Run {
    Run(now, FRESH, files, [], seq(workers, _ => Idle), seq(workers, _ => Tally(0, 0, 0, 0)), [], map[], [])
  }

  predicate IsStopped(results: seq<FileResult>) {
    exists i :: 0 <= i < |results| && results[i].kind.Failed? && results[i].kind.stop.Some?
  }

  function StopBy(status: nat): Option<Stop> {
    if status == 401 || status == 403 then Some(Auth) else if status == 429 then Some(RateLimit) else None
  }

  // ---------- Steps ----------

  /** What the local check of a file's text says. */
  datatype Local = Unfit | DryRun | Fit

  /** `None` is a request that failed on the network; otherwise a status, and for a 429 what its
      `Retry-After` asks. */
  datatype Answer = NoAnswer | Status(status: nat) | TooMany(retryAfter: Option<nat>)

  datatype Step =
    | Tick(ms: nat)
    | Take(w: nat)
    | CheckText(w: nat, found: Local)
    | SleepOut(w: nat)
    | ReserveSlot(w: nat)
    | TryGate(w: nat)
    | Send(w: nat)
    | Receive(w: nat, answer: Answer)
    | Report(w: nat, parsed: Option<Kind>)

  function Moved(run: Run, w: nat, phase: Phase): Run
    requires w < |run.phases|
  {
    run.(phases := run.phases[w := phase])
  }

  function Counted(run: Run, w: nat, tally: Tally): Run
    requires w < |run.tallies|
  {
    run.(tallies := run.tallies[w := tally])
  }

  predicate Enabled(run: Run, step: Step)
    requires Shaped(run)
  {
    match step
    case Tick(_) => true
    case Take(w) => w < |run.phases| && run.phases[w].Idle?
    case CheckText(w, _) => w < |run.phases| && run.phases[w].Reading?
    case SleepOut(w) => w < |run.phases| && run.phases[w].AtGate?
    case ReserveSlot(w) => w < |run.phases| && run.phases[w].Held? && run.phases[w].until <= run.now
    case TryGate(w) => w < |run.phases| && run.phases[w].Slotted? && run.phases[w].slot < |run.slots|
      && run.slots[run.phases[w].slot] <= run.now
    case Send(w) => w < |run.phases| && run.phases[w].Passed?
    case Receive(w, answer) => w < |run.phases| && run.phases[w].InFlight? && (answer.Status? ==> answer.status != 429)
    case Report(w, parsed) =>
      w < |run.phases| && run.phases[w].Answered? && (parsed.Some? ==> parsed.value in {Created, Replaced, Unchanged})
  }

  function Took(run: Run, w: nat): Run
    requires Shaped(run) && w < |run.phases|
  {
    if IsStopped(run.results) || run.queue == [] then Moved(run, w, Ended)
    else
      Counted(Moved(run, w, Reading(run.queue[0])), w, run.tallies[w].(taken := run.tallies[w].taken + 1))
      .(queue := run.queue[1..])
  }

  function Finished(run: Run, w: nat, kind: Kind): Run
    requires w < |run.phases| && (run.phases[w].Reading? || run.phases[w].Answered?)
  {
    Moved(run, w, Idle).(results := run.results + [FileResult(run.phases[w].file, kind)])
  }

  function TextChecked(run: Run, w: nat, found: Local): Run
    requires w < |run.phases| && run.phases[w].Reading?
  {
    match found
    case Unfit => Finished(run, w, Failed(None))
    case DryRun => Finished(run, w, Checked)
    case Fit => Moved(run, w, AtGate(run.phases[w].file))
  }

  function Reserved(run: Run, w: nat): Run
    requires w < |run.phases| && run.phases[w].Held?
  {
    Moved(run, w, Slotted(run.phases[w].file, |run.slots|))
    .(slots := run.slots + [run.gate.NextSlot(run.now)], gate := run.gate.Reserved(run.now))
  }

  function Tried(run: Run, w: nat): Run
    requires w < |run.phases| && run.phases[w].Slotted?
  {
    var phase := run.phases[w];
    Moved(run, w,
          if run.gate.LetsPass(run.now) then Passed(phase.file, phase.slot, run.now, |run.pauses|)
          else AtGate(phase.file))
  }

  function Sent(run: Run, w: nat): Run
    requires Shaped(run) && w < |run.phases| && run.phases[w].Passed?
  {
    var phase := run.phases[w];
    Counted(Moved(run, w, InFlight(phase.file, run.now, phase.pauses, |run.pauses|)), w,
      run.tallies[w].(sent := run.tallies[w].sent + 1))
    .(starts := run.starts[phase.slot := run.now])
  }

  function Limited(run: Run, w: nat, retryAfter: Option<nat>): Run
    requires Shaped(run) && w < |run.phases| && run.phases[w].InFlight?
  {
    var phase := run.phases[w];
    if run.gate.GivesUp(phase.sentAt) then Moved(run, w, Answered(phase.file, Some(429)))
    else
      Counted(Moved(run, w, AtGate(phase.file)), w, run.tallies[w].(retried := run.tallies[w].retried + 1))
      .(gate := run.gate.RateLimited(run.now, phase.sentAt, retryAfter),
        pauses := if run.gate.Joins(phase.sentAt) then run.pauses
                  else run.pauses + [Pause(run.now, run.now + PauseFor(retryAfter))])
  }

  function Through(run: Run, w: nat, status: Option<nat>): Run
    requires Shaped(run) && w < |run.phases| && run.phases[w].InFlight?
  {
    Counted(Moved(run, w, Answered(run.phases[w].file, status)), w, run.tallies[w].(got := run.tallies[w].got + 1))
    .(gate := run.gate.GotThrough())
  }

  function Received(run: Run, w: nat, answer: Answer): Run
    requires Shaped(run) && w < |run.phases| && run.phases[w].InFlight?
  {
    match answer
    case NoAnswer => Through(run, w, None)
    case Status(status) => Through(run, w, Some(status))
    case TooMany(retryAfter) => Limited(run, w, retryAfter)
  }

  function Verdict(status: Option<nat>, parsed: Option<Kind>): Kind {
    match status
    case None => Failed(None)
    case Some(code) =>
      if code == 200 || code == 201 then (if parsed.Some? then parsed.value else Failed(None)) else Failed(StopBy(code))
  }

  function After(run: Run, step: Step): Run
    requires Shaped(run) && Enabled(run, step)
  {
    match step
    case Tick(ms) => run.(now := run.now + ms)
    case Take(w) => Took(run, w)
    case CheckText(w, found) => TextChecked(run, w, found)
    case SleepOut(w) => Moved(run, w, Held(run.phases[w].file, run.gate.pausedUntil))
    case ReserveSlot(w) => Reserved(run, w)
    case TryGate(w) => Tried(run, w)
    case Send(w) => Sent(run, w)
    case Receive(w, answer) => Received(run, w, answer)
    case Report(w, parsed) => Finished(run, w, Verdict(run.phases[w].status, parsed))
  }

  /** Where the steps lead, if each can be taken. */
  function Ran(first: Run, steps: seq<Step>): (last: Option<Run>)
    requires Shaped(first)
    ensures last.Some? ==> Shaped(last.value)
  {
    if steps == [] then Some(first)
    else
      match Ran(first, steps[..|steps| - 1])
      case None => None
      case Some(run) => if Enabled(run, steps[|steps| - 1]) then Some(After(run, steps[|steps| - 1])) else None
  }
}
