/** Who ends up with the token of a login (app_network.rs): the session, if the application takes the
    answer, and otherwise the revoke, on the thread the answer is handed over to. */
module AuthHandover {
  import opened Common

  /** What the server answers a login with. */
  datatype Answer = Token | Refused

  /** What is read from the channel the answer arrives on. */
  datatype Reading = Arrived(answer: Answer) | Empty | Disconnected

  /** The channel between the worker that makes the request and whoever holds its other end. */
  datatype Channel = Channel(sending: bool, waiting: Option<Answer>) {
    function Look(): Reading {
      if waiting.Some? then Arrived(waiting.value) else if sending then Empty else Disconnected
    }
  }

  // ---------- The request as the application holds it ----------

  /** `answer` says whether the receiving end is still in hand, `Handed` whether dropping has given it to
      a thread of its own. */
  class AuthInFlight {
    var answer: bool
    var revokeUnclaimed: bool
    ghost var handed: bool

    ghost predicate Valid()
      reads this
    {
      (handed ==> !answer) && (answer ==> revokeUnclaimed)
    }

    constructor ()
      ensures Valid() && answer && !handed
    {
      answer, revokeUnclaimed, handed := true, true, false;
    }

    /** An answer taken, or a worker found stopped, lets go of the channel. */
    method TryTake(channel: Channel) returns (taken: Reading)
      requires Valid()
      modifies this`answer
      ensures Valid()
      ensures taken == if old(answer) then channel.Look() else Disconnected
      ensures answer == (old(answer) && channel.Look() == Empty)
    {
      taken := if answer then channel.Look() else Disconnected;
      if taken != Empty {
        answer := false;
      }
    }

    /** A channel still in hand goes to a thread, once. */
    method Drop()
      requires Valid()
      modifies this
      ensures Valid() && !answer
      ensures handed == (old(handed) || old(answer))
    {
      var inHand, revoke := answer, revokeUnclaimed;
      answer := false;
      if !inHand {
        return;
      }
      revokeUnclaimed := false;
      if !revoke {
        return;
      }
      handed := true;
    }
  }

  // ---------- Every request of a run ----------

  /** Who holds the receiving end of a request's channel. */
  datatype Holder = App | Thread | Nobody

  /** `issued`, `adopted` and `revoked` count what became of the request's token. */
  datatype Request = Request(channel: Channel, holder: Holder, issued: nat, adopted: nat, revoked: nat)

  /** `inFlight` is the request the application holds, if any. */
  datatype Run = Run(requests: seq<Request>, inFlight: Option<nat>)

  datatype Step =
    | Start
    | WorkerAnswers(r: nat, answer: Answer)
    | WorkerStops(r: nat)
    | Poll
    | LetGo
    | ThreadReceives(r: nat)

  const OPENING := Run([], None)

  function Put(run: Run, r: nat, request: Request): Run
    requires r < |run.requests|
  {
    run.(requests := run.requests[r := request])
  }

  predicate Enabled(run: Run, step: Step) {
    match step
    case Start => run.inFlight.None?
    case WorkerAnswers(r, _) => r < |run.requests| && run.requests[r].channel.sending
      && run.requests[r].channel.waiting.None?
    case WorkerStops(r) => r < |run.requests| && run.requests[r].channel.sending
    case Poll => true
    case LetGo => true
    case ThreadReceives(r) =>
      r < |run.requests| && run.requests[r].holder.Thread? && !run.requests[r].channel.Look().Empty?
  }

  /** The worker sends its answer and is done with the channel. */
  function Answered(request: Request, answer: Answer): Request {
    request.(channel := Channel(false, Some(answer)),
             issued := if answer.Token? then request.issued + 1 else request.issued)
  }

  function Taken(request: Request): Request {
    request.(channel := request.channel.(waiting := None), holder := Nobody)
  }

  function Adopted(request: Request): Request {
    Taken(request).(adopted := if request.channel.waiting == Some(Token) then request.adopted + 1 else request.adopted)
  }

  function Revoked(request: Request): Request {
    Taken(request).(revoked := if request.channel.waiting == Some(Token) then request.revoked + 1 else request.revoked)
  }

  function After(run: Run, step: Step): Run
    requires Enabled(run, step)
  {
    match step
    case Start =>
      Run(run.requests + [Request(Channel(true, None), App, 0, 0, 0)], Some(|run.requests|))
    case WorkerAnswers(r, answer) => Put(run, r, Answered(run.requests[r], answer))
    case WorkerStops(r) => Put(run, r, run.requests[r].(channel := run.requests[r].channel.(sending := false)))
    case Poll =>
      if run.inFlight.None? || run.inFlight.value >= |run.requests|
         || run.requests[run.inFlight.value].channel.Look().Empty?
      then run
      else Put(run, run.inFlight.value, Adopted(run.requests[run.inFlight.value])).(inFlight := None)
    case LetGo =>
      if run.inFlight.None? || run.inFlight.value >= |run.requests| then run
      else Put(run, run.inFlight.value, run.requests[run.inFlight.value].(holder := Thread)).(inFlight := None)
    case ThreadReceives(r) => Put(run, r, Revoked(run.requests[r]))
  }

  function Ran(steps: seq<Step>): Option<Run> {
    if steps == [] then Some(OPENING)
    else
      match Ran(steps[..|steps| - 1])
      case None => None
      case Some(run) => if Enabled(run, steps[|steps| - 1]) then Some(After(run, steps[|steps| - 1])) else None
  }

  /** A token issued is in the channel, adopted or revoked, and only one of them; nobody has let go of a
      channel that may still carry something. */
  predicate Accounted(request: Request) {
    && request.issued <= 1
    && request.issued == request.adopted + request.revoked + (if request.channel.waiting == Some(Token) then 1 else 0)
    && (request.channel.sending ==> request.issued == 0 && request.channel.waiting.None?)
    && (request.holder.Nobody? ==> !request.channel.sending && request.channel.waiting.None?)
  }

  ghost predicate Sound(run: Run) {
    && (forall r :: 0 <= r < |run.requests| ==> Accounted(run.requests[r]))
    && (forall r :: 0 <= r < |run.requests| ==> (run.requests[r].holder.App? <==> run.inFlight == Some(r)))
    && (run.inFlight.Some? ==> run.inFlight.value < |run.requests|)
  }

  lemma StepIsSound(run: Run, step: Step)
    requires Sound(run) && Enabled(run, step)
    ensures Sound(After(run, step))
  {}

  lemma {:induction false} RunIsSound(steps: seq<Step>)
    ensures Ran(steps).Some? ==> Sound(Ran(steps).value)
  {
    hide Sound, Enabled, After;
    if steps == [] {
      OpeningIsSound();
    } else {
      RunIsSound(steps[..|steps| - 1]);
      var before := Ran(steps[..|steps| - 1]);
      if before.Some? && Enabled(before.value, steps[|steps| - 1]) {
        StepIsSound(before.value, steps[|steps| - 1]);
      }
    }
  }

  lemma OpeningIsSound()
    ensures Sound(OPENING)
  {}

  /** In every interleaving of workers answering or stopping, frames polling and the application letting
      go, a token the server issued goes to at most one of the session and the revoke; and to exactly one
      of them once neither the application nor a thread holds its request. */
  lemma EveryTokenHasOneTaker(steps: seq<Step>, r: nat)
    requires Ran(steps).Some? && r < |Ran(steps).value.requests|
    ensures var request := Ran(steps).value.requests[r];
            && request.adopted + request.revoked <= request.issued <= 1
            && (request.holder.Nobody? ==> request.issued == request.adopted + request.revoked)
  {
    hide Ran;
    RunIsSound(steps);
  }

  /** And nothing is left waiting for ever: whoever holds a request whose worker is done can finish it in
      one step, which leaves nobody holding it. */
  lemma NothingIsStuck(steps: seq<Step>, r: nat)
    requires Ran(steps).Some? && r < |Ran(steps).value.requests|
    requires !Ran(steps).value.requests[r].channel.sending && !Ran(steps).value.requests[r].holder.Nobody?
    ensures var run := Ran(steps).value;
            var step := if run.requests[r].holder.App? then Poll else ThreadReceives(r);
            Enabled(run, step) && After(run, step).requests[r].holder.Nobody?
  {
    hide Ran, Accounted;
    RunIsSound(steps);
  }

  /** Whether the application let go of a request before taking its answer. */
  predicate WasLetGo(steps: seq<Step>, r: nat) {
    && steps != []
    && var init := steps[..|steps| - 1];
    || WasLetGo(init, r)
    || (steps[|steps| - 1] == LetGo && Ran(init).Some? && Ran(init).value.inFlight == Some(r))
  }

  /** Who took the token goes by that: the session only what the application never let go of, the revoke only what it
      did. */
  ghost predicate TakenBy(request: Request, letGo: bool) {
    && (request.adopted > 0 ==> !letGo && request.holder.Nobody?)
    && (request.revoked > 0 ==> letGo && request.holder.Nobody?)
    && (request.holder.App? ==> !letGo)
    && (request.holder.Thread? ==> letGo)
  }

  lemma StepIsTaken(run: Run, step: Step, r: nat, letGo: bool)
    requires Sound(run) && Enabled(run, step) && r < |run.requests| && TakenBy(run.requests[r], letGo)
    ensures TakenBy(After(run, step).requests[r], letGo || (step == LetGo && run.inFlight == Some(r)))
  {}

  lemma NewIsNobodys(run: Run, step: Step, r: nat)
    requires Sound(run) && Enabled(run, step) && |run.requests| <= r < |After(run, step).requests|
    ensures TakenBy(After(run, step).requests[r], false)
  {}

  lemma RequestsStay(run: Run, step: Step)
    requires Enabled(run, step)
    ensures |run.requests| <= |After(run, step).requests|
  {}

  lemma {:induction false} NotYetLetGo(steps: seq<Step>, r: nat)
    requires Ran(steps).Some? && r >= |Ran(steps).value.requests|
    ensures !WasLetGo(steps, r)
  {
    hide Enabled, After, Sound;
    if steps != [] {
      var init := steps[..|steps| - 1];
      RequestsStay(Ran(init).value, steps[|steps| - 1]);
      NotYetLetGo(init, r);
      RunIsSound(init);
      InFlightIsThere(Ran(init).value);
    }
  }

  /** In every run the session is given the token only of a request the application never let go of, and a token is
      revoked only of one it did. */
  lemma {:induction false} TheHolderTakesIt(steps: seq<Step>, r: nat)
    requires Ran(steps).Some? && r < |Ran(steps).value.requests|
    ensures TakenBy(Ran(steps).value.requests[r], WasLetGo(steps, r))
  {
    hide Enabled, After, TakenBy, Sound;
    if steps != [] {
      var init, step := steps[..|steps| - 1], steps[|steps| - 1];
      var before := Ran(init).value;
      RunIsSound(init);
      if r < |before.requests| {
        TheHolderTakesIt(init, r);
        StepIsTaken(before, step, r, WasLetGo(init, r));
      } else {
        NotYetLetGo(init, r);
        NewIsNobodys(before, step, r);
        InFlightIsThere(before);
      }
    }
  }

  lemma InFlightIsThere(run: Run)
    requires Sound(run)
    ensures run.inFlight.Some? ==> run.inFlight.value < |run.requests|
  {}

  /** What whoever holds a request hears of its worker: nothing while it runs, its answer once it has come, and that
      nobody will answer once it has stopped. */
  lemma TheWorkerIsHeard(run: Run, step: Step)
    requires Sound(run) && Enabled(run, step)
    ensures step.Start? ==>
              var r := |run.requests|;
              && After(run, step).inFlight == Some(r)
              && After(run, step).requests[r].channel.Look() == Empty
              && (forall answer :: Enabled(After(run, step), WorkerAnswers(r, answer)))
              && Enabled(After(run, step), WorkerStops(r))
    ensures step.WorkerAnswers? ==> After(run, step).requests[step.r].channel.Look() == Arrived(step.answer)
    ensures step.WorkerStops? ==> After(run, step).requests[step.r].channel.Look() == Disconnected
  {}

  // ---------- The application ----------

  /** What the application keeps of a login. `run` is the run so far, the request in hand being the one
      `run.inFlight` names. */
  class Shared {
    var authRx: AuthInFlight?
    ghost var run: Run

    ghost predicate Valid()
      reads this, authRx
    {
      && Sound(run)
      && (authRx != null <==> run.inFlight.Some?)
      && (authRx != null ==> authRx.Valid() && authRx.answer && !authRx.handed)
    }

    /** The channel of the request in hand. */
    ghost predicate InHand(channel: Channel)
      reads this
    {
      run.inFlight.Some? && run.inFlight.value < |run.requests| && run.requests[run.inFlight.value].channel == channel
    }

    constructor ()
      ensures Valid() && run == OPENING
    {
      authRx, run := null, OPENING;
    }

    /** A login asked for while one is on its way makes no request; `ready` is everything else it needs: an
        idle session, a server, the fields filled in. */
    method StartAuth(ready: bool)
      requires Valid()
      modifies this
      ensures Valid()
      ensures if !ready || old(authRx) != null then authRx == old(authRx) && run == old(run)
              else fresh(authRx) && run == After(old(run), Start)
    {
      hide Sound, After;
      if !ready || authRx != null {
        return;
      }
      StepIsSound(run, Start);
      StartHolds(run);
      authRx := new AuthInFlight();
      run := After(run, Start);
    }

    /** A frame's look at the channel: what the session is given is what the request's token is counted as
        adopted by, and the request let go of at the end reaches no thread. */
    method PollAuth(channel: Channel) returns (given: Reading)
      requires Valid() && (authRx != null ==> InHand(channel))
      modifies this, authRx
      ensures Valid()
      ensures run == After(old(run), Poll)
      ensures authRx == if given == Empty then old(authRx) else null
      ensures old(authRx) == null ==> run == old(run)
      ensures old(authRx) != null ==>
                var before, after := old(run).requests[old(run).inFlight.value], run.requests[old(run).inFlight.value];
                && given == channel.Look()
                && after.adopted - before.adopted == (if given == Arrived(Token) then 1 else 0)
                && !old(authRx).handed && !after.holder.Thread?
    {
      hide Sound;
      given := Empty;
      ghost var before := run;
      StepIsSound(run, Poll);
      if authRx != null {
        PollFollows(run);
        var inFlight := authRx;
        authRx := null;
        given := inFlight.TryTake(channel);
        if given == Empty {
          authRx := inFlight;
        } else {
          inFlight.Drop();
        }
      }
      run := After(before, Poll);
    }

    /** The account or the server changes: the request in hand goes to a thread of its own, which is the
        one that then holds its channel. */
    method LetGoOfAuth()
      requires Valid()
      modifies this, authRx
      ensures Valid() && authRx == null
      ensures run == After(old(run), LetGo)
      ensures old(authRx) == null ==> run == old(run)
      ensures old(authRx) != null ==> old(authRx).handed && run.requests[old(run).inFlight.value].holder.Thread?
    {
      hide Sound;
      ghost var before := run;
      StepIsSound(run, LetGo);
      if authRx != null {
        LetGoFollows(run);
        authRx.Drop();
        authRx := null;
      }
      run := After(before, LetGo);
    }
  }

  lemma StartHolds(run: Run)
    requires run.inFlight.None?
    ensures Enabled(run, Start) && After(run, Start).inFlight.Some?
  {}

  lemma PollFollows(run: Run)
    requires Sound(run) && run.inFlight.Some?
    ensures var r := run.inFlight.value;
            && r < |run.requests|
            && (After(run, Poll).inFlight.Some? <==> run.requests[r].channel.Look().Empty?)
            && !After(run, Poll).requests[r].holder.Thread?
  {}

  lemma LetGoFollows(run: Run)
    requires Sound(run) && run.inFlight.Some?
    ensures var r := run.inFlight.value;
            && r < |run.requests|
            && After(run, LetGo).inFlight.None?
            && After(run, LetGo).requests[r].holder.Thread?
  {}
}
