/** What a run of the controller layer also keeps when each poll's changes come no earlier than the poll
    before: instants never go back from poll to poll, and no press comes within the bounce gap of the
    release before it. */
module PadInvariant {
  import opened Common
  import opened InputDebounce
  import opened Gamepad
  import opened FrameIndependence
  import opened PadAlways
  import opened PadRuns

  /** What has been played since `from`, by `t`. */
  ghost predicate Kept(setup: Setup, played: Played, from: int, t: Micros) {
    && from <= t
    && Rises(played, from, t)
    && NoneDue(setup, played.gates, t)
    && (forall e :: e in Keys(setup) ==> Keeps(GateOf(played.gates, e), LogOf(played.handings, e), setup.window))
  }

  lemma LastLogged(setup: Setup, played: Played, from: int, t: Micros, e: PadElement)
    requires Kept(setup, played, from, t)
    ensures var log := LogOf(played.handings, e);
            log != [] ==> log[|log| - 1].at <= t
  {
    LogUpTo(played.handings, e, t);
  }

  lemma OpenKeeps(setup: Setup, played: Played, from: int, t: Micros, until: Micros)
    requires Kept(setup, played, from, t) && t <= until
    ensures Kept(setup, Then(played, TakeOpened(setup, played.gates, until)), from, until)
  {
    hide TakeOpened, Keys, Keeps, NoneDue;
    var taken := TakeOpened(setup, played.gates, until);
    var after := Then(played, taken);
    assert NoneDue(setup, played.gates, t);
    TakeOpenedRises(setup, played.gates, t, until);
    RisesOn(played, taken, from, t, until);
    forall e | e in Keys(setup) ensures Keeps(GateOf(after.gates, e), LogOf(after.handings, e), setup.window) {
      OpenKeepsOne(setup, played, until, e);
    }
  }

  lemma OpenKeepsOne(setup: Setup, played: Played, until: Micros, e: PadElement)
    requires e in Keys(setup) && Keeps(GateOf(played.gates, e), LogOf(played.handings, e), setup.window)
    ensures var after := Then(played, TakeOpened(setup, played.gates, until));
            Keeps(GateOf(after.gates, e), LogOf(after.handings, e), setup.window)
  {
    hide TakeOpened, Keys, Keeps;
    var taken := TakeOpened(setup, played.gates, until);
    TakeOpenedGate(setup, played.gates, until, e);
    TakeOpenedLog(setup, played.gates, until, e);
    LogOfTwo(played.handings, taken.handings, e);
    match GateOf(played.gates, e).ReleaseOpenedBy(until, setup.window)
    case Some(opens) => OpenedReleaseKeeps(GateOf(played.gates, e), LogOf(played.handings, e), until, setup.window);
    case None => assert LogOf(played.handings, e) + [] == LogOf(played.handings, e);
  }

  lemma ReadKeepsOne(setup: Setup, played: Played, from: int, at: Micros, snapshot: Snapshot, e: PadElement)
    requires Kept(setup, played, from, at) && e in Keys(setup)
    ensures var after := Then(played, ReadKeys(setup, played.gates, snapshot, at));
            && Keeps(GateOf(after.gates, e), LogOf(after.handings, e), setup.window)
            && GateOf(after.gates, e).ReleaseOpenedBy(at, setup.window) == None
  {
    hide Keeps, Keys, ReadKeys, LogOf, Rises;
    var gate, log := GateOf(played.gates, e), LogOf(played.handings, e);
    assert gate.ReleaseOpenedBy(at, setup.window) == None;
    ReadOne(setup, played.gates, snapshot, at, e);
    LogOfTwo(played.handings, ReadKeys(setup, played.gates, snapshot, at).handings, e);
    LastLogged(setup, played, from, at, e);
    OfferKeeps(gate, log, snapshot.Reads(e, setup.deadzone), at, setup.window);
    assert log + [] == log;
  }

  lemma ReadKeeps(setup: Setup, played: Played, from: int, at: Micros, snapshot: Snapshot)
    requires Kept(setup, played, from, at)
    ensures Kept(setup, Then(played, ReadKeys(setup, played.gates, snapshot, at)), from, at)
  {
    hide Keys, Keeps, Elements, Events, LogOf;
    var answers := KeyAnswers(setup, played.gates, snapshot, at);
    var read := ReadKeys(setup, played.gates, snapshot, at);
    var after := Then(played, read);
    FiredRise(Keys(setup), answers, at);
    RisesOn(played, read, from, at, at);
    forall e | e in Keys(setup)
      ensures Keeps(GateOf(after.gates, e), LogOf(after.handings, e), setup.window)
      ensures GateOf(after.gates, e).ReleaseOpenedBy(at, setup.window) == None
    {
      ReadKeepsOne(setup, played, from, at, snapshot, e);
    }
  }

  lemma SpinKeeps(setup: Setup, played: Played, from: int, at: Micros, spun: set<PadElement>)
    requires Kept(setup, played, from, at)
    ensures Kept(setup, Then(played, ReadTurntables(setup, played.gates, spun, at)), from, at)
  {
    hide Keeps, Keys, Turntables, Elements, Events, LogOf;
    var answers := SpinAnswers(setup, played.gates, spun, at);
    var read := ReadTurntables(setup, played.gates, spun, at);
    var after := Then(played, read);
    KeysAreDistinct(setup);
    FiredRise(Turntables(setup), answers, at);
    RisesOn(played, read, from, at, at);
    forall e | e in Keys(setup)
      ensures GateOf(after.gates, e) == GateOf(played.gates, e)
      ensures Keeps(GateOf(after.gates, e), LogOf(after.handings, e), setup.window)
    {
      FiredLog(Turntables(setup), answers, at, e);
      LogOfTwo(played.handings, read.handings, e);
      assert LogOf(played.handings, e) + [] == LogOf(played.handings, e);
    }
  }

  // ---------- Steps and polls ----------

  /** A poll's parts follow one another in time, its first no earlier than `t`: the changes come in
      order, none before what was done already and none after the poll's instant. */
  ghost predicate Follows(poll: Poll, t: Micros) {
    && t <= poll.now
    && (forall i :: 0 <= i < |poll.changes| ==> t <= poll.changes[i].at <= poll.now)
    && (forall i, j :: 0 <= i < j < |poll.changes| ==> poll.changes[i].at <= poll.changes[j].at)
  }

  /** The instant of the last of some polls, `from` before the first. */
  function LastNow(polls: seq<Poll>, from: Micros): Micros {
    if polls == [] then from else polls[|polls| - 1].now
  }

  /** Every poll's parts follow the poll before. */
  ghost predicate InTime(polls: seq<Poll>, from: Micros) {
    polls == [] || (InTime(polls[..|polls| - 1], from)
      && Follows(polls[|polls| - 1], LastNow(polls[..|polls| - 1], from)))
  }

  lemma StepKeeps(setup: Setup, ran: Ran, from: int, t: Micros, step: Step)
    requires Kept(setup, AsPlayed(ran), from, t) && t <= step.at && (step.Spin? ==> t == step.at)
    ensures Kept(setup, AsPlayed(Joined(ran, Took(setup, ran.pad, step))), from, step.at)
  {
    hide Kept, TakeOpened, ReadKeys, ReadTurntables;
    var played := AsPlayed(ran);
    var after := AsPlayed(Joined(ran, Took(setup, ran.pad, step)));
    match step
    case Open(at) =>
      OpenKeeps(setup, played, from, t, at);
    case Change(at, change) =>
      var taken := TakeOpened(setup, played.gates, at);
      OpenKeeps(setup, played, from, t, at);
      ReadKeeps(setup, Then(played, taken), from, at, ran.pad.snapshot.Apply(change));
      ThenThrice(played, taken, ReadKeys(setup, taken.gates, ran.pad.snapshot.Apply(change), at));
    case Spin(at, spun) =>
      SpinKeeps(setup, played, from, at, spun);
  }

  lemma {:induction false} ChangesKeep(setup: Setup, ran: Ran, from: int, t: Micros, poll: Poll, n: nat)
    requires Kept(setup, AsPlayed(ran), from, t) && Follows(poll, t) && n <= |poll.changes|
    ensures var at := if n == 0 then t else poll.changes[n - 1].at;
            Kept(setup, AsPlayed(Joined(ran, Run(setup, ran.pad, ChangeSteps(poll.changes[..n])))), from, at)
  {
    hide Kept, Took;
    var steps := ChangeSteps(poll.changes[..n]);
    if n == 0 {
      assert Joined(ran, Run(setup, ran.pad, steps)) == ran;
    } else {
      ChangesKeep(setup, ran, from, t, poll, n - 1);
      var init := ChangeSteps(poll.changes[..n - 1]);
      assert steps[..n - 1] == init;
      var before := Run(setup, ran.pad, init);
      var last := poll.changes[n - 1];
      var since := if n == 1 then t else poll.changes[n - 2].at;
      StepKeeps(setup, Joined(ran, before), from, since, Change(last.at, last.change));
      JoinedThrice(ran, before, Took(setup, before.pad, Change(last.at, last.change)));
    }
  }

  lemma PollKeeps(setup: Setup, ran: Ran, from: int, t: Micros, poll: Poll)
    requires Kept(setup, AsPlayed(ran), from, t) && Follows(poll, t)
    ensures Kept(setup, AsPlayed(Joined(ran, Run(setup, ran.pad, PollSteps(poll)))), from, poll.now)
  {
    hide Kept, Took;
    var n := |poll.changes|;
    ChangesKeep(setup, ran, from, t, poll, n);
    assert poll.changes[..n] == poll.changes;
    var changes := ChangeSteps(poll.changes);
    var first := Run(setup, ran.pad, changes);
    var open, spin := Open(poll.now), Spin(poll.now, poll.spun);
    StepKeeps(setup, Joined(ran, first), from, if n == 0 then t else poll.changes[n - 1].at, open);
    var second := Took(setup, first.pad, open);
    StepKeeps(setup, Joined(Joined(ran, first), second), from, poll.now, spin);
    var third := Took(setup, second.pad, spin);
    assert PollSteps(poll) == changes + ([open] + [spin]);
    RunInTwo(setup, ran.pad, changes, [open] + [spin]);
    RunOfFirst(setup, first.pad, open, [spin]);
    RunOfOne(setup, second.pad, spin);
    JoinedThrice(ran, first, Joined(second, third));
    JoinedThrice(Joined(ran, first), second, third);
  }

  lemma FreshKept(setup: Setup, from: Micros)
    ensures Kept(setup, AsPlayed(Ran(FRESH_PAD, [], [])), from, from)
  {
  }

  /** Over a run of polls that follow one another, instants never go back and every key's changes keep both
      of the debounce's distances. */
  lemma {:induction false} RunIsKept(setup: Setup, polls: seq<Poll>, from: Micros)
    requires InTime(polls, from)
    ensures Kept(setup, AsPlayed(Run(setup, FRESH_PAD, AllSteps(polls))), from, LastNow(polls, from))
  {
    hide Kept, Took;
    if polls == [] {
      FreshKept(setup, from);
    } else {
      var init, last := polls[..|polls| - 1], polls[|polls| - 1];
      RunIsKept(setup, init, from);
      var before := Run(setup, FRESH_PAD, AllSteps(init));
      PollKeeps(setup, before, from, LastNow(init, from), last);
      RunInTwo(setup, FRESH_PAD, AllSteps(init), PollSteps(last));
    }
  }
}
