/** Frame polling does not change what a controller plays: with no turntable bound, however a list
    of raw changes is cut into polls, the events, their instants and the gates come out the same. */
module FrameIndependence {
  import opened Common
  import opened StableSort
  import opened InputDebounce
  import opened Gamepad

  lemma ThenThrice(a: Played, b: Played, c: Played)
    ensures Then(Then(a, b), c) == Then(a, Then(b, c))
  {}

  lemma {:induction false} HandAllInTwo(
    gates: Gates, plan: seq<PlanEntry>, a: seq<Keyed<Handing>>, b: seq<Keyed<Handing>>)
    ensures var first := HandAll(gates, plan, a);
            HandAll(gates, plan, a + b) == Then(first, HandAll(first.gates, plan, b))
  {
    hide HandOne;
    var first := HandAll(gates, plan, a);
    if b == [] {
      assert a + b == a;
    } else {
      var init, last := b[..|b| - 1], b[|b| - 1];
      assert (a + b)[..|a + b| - 1] == a + init;
      HandAllInTwo(gates, plan, a, init);
      var second := HandAll(first.gates, plan, init);
      ThenThrice(first, second, HandOne(second.gates, plan, last.item));
    }
  }

  /** Whether `x` is the release of an element of `order` that has opened by `until`. */
  ghost predicate IsOpened(gates: Gates, order: seq<PadElement>, until: Micros, window: nat, x: Keyed<Handing>) {
    && x.item.element in order
    && !x.item.pressed
    && x.key == x.item.at
    && GateOf(gates, x.item.element).ReleaseOpenedBy(until, window) == Some(x.item.at)
  }

  lemma {:induction false} OpenedInHolds(gates: Gates, order: seq<PadElement>, until: Micros, window: nat)
    ensures forall x :: x in OpenedIn(gates, order, until, window) <==> IsOpened(gates, order, until, window, x)
  {
    if order != [] {
      OpenedInHolds(gates, order[..|order| - 1], until, window);
      assert order == order[..|order| - 1] + [order[|order| - 1]];
    }
  }

  lemma SortedOpenedHolds(gates: Gates, order: seq<PadElement>, until: Micros, window: nat)
    ensures forall x ::
              x in SortByKey(OpenedIn(gates, order, until, window)) <==> IsOpened(gates, order, until, window, x)
  {
    OpenedInHolds(gates, order, until, window);
    SortKeepsEntries(OpenedIn(gates, order, until, window));
  }

  /** The gate of `e` after releases that, where they are of `e`, are all at `at`. */
  lemma {:induction false} HandAllGate(
    gates: Gates, plan: seq<PlanEntry>, list: seq<Keyed<Handing>>, e: PadElement, at: Micros)
    requires forall x :: x in list && x.item.element == e ==> x.item.at == at
    ensures var after := GateOf(HandAll(gates, plan, list).gates, e);
            if exists x :: x in list && x.item.element == e then after == GateOf(gates, e).HandOver(false, at).0
            else after == GateOf(gates, e)
  {
    if list != [] {
      var init, last := list[..|list| - 1], list[|list| - 1];
      assert list == init + [last];
      HandAllGate(gates, plan, init, e, at);
      if last.item.element == e {
        assert last in list;
      }
    }
  }

  /** The gate of `e` after the releases opened by `until` are taken. */
  lemma TakeOpenedGate(setup: Setup, gates: Gates, until: Micros, e: PadElement)
    ensures GateOf(TakeOpened(setup, gates, until).gates, e) ==
            match GateOf(gates, e).ReleaseOpenedBy(until, setup.window)
            case Some(opens) => if e in Keys(setup) then GateOf(gates, e).HandOver(false, opens).0 else GateOf(gates, e)
            case None => GateOf(gates, e)
  {
    var list := SortByKey(OpenedIn(gates, Keys(setup), until, setup.window));
    SortedOpenedHolds(gates, Keys(setup), until, setup.window);
    var opens := GateOf(gates, e).ReleaseOpenedBy(until, setup.window);
    if opens.Some? && e in Keys(setup) {
      assert IsOpened(gates, Keys(setup), until, setup.window, Keyed(opens.value, Handing(e, false, opens.value)));
      HandAllGate(gates, setup.plan, list, e, opens.value);
    } else {
      HandAllGate(gates, setup.plan, list, e, 0);
    }
  }

  // ---------- Taking what has opened twice ----------

  lemma {:induction false} OpenedEarlier(gates: Gates, order: seq<PadElement>, early: Micros, late: Micros, window: nat)
    requires early <= late
    ensures OpenedIn(gates, order, early, window) == UpTo(OpenedIn(gates, order, late, window), early)
  {
    if order != [] {
      OpenedEarlier(gates, order[..|order| - 1], early, late, window);
      var all := OpenedIn(gates, order[..|order| - 1], late, window);
      match GateOf(gates, order[|order| - 1]).ReleaseOpenedBy(late, window)
      case Some(opens) => SplitsOfAppend(all, Keyed(opens, Handing(order[|order| - 1], false, opens)), early);
      case None =>
        assert OpenedIn(gates, order, late, window) == all;
        assert OpenedIn(gates, order, early, window) == OpenedIn(gates, order[..|order| - 1], early, window);
    }
  }

  lemma OpenedOfSince(setup: Setup, gates: Gates, e: PadElement, early: Micros, late: Micros)
    requires early <= late && e in Keys(setup)
    ensures OpenedOf(TakeOpened(setup, gates, early).gates, e, late, setup.window)
            == Above(OpenedOf(gates, e, late, setup.window), early)
  {
    hide TakeOpened, Keys;
    TakeOpenedGate(setup, gates, early, e);
    match GateOf(gates, e).ReleaseOpenedBy(late, setup.window)
    case Some(opens) => SplitsOfAppend([], Keyed(opens, Handing(e, false, opens)), early);
    case None =>
  }

  lemma AboveOfOne<T>(x: Keyed<T>, bound: int)
    ensures Above([x], bound) == if x.key > bound then [x] else []
  {
    SplitsOfAppend([], x, bound);
    assert [] + [x] == [x];
  }

  lemma AboveInTwo<T>(a: seq<Keyed<T>>, b: seq<Keyed<T>>, bound: int)
    requires |b| <= 1
    ensures Above(a + b, bound) == Above(a, bound) + Above(b, bound)
  {
    if b == [] {
      assert a + b == a;
    } else {
      hide Above;
      assert b == [b[0]];
      SplitsOfAppend(a, b[0], bound);
      AboveOfOne(b[0], bound);
    }
  }

  lemma {:induction false} OpenedSince(setup: Setup, gates: Gates, order: seq<PadElement>, early: Micros, late: Micros)
    requires early <= late
    requires forall e :: e in order ==> e in Keys(setup)
    ensures OpenedIn(TakeOpened(setup, gates, early).gates, order, late, setup.window)
            == Above(OpenedIn(gates, order, late, setup.window), early)
  {
    hide TakeOpened, Keys, OpenedOf;
    if order != [] {
      var init, e := order[..|order| - 1], order[|order| - 1];
      OpenedSince(setup, gates, init, early, late);
      OpenedOfSince(setup, gates, e, early, late);
      AtMostOneOpens(gates, e, late, setup.window);
      AboveInTwo(OpenedIn(gates, init, late, setup.window), OpenedOf(gates, e, late, setup.window), early);
    }
  }

  lemma AtMostOneOpens(gates: Gates, e: PadElement, until: Micros, window: nat)
    ensures |OpenedOf(gates, e, until, window)| <= 1
  {}

  /** Taking what has opened at one instant and again later is taking it once, later. */
  lemma TakeOpenedTwice(setup: Setup, gates: Gates, early: Micros, late: Micros)
    requires early <= late
    ensures var first := TakeOpened(setup, gates, early);
            TakeOpened(setup, gates, late) == Then(first, TakeOpened(setup, first.gates, late))
  {
    var all := OpenedIn(gates, Keys(setup), late, setup.window);
    OpenedEarlier(gates, Keys(setup), early, late, setup.window);
    OpenedSince(setup, gates, Keys(setup), early, late);
    SortSplits(all, early);
    HandAllInTwo(gates, setup.plan, SortByKey(UpTo(all, early)), SortByKey(Above(all, early)));
  }

  // ---------- Polls ----------

  lemma NothingSpins(setup: Setup, pad: Pad, at: Micros, spun: set<PadElement>)
    requires Turntables(setup) == []
    ensures Took(setup, pad, Spin(at, spun)) == Ran(pad, [], [])
  {
    var answers := SpinAnswers(setup, pad.gates, spun, at);
    assert answers == map[];
    assert Fired(answers) == map[];
    NoEvents(setup.plan);
  }

  lemma {:induction false} NoEvents(plan: seq<PlanEntry>)
    ensures Events(plan, map[]) == []
  {
    if plan != [] {
      NoEvents(plan[..|plan| - 1]);
    }
  }

  /** An earlier look for opened releases changes nothing of a later step but when it is made. */
  lemma OpenBefore(setup: Setup, pad: Pad, early: Micros, step: Step)
    requires step.Change? || step.Open?
    requires early <= step.at
    ensures var first := Took(setup, pad, Open(early));
            Joined(first, Took(setup, first.pad, step)) == Took(setup, pad, step)
  {
    hide TakeOpened, ReadKeys;
    TakeOpenedTwice(setup, pad.gates, early, step.at);
  }

  lemma RunOfOne(setup: Setup, pad: Pad, step: Step)
    ensures Run(setup, pad, [step]) == Took(setup, pad, step)
  {
    assert [step][..0] == [];
    assert Run(setup, pad, []) == Ran(pad, [], []);
  }

  lemma RunOfFirst(setup: Setup, pad: Pad, step: Step, rest: seq<Step>)
    ensures var first := Took(setup, pad, step);
            Run(setup, pad, [step] + rest) == Joined(first, Run(setup, first.pad, rest))
  {
    hide Took;
    RunInTwo(setup, pad, [step], rest);
    RunOfOne(setup, pad, step);
  }

  /** A look for opened releases, or a turntable reading, is of no account before a later step. */
  lemma PollEndDropped(setup: Setup, pad: Pad, poll: Poll, rest: seq<Step>)
    requires Turntables(setup) == []
    requires rest != [] && (rest[0].Change? || rest[0].Open?) && poll.now <= rest[0].at
    ensures Run(setup, pad, [Open(poll.now), Spin(poll.now, poll.spun)] + rest) == Run(setup, pad, rest)
  {
    hide Took;
    var open, spin := Open(poll.now), Spin(poll.now, poll.spun);
    assert [open, spin] + rest == [open] + ([spin] + rest);
    RunOfFirst(setup, pad, open, [spin] + rest);
    var first := Took(setup, pad, open);
    RunOfFirst(setup, first.pad, spin, rest);
    NothingSpins(setup, first.pad, poll.now, poll.spun);
    assert rest == [rest[0]] + rest[1..];
    RunOfFirst(setup, first.pad, rest[0], rest[1..]);
    RunOfFirst(setup, pad, rest[0], rest[1..]);
    OpenBefore(setup, pad, poll.now, rest[0]);
    var second := Took(setup, first.pad, rest[0]);
    JoinedThrice(first, second, Run(setup, second.pad, rest[1..]));
  }

  /** Each poll's instant is no later than the next poll's first change, or than its instant when it
      brings none. */
  ghost predicate InStep(polls: seq<Poll>) {
    forall i :: 0 < i < |polls| ==>
      polls[i - 1].now <= (if polls[i].changes == [] then polls[i].now else polls[i].changes[0].at)
  }

  function AllChanges(polls: seq<Poll>): seq<Report> {
    if polls == [] then [] else AllChanges(polls[..|polls| - 1]) + polls[|polls| - 1].changes
  }

  /** The same changes taken in one poll at the last instant. */
  function AsOnePoll(polls: seq<Poll>): Poll
    requires polls != []
  {
    Poll(AllChanges(polls), polls[|polls| - 1].now, polls[|polls| - 1].spun)
  }

  /** However the changes are cut into polls, what is played, when, and what the gates come to is
      what one poll makes of them. */
  lemma {:induction false} FrameRateIndependent(setup: Setup, pad: Pad, polls: seq<Poll>)
    requires polls != [] && InStep(polls)
    requires Turntables(setup) == []
    ensures Run(setup, pad, AllSteps(polls)) == Run(setup, pad, PollSteps(AsOnePoll(polls)))
  {
    hide Took, Run;
    var last := polls[|polls| - 1];
    var init := polls[..|polls| - 1];
    if init == [] {
      assert AllSteps(polls) == PollSteps(last);
      assert AllChanges(polls) == last.changes;
    } else {
      FrameRateIndependent(setup, pad, init);
      var earlier := AsOnePoll(init);
      RunInTwo(setup, pad, AllSteps(init), PollSteps(last));
      RunInTwo(setup, pad, PollSteps(earlier), PollSteps(last));
      var changes, end := ChangeSteps(earlier.changes), [Open(earlier.now), Spin(earlier.now, earlier.spun)];
      assert PollSteps(earlier) + PollSteps(last) == changes + (end + PollSteps(last));
      RunInTwo(setup, pad, changes, end + PollSteps(last));
      RunInTwo(setup, pad, changes, PollSteps(last));
      PollEndDropped(setup, Run(setup, pad, changes).pad, earlier, PollSteps(last));
      assert changes + PollSteps(last) == PollSteps(AsOnePoll(polls));
    }
  }
}
