/** What every run of the controller layer keeps: instants that never go back, changes of each
    element that alternate and keep the debounce's distances, and lanes held exactly as often as
    they were pressed and not let go of. */
module PadRuns {
  import opened Common
  import opened StableSort
  import opened InputDebounce
  import opened Gamepad
  import opened FrameIndependence

  // ---------- The changes of one element ----------

  function LogOf(handings: seq<Handing>, e: PadElement): seq<Handed> {
    if handings == [] then []
    else
      var h := handings[|handings| - 1];
      LogOf(handings[..|handings| - 1], e) + (if h.element == e then [Handed(h.pressed, h.at)] else [])
  }

  lemma {:induction false} LogOfTwo(a: seq<Handing>, b: seq<Handing>, e: PadElement)
    ensures LogOf(a + b, e) == LogOf(a, e) + LogOf(b, e)
  {
    if b == [] {
      assert a + b == a;
    } else {
      assert (a + b)[..|a + b| - 1] == a + b[..|b| - 1];
      LogOfTwo(a, b[..|b| - 1], e);
    }
  }

  function OnlyOf(list: seq<Keyed<Handing>>, e: PadElement): seq<Keyed<Handing>> {
    if list == [] then []
    else OnlyOf(list[..|list| - 1], e) + (if list[|list| - 1].item.element == e then [list[|list| - 1]] else [])
  }

  lemma OnlyOfLonger(list: seq<Keyed<Handing>>, x: Keyed<Handing>, e: PadElement)
    ensures OnlyOf(list + [x], e) == if x.item.element == e then OnlyOf(list, e) + [x] else OnlyOf(list, e)
  {
    assert (list + [x])[..|list|] == list;
  }

  lemma {:induction false} OnlyOfBound(list: seq<Keyed<Handing>>, e: PadElement, bound: int)
    requires AllUpTo(list, bound)
    ensures AllUpTo(OnlyOf(list, e), bound)
  {
    if list != [] {
      OnlyOfBound(list[..|list| - 1], e, bound);
    }
  }

  lemma InsertBeforeLarger(list: seq<Keyed<Handing>>, last: Keyed<Handing>, x: Keyed<Handing>)
    requires last.key > x.key
    ensures Insert(list + [last], x) == Insert(list, x) + [last]
  {
    assert (list + [last])[..|list|] == list;
  }

  lemma {:induction false} OnlyOfInsert(list: seq<Keyed<Handing>>, x: Keyed<Handing>, e: PadElement)
    requires Sorted(list)
    ensures OnlyOf(Insert(list, x), e) == if x.item.element == e then Insert(OnlyOf(list, e), x) else OnlyOf(list, e)
  {
    if list == [] || list[|list| - 1].key <= x.key {
      OnlyOfLonger(list, x, e);
      OnlyOfBound(list, e, x.key);
    } else {
      hide Insert, OnlyOf;
      var init, last := list[..|list| - 1], list[|list| - 1];
      assert list == init + [last];
      OnlyOfInsert(init, x, e);
      InsertBeforeLarger(init, last, x);
      InsertBeforeLarger(OnlyOf(init, e), last, x);
      OnlyOfLonger(Insert(init, x), last, e);
      OnlyOfLonger(init, last, e);
    }
  }

  /** Sorting leaves the entries of one element sorted among themselves. */
  lemma {:induction false} OnlyOfSorted(list: seq<Keyed<Handing>>, e: PadElement)
    ensures OnlyOf(SortByKey(list), e) == SortByKey(OnlyOf(list, e))
  {
    if list != [] {
      OnlyOfSorted(list[..|list| - 1], e);
      OnlyOfSortedLonger(list[..|list| - 1], list[|list| - 1], e);
      assert list == list[..|list| - 1] + [list[|list| - 1]];
    }
  }

  lemma OnlyOfSortedLonger(init: seq<Keyed<Handing>>, x: Keyed<Handing>, e: PadElement)
    requires OnlyOf(SortByKey(init), e) == SortByKey(OnlyOf(init, e))
    ensures OnlyOf(SortByKey(init + [x]), e) == SortByKey(OnlyOf(init + [x], e))
  {
    hide Insert, OnlyOf, SortByKey;
    SortIsStable(init, 0);
    SortOfAppend(init, x);
    OnlyOfInsert(SortByKey(init), x, e);
    OnlyOfLonger(init, x, e);
    if x.item.element == e {
      SortOfAppend(OnlyOf(init, e), x);
    }
  }

  lemma {:induction false} OnlyOfNone(list: seq<Keyed<Handing>>, e: PadElement)
    ensures OnlyOf(list, e) == [] <==> forall x :: x in list ==> x.item.element != e
  {
    if list != [] {
      OnlyOfNone(list[..|list| - 1], e);
      assert list == list[..|list| - 1] + [list[|list| - 1]];
    }
  }

  lemma OnlyOfNothing(e: PadElement)
    ensures OnlyOf([], e) == []
  {}

  /** An element that is not asked about again adds its own opened release, or nothing. */
  lemma OnlyOfOneMore(
    gates: Gates, all: seq<Keyed<Handing>>, last: PadElement, until: Micros, window: nat, e: PadElement)
    ensures OnlyOf(all + OpenedOf(gates, last, until, window), e)
            == if e == last then OnlyOf(all, e) + OpenedOf(gates, e, until, window) else OnlyOf(all, e)
  {
    hide OnlyOf;
    match GateOf(gates, last).ReleaseOpenedBy(until, window)
    case Some(opens) => OnlyOfLonger(all, Keyed(opens, Handing(last, false, opens)), e);
    case None =>
      assert all + [] == all && OnlyOf(all, e) + [] == OnlyOf(all, e);
  }

  lemma {:induction false} OnlyOfOpened(gates: Gates, order: seq<PadElement>, until: Micros, window: nat, e: PadElement)
    requires Distinct(order)
    ensures OnlyOf(OpenedIn(gates, order, until, window), e)
            == if e in order then OpenedOf(gates, e, until, window) else []
  {
    hide OnlyOf, OpenedOf;
    if order == [] {
      OnlyOfNothing(e);
    } else {
      var init, last := order[..|order| - 1], order[|order| - 1];
      OnlyOfOpened(gates, init, until, window, e);
      assert order == init + [last];
      assert e == last ==> e !in init;
      OnlyOfOneMore(gates, OpenedIn(gates, init, until, window), last, until, window, e);
      assert [] + OpenedOf(gates, e, until, window) == OpenedOf(gates, e, until, window);
    }
  }

  /** The opened releases, in the order they are taken. */
  function Releases(setup: Setup, gates: Gates, until: Micros): seq<Keyed<Handing>> {
    SortByKey(OpenedIn(gates, Keys(setup), until, setup.window))
  }

  lemma ReleasesOfOne(setup: Setup, gates: Gates, until: Micros, e: PadElement)
    ensures OnlyOf(Releases(setup, gates, until), e)
            == if e in Keys(setup) then OpenedOf(gates, e, until, setup.window) else []
  {
    var list := OpenedIn(gates, Keys(setup), until, setup.window);
    ElementsAreThePlans(setup.plan, setup.analog, false);
    OnlyOfOpened(gates, Keys(setup), until, setup.window, e);
    OnlyOfSorted(list, e);
    AtMostOneOpens(gates, e, until, setup.window);
    SortedIsUnchanged(OnlyOf(list, e));
  }

  function Items(list: seq<Keyed<Handing>>): seq<Handing> {
    if list == [] then [] else Items(list[..|list| - 1]) + [list[|list| - 1].item]
  }

  lemma ItemsOfOne(list: seq<Keyed<Handing>>)
    requires |list| == 1
    ensures Items(list) == [list[0].item]
  {
    assert list[..|list| - 1] == [];
  }

  lemma {:induction false} HandAllLog(gates: Gates, plan: seq<PlanEntry>, list: seq<Keyed<Handing>>)
    ensures HandAll(gates, plan, list).handings == Items(list)
  {
    if list != [] {
      HandAllLog(gates, plan, list[..|list| - 1]);
    }
  }

  lemma {:induction false} LogOfItems(list: seq<Keyed<Handing>>, e: PadElement)
    ensures LogOf(Items(list), e) == LogOf(Items(OnlyOf(list, e)), e)
  {
    if list != [] {
      var init, last := list[..|list| - 1], list[|list| - 1];
      LogOfItems(init, e);
      LogOfTwo(Items(init), [last.item], e);
      if last.item.element == e {
        assert (OnlyOf(init, e) + [last])[..|OnlyOf(init, e)|] == OnlyOf(init, e);
        LogOfTwo(Items(OnlyOf(init, e)), [last.item], e);
      } else {
        assert LogOf([last.item], e) == LogOf([last.item][..0], e) + [];
        assert OnlyOf(list, e) == OnlyOf(init, e);
      }
    }
  }

  lemma LogOfOne(h: Handing, e: PadElement)
    ensures LogOf([h], e) == if h.element == e then [Handed(h.pressed, h.at)] else []
  {
    var one := [h];
    assert one[..|one| - 1] == [];
  }

  /** What taking the opened releases hands over of one element. */
  lemma TakeOpenedLog(setup: Setup, gates: Gates, until: Micros, e: PadElement)
    ensures LogOf(TakeOpened(setup, gates, until).handings, e) ==
            match GateOf(gates, e).ReleaseOpenedBy(until, setup.window)
            case Some(opens) => if e in Keys(setup) then [Handed(false, opens)] else []
            case None => []
  {
    var list := Releases(setup, gates, until);
    HandAllLog(gates, setup.plan, list);
    LogOfItems(list, e);
    ReleasesOfOne(setup, gates, until, e);
    match GateOf(gates, e).ReleaseOpenedBy(until, setup.window)
    case Some(opens) =>
      var x := Keyed(opens, Handing(e, false, opens));
      ItemsOfOne([x]);
      LogOfOne(x.item, e);
    case None =>
  }

  lemma FiredOfLog(asked: PadElement, answers: map<PadElement, Answer>, at: Micros, e: PadElement)
    ensures LogOf(FiredOf(asked, answers, at), e) ==
            if asked == e && e in answers && answers[e].fired then [Handed(answers[e].pressed, at)] else []
  {
    if asked in answers && answers[asked].fired {
      LogOfOne(Handing(asked, answers[asked].pressed, at), e);
    }
  }

  /** What asking the elements of `order` hands over of one of them. */
  lemma {:induction false} FiredLog(order: seq<PadElement>, answers: map<PadElement, Answer>, at: Micros, e: PadElement)
    requires Distinct(order)
    ensures LogOf(FiredIn(order, answers, at), e) ==
            if e in order && e in answers && answers[e].fired then [Handed(answers[e].pressed, at)] else []
  {
    if order != [] {
      hide LogOf, FiredOf;
      var init, last := order[..|order| - 1], order[|order| - 1];
      assert order == init + [last];
      assert e == last ==> e !in init;
      FiredLog(init, answers, at, e);
      FiredOfLog(last, answers, at, e);
      LogOfTwo(FiredIn(init, answers, at), FiredOf(last, answers, at), e);
    }
  }

  // ---------- Instants ----------

  ghost predicate EventsRise(events: seq<Timed>, from: int, to: int) {
    && (forall i :: 0 <= i < |events| ==> from <= events[i].at <= to)
    && (forall i, j :: 0 <= i < j < |events| ==> events[i].at <= events[j].at)
  }

  ghost predicate HandingsRise(handings: seq<Handing>, from: int, to: int) {
    && (forall i :: 0 <= i < |handings| ==> from <= handings[i].at <= to)
    && (forall i, j :: 0 <= i < j < |handings| ==> handings[i].at <= handings[j].at)
  }

  /** Both what is played and the changes it comes from never go back in time. */
  ghost predicate Rises(played: Played, from: int, to: int) {
    EventsRise(played.events, from, to) && HandingsRise(played.handings, from, to)
  }

  lemma RisesOn(first: Played, second: Played, from: int, mid: int, to: int)
    requires from <= mid <= to
    requires Rises(first, from, mid) && Rises(second, mid, to)
    ensures Rises(Then(first, second), from, to)
  {}

  lemma {:induction false} HandAllRises(
    gates: Gates, plan: seq<PlanEntry>, list: seq<Keyed<Handing>>, from: int, to: int)
    requires Sorted(list) && from <= to
    requires forall i :: 0 <= i < |list| ==> from <= list[i].key <= to && list[i].item.at == list[i].key
    ensures Rises(HandAll(gates, plan, list), from, to)
  {
    if list != [] {
      var init, last := list[..|list| - 1], list[|list| - 1];
      HandAllRises(gates, plan, init, from, last.key);
      var before := HandAll(gates, plan, init);
      RisesOn(before, HandOne(before.gates, plan, last.item), from, last.key, to);
    }
  }

  lemma {:induction false} FiredRise(order: seq<PadElement>, answers: map<PadElement, Answer>, at: Micros)
    ensures HandingsRise(FiredIn(order, answers, at), at, at)
  {
    if order != [] {
      FiredRise(order[..|order| - 1], answers, at);
    }
  }

  lemma {:induction false} LogUpTo(handings: seq<Handing>, e: PadElement, to: int)
    requires forall i :: 0 <= i < |handings| ==> handings[i].at <= to
    ensures forall i :: 0 <= i < |LogOf(handings, e)| ==> LogOf(handings, e)[i].at <= to
  {
    if handings != [] {
      LogUpTo(handings[..|handings| - 1], e, to);
    }
  }

  /** No release kept out has its window ended by `t` without having been taken. */
  ghost predicate NoneDue(setup: Setup, gates: Gates, t: Micros) {
    forall e :: e in Keys(setup) ==> GateOf(gates, e).ReleaseOpenedBy(t, setup.window) == None
  }

  lemma TakeOpenedRises(setup: Setup, gates: Gates, t: Micros, until: Micros)
    requires NoneDue(setup, gates, t) && t <= until
    ensures Rises(TakeOpened(setup, gates, until), t, until)
    ensures NoneDue(setup, TakeOpened(setup, gates, until).gates, until)
  {
    hide Keys, HandAll;
    var list := Releases(setup, gates, until);
    var due := OpenedIn(gates, Keys(setup), until, setup.window);
    SortedOpenedHolds(gates, Keys(setup), until, setup.window);
    SortIsStable(due, 0);
    forall i | 0 <= i < |list| ensures t <= list[i].key <= until && list[i].item.at == list[i].key {
      assert list[i] in list;
      assert IsOpened(gates, Keys(setup), until, setup.window, list[i]);
    }
    HandAllRises(gates, setup.plan, list, t, until);
    NoneDueAfter(setup, gates, until);
  }

  lemma NoneDueAfter(setup: Setup, gates: Gates, until: Micros)
    ensures NoneDue(setup, TakeOpened(setup, gates, until).gates, until)
  {
    hide Keys, TakeOpened;
    forall e | e in Keys(setup)
      ensures GateOf(TakeOpened(setup, gates, until).gates, e).ReleaseOpenedBy(until, setup.window) == None
    {
      TakeOpenedGate(setup, gates, until, e);
    }
  }

  // ---------- Presses and releases counted ----------

  function Sign(event: PadEvent, lane: nat, dir: ScratchDir): int {
    if event.LaneEvent? && event.lane == lane && event.dir == dir then (if event.press then 1 else -1) else 0
  }

  /** Presses less releases of one lane and direction. */
  function Net(events: seq<PadEvent>, lane: nat, dir: ScratchDir): int {
    if events == [] then 0 else Net(events[..|events| - 1], lane, dir) + Sign(events[|events| - 1], lane, dir)
  }

  function Untimed(events: seq<Timed>): seq<PadEvent> {
    seq(|events|, i requires 0 <= i < |events| => events[i].event)
  }

  lemma {:induction false} NetInTwo(a: seq<PadEvent>, b: seq<PadEvent>, lane: nat, dir: ScratchDir)
    ensures Net(a + b, lane, dir) == Net(a, lane, dir) + Net(b, lane, dir)
  {
    if b == [] {
      assert a + b == a;
    } else {
      assert (a + b)[..|a + b| - 1] == a + b[..|b| - 1];
      NetInTwo(a, b[..|b| - 1], lane, dir);
    }
  }

  function EntryDown(entry: PlanEntry, gates: Gates, lane: nat, dir: ScratchDir): int {
    if entry.target == Lane(lane, dir) && GateOf(gates, entry.element).handed then 1 else 0
  }

  /** How many entries of the plan hold one lane and direction down. */
  function DownCount(plan: seq<PlanEntry>, gates: Gates, lane: nat, dir: ScratchDir): int {
    if plan == [] then 0
    else DownCount(plan[..|plan| - 1], gates, lane, dir) + EntryDown(plan[|plan| - 1], gates, lane, dir)
  }

  /** The gates of the elements in `fired` went the way it says, and no other. */
  ghost predicate Moved(gates: Gates, after: Gates, fired: map<PadElement, bool>) {
    forall e :: GateOf(after, e).handed ==
      if e in fired then fired[e] else GateOf(gates, e).handed
  }

  ghost predicate Opposite(gates: Gates, fired: map<PadElement, bool>) {
    forall e :: e in fired ==> GateOf(gates, e).handed == !fired[e]
  }

  lemma NetOfOne(events: seq<PadEvent>, lane: nat, dir: ScratchDir)
    requires |events| == 1
    ensures Net(events, lane, dir) == Sign(events[0], lane, dir)
  {
    assert events[..|events| - 1] == [];
  }

  lemma EntryCount(
    entry: PlanEntry, fired: map<PadElement, bool>, gates: Gates, after: Gates, lane: nat, dir: ScratchDir)
    requires Moved(gates, after, fired) && Opposite(gates, fired)
    ensures Net(EntryEvents(entry, fired), lane, dir)
            == EntryDown(entry, after, lane, dir) - EntryDown(entry, gates, lane, dir)
  {
    var events := EntryEvents(entry, fired);
    if events != [] {
      NetOfOne(events, lane, dir);
    }
  }

  lemma {:induction false} EventsCount(
    plan: seq<PlanEntry>, fired: map<PadElement, bool>, gates: Gates, after: Gates, lane: nat, dir: ScratchDir)
    requires Moved(gates, after, fired) && Opposite(gates, fired)
    ensures Net(Events(plan, fired), lane, dir) == DownCount(plan, after, lane, dir) - DownCount(plan, gates, lane, dir)
  {
    if plan != [] {
      EventsCount(plan[..|plan| - 1], fired, gates, after, lane, dir);
      EntryCount(plan[|plan| - 1], fired, gates, after, lane, dir);
      NetInTwo(Events(plan[..|plan| - 1], fired), EntryEvents(plan[|plan| - 1], fired), lane, dir);
    }
  }

  lemma UntimedStamped(events: seq<PadEvent>, at: Micros)
    ensures Untimed(Stamped(events, at)) == events
  {}

  lemma UntimedInTwo(a: seq<Timed>, b: seq<Timed>)
    ensures Untimed(a + b) == Untimed(a) + Untimed(b)
  {}

  lemma {:induction false} HandAllCount(
    gates: Gates, plan: seq<PlanEntry>, list: seq<Keyed<Handing>>, lane: nat, dir: ScratchDir)
    requires forall x :: x in list ==> GateOf(gates, x.item.element).handed
    requires forall e :: |OnlyOf(list, e)| <= 1
    ensures var after := HandAll(gates, plan, list);
            Net(Untimed(after.events), lane, dir)
              == DownCount(plan, after.gates, lane, dir) - DownCount(plan, gates, lane, dir)
  {
    if list != [] {
      var init, last := list[..|list| - 1], list[|list| - 1];
      assert list == init + [last];
      var e := last.item.element;
      forall d ensures |OnlyOf(init, d)| <= 1 && (d == e ==> OnlyOf(init, d) == []) {
        OnlyOfLonger(init, last, d);
        assert |OnlyOf(list, d)| <= 1;
      }
      HandAllCount(gates, plan, init, lane, dir);
      OnlyOfNone(init, e);
      HandAllGate(gates, plan, init, e, 0);
      var before := HandAll(gates, plan, init);
      assert last in list;
      HandOneCount(before.gates, plan, last.item, lane, dir);
      UntimedInTwo(before.events, HandOne(before.gates, plan, last.item).events);
      NetInTwo(Untimed(before.events), Untimed(HandOne(before.gates, plan, last.item).events), lane, dir);
    }
  }

  lemma HandOneCount(gates: Gates, plan: seq<PlanEntry>, h: Handing, lane: nat, dir: ScratchDir)
    requires GateOf(gates, h.element).handed
    ensures var after := HandOne(gates, plan, h);
            Net(Untimed(after.events), lane, dir)
              == DownCount(plan, after.gates, lane, dir) - DownCount(plan, gates, lane, dir)
  {
    var fired := map[h.element := false];
    var after := HandOne(gates, plan, h).gates;
    assert Moved(gates, after, fired);
    EventsCount(plan, fired, gates, after, lane, dir);
    UntimedStamped(Events(plan, fired), h.at);
  }

  lemma TakeOpenedCount(setup: Setup, gates: Gates, until: Micros, lane: nat, dir: ScratchDir)
    ensures var after := TakeOpened(setup, gates, until);
            Net(Untimed(after.events), lane, dir)
            == DownCount(setup.plan, after.gates, lane, dir) - DownCount(setup.plan, gates, lane, dir)
  {
    var list := Releases(setup, gates, until);
    SortedOpenedHolds(gates, Keys(setup), until, setup.window);
    forall x | x in list ensures GateOf(gates, x.item.element).handed {
      assert IsOpened(gates, Keys(setup), until, setup.window, x);
    }
    forall e ensures |OnlyOf(list, e)| <= 1 {
      ReleasesOfOne(setup, gates, until, e);
      AtMostOneOpens(gates, e, until, setup.window);
    }
    HandAllCount(gates, setup.plan, list, lane, dir);
  }

  /** Every answer says truly whether its gate moved, and which way. */
  ghost predicate Truthful(gates: Gates, answers: map<PadElement, Answer>) {
    forall e :: e in answers ==>
      if answers[e].fired then answers[e].gate.handed == answers[e].pressed == !GateOf(gates, e).handed
      else answers[e].gate.handed == GateOf(gates, e).handed
  }

  lemma AskedCount(
    gates: Gates, plan: seq<PlanEntry>, order: seq<PadElement>, answers: map<PadElement, Answer>, at: Micros,
                   lane: nat, dir: ScratchDir)
    requires Truthful(gates, answers)
    ensures var after := Asked(gates, plan, order, answers, at);
            Net(Untimed(after.events), lane, dir)
              == DownCount(plan, after.gates, lane, dir) - DownCount(plan, gates, lane, dir)
  {
    var after := Asked(gates, plan, order, answers, at);
    assert Moved(gates, after.gates, Fired(answers));
    EventsCount(plan, Fired(answers), gates, after.gates, lane, dir);
    UntimedStamped(Events(plan, Fired(answers)), at);
  }
}
