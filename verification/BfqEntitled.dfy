/**
 An entity does not win back service by going idle: as long as it is known to the
 scheduler, active, idle or in service, its place on the time axis moves on by at
 least what it is charged.
 */
module BfqEntitled {
  import opened Options
  import opened BfqSched
  import opened BfqLag

  /** Known to the scheduler, with a given weight and class. */
  predicate Known(s: Sched, i: nat, w: nat, c: nat) {
    i < |s.ents| && s.ents[i].onSt && s.ents[i].weight == w && s.ents[i].cls == c
  }

  ghost predicate StaysKnown(s: Sched, evs: seq<Event>, i: nat, w: nat, c: nat)
    requires Inv(s) && CanRun(s, evs)
    decreases |evs|
  {
    Known(s, i, w, c)
    && (evs != [] ==> (StepKeepsInv(s, evs[0]); StaysKnown(Step(s, evs[0]), evs[1..], i, w, c)))
  }

  /** Where an entity stands: its start time, or its finish time while it is idle. */
  function Place(s: Sched, i: nat): int {
    if i >= |s.ents| then 0 else if s.ents[i].tree.OnIdle? then s.ents[i].finish else s.ents[i].start
  }

  /** The entity leaves service. */
  predicate EndsTurn(s: Sched, ev: Event, i: nat) {
    s.serving == Some(i) && (ev.Requeue? || ev.Stop? || Exceeds(s, ev, i))
  }

  // ---- Active entities finish after they start ---------------------------

  predicate Timed(s: Sched, i: nat) {
    i < |s.ents| && s.ents[i].tree.OnActive? ==> s.ents[i].start <= s.ents[i].finish
  }

  /** Nobody but the forgotten loses anything when idle entities are forgotten. */
  lemma ForgetsOne(s: Sched, c: nat, i: nat)
    requires Core(s, None) && c < CLASSES && i < |s.ents|
    ensures var e := IdleForgotten(s, c).ents[i]; |IdleForgotten(s, c).ents| == |s.ents| && (e == s.ents[i] || (!e.onSt && e.tree.NoTree?))
  {
    IdleForgottenCore(s, c);
    var t := s.st[c];
    assert IdleOk(s.ents, t, c);
    if t.first.Some? { assert t.first.value in t.idle; }
  }

  lemma PickedKeeps(s: Sched, j: nat, jump: Option<int>, i: nat)
    requires Inv(s) && s.serving.None? && j < |s.ents| && s.ents[j].tree.OnActive? && i < |s.ents| && i != j
    ensures Fits(s, j)
    ensures var r := Picked(s, j, jump); |r.ents| == |s.ents| && (r.ents[i] == s.ents[i] || (!r.ents[i].onSt && r.ents[i].tree.NoTree?))
  {
    assert EntOk(s.ents[j], false, false);
    if jump.Some? {
      VtimeCore(s, s.ents[j].cls, jump.value);
      ForgetsOne(AtVtime(s, s.ents[j].cls, jump.value), s.ents[j].cls, i);
    }
  }

  lemma ServedKeeps(s: Sched, n: nat, i: nat)
    requires Inv(s) && s.serving.Some? && n <= Left(s.ents[s.serving.value]) && i < |s.ents|
    ensures Fits(s, s.serving.value)
    ensures var j := s.serving.value; var r := Served(s, j, n);
      && Inv(r) && r.serving == s.serving && |r.ents| == |s.ents|
      && (if i == j then r.ents[i] == s.ents[i].(service := s.ents[i].service + n)
          else r.ents[i] == s.ents[i] || (!r.ents[i].onSt && r.ents[i].tree.NoTree?))
  {
    var j := s.serving.value;
    ServedInv(s, j, n);
    ChargedCore(s, j, n);
    VtimeCore(Charged(s, j, n), s.ents[j].cls, NewVtime(s, j, n));
    ForgetsOne(AtVtime(Charged(s, j, n), s.ents[j].cls, NewVtime(s, j, n)), s.ents[j].cls, i);
  }

  lemma RestartedTimes(s: Sched, j: nat, b: nat, i: nat)
    requires Inv(s) && j < |s.ents| && i < |s.ents|
    ensures Fits(s, j)
    ensures var r := Restarted(s, j, b);
      && Inv(r) && |r.ents| == |s.ents| && (i != j ==> r.ents[i] == s.ents[i])
      && r.serving == (if s.serving == Some(j) then None else s.serving)
      && r.ents[j].start <= r.ents[j].finish && r.ents[j].tree.OnActive?
    ensures var e := s.ents[j];
      StartsRight(e, s.serving == Some(j), s.st[e.cls].vtime, s.st[e.newCls].vtime, Restarted(s, j, b).ents[j].start)
  {
    RetargetedInv(s, j, b);
    var s1 := Put(s, j, s.ents[j].(budget := b));
    TunedCore(s, j, s.ents[j].(budget := b));
    ActivatedCore(s1, j);
    ActivatedTimes(s1, j);
    DeltaPositive(b, Activated(s1, j).ents[j].weight);
    if i != j { ActivatedOthers(s1, j, i); }
  }

  lemma DeltaPositive(n: nat, w: nat)
    ensures Delta(n, w) >= 0
  {
  }

  lemma DispatchTimed(s: Sched, n: nat, full: bool, b: nat, i: nat)
    requires Inv(s) && s.serving.Some? && Timed(s, i)
    ensures Timed(Step(s, Dispatch(n, full, b)), i)
  {
    var j := s.serving.value;
    if i < |s.ents| {
      if n <= Left(s.ents[j]) {
        ServedKeeps(s, n, i);
      } else {
        ServedKeeps(s, Left(s.ents[j]), i);
        RestartedTimes(Spent(s, j, full), j, b, i);
      }
    } else {
      ServedKeeps(s, Left(s.ents[j]), j);
      if n <= Left(s.ents[j]) { ServedKeeps(s, n, j); } else { RestartedTimes(Spent(s, j, full), j, b, j); }
    }
  }

  lemma StepTimed(s: Sched, ev: Event, i: nat)
    requires Inv(s) && Enabled(s, ev) && Timed(s, i)
    ensures Timed(Step(s, ev), i)
  {
    match ev
    case Create(p, c) =>
    case SetPrio(j, p, c) =>
    case Wake(j, b) => RestartedTimes(s, j, b, if i < |s.ents| then i else j);
    case Rebudget(j, b) => RestartedTimes(s, j, b, if i < |s.ents| then i else j);
    case Drop(j, r) => DropTimed(s, j, r, i);
    case Pick(j, jump) =>
      PickedInv(s, j, jump);
      if i < |s.ents| && i != j { PickedKeeps(s, j, jump, i); }
    case Dispatch(n, full, b) => DispatchTimed(s, n, full, b, i);
    case ChargeFull =>
      ServedKeeps(s, Left(s.ents[s.serving.value]), if i < |s.ents| then i else s.serving.value);
    case Requeue(b) => RestartedTimes(s, s.serving.value, b, if i < |s.ents| then i else s.serving.value);
    case Stop(r) => DropTimed(s, s.serving.value, r, i);
    case Drain(c) => if i < |s.ents| { ForgetsOne(s, c, i); } else { IdleForgottenCore(s, c); }
  }

  lemma DropTimed(s: Sched, j: nat, r: bool, i: nat)
    requires Inv(s) && j < |s.ents| && Timed(s, i)
    ensures Fits(s, j) && |Deactivated(s, j, r).ents| == |s.ents| && Timed(Deactivated(s, j, r), i)
  {
    assert EntOk(s.ents[j], s.serving == Some(j), false);
    if s.ents[j].onSt { DeactivatedTimes(s, j, r); }
    if i < |s.ents| && i != j { DeactivatedOthers(s, j, r, i); }
  }

  /** In every run, what is active finishes no earlier than it starts. */
  lemma {:induction false} RunTimed(s: Sched, evs: seq<Event>, i: nat)
    requires Inv(s) && CanRun(s, evs) && Timed(s, i)
    ensures Timed(Run(s, evs), i)
    decreases |evs|
  {
    if evs != [] {
      StepKeepsInv(s, evs[0]);
      StepTimed(s, evs[0], i);
      RunTimed(Step(s, evs[0]), evs[1..], i);
    }
  }

  // ---- One step ----------------------------------------------------------

  /** What one step does to the place and the service account. */
  predicate MovesOn(s: Sched, ev: Event, i: nat, r: Sched)
    requires ServingOk(s) && i < |s.ents|
  {
    && Place(r, i) >= Place(s, i) + (if EndsTurn(s, ev, i) then Delta(Live(s, i) + GivenBy(s, ev, i), s.ents[i].weight) else 0)
    && Live(r, i) == (if EndsTurn(s, ev, i) then 0 else Live(s, i) + GivenBy(s, ev, i))
  }

  lemma RestartMovesOn(s: Sched, j: nat, b: nat, i: nat, w: nat, c: nat)
    requires Inv(s) && j < |s.ents| && Known(s, i, w, c)
    ensures Fits(s, j)
    ensures var r := Restarted(s, j, b);
      Known(r, i, w, c) ==>
        && Place(r, i) >= Place(s, i) + (if i == j && s.serving == Some(i) then Delta(Live(s, i), w) else 0)
        && Live(r, i) == (if i == j then 0 else Live(s, i))
  {
    RestartedTimes(s, j, b, i);
    assert EntOk(s.ents[j], s.serving == Some(j), false);
    if i == j && Known(Restarted(s, j, b), i, w, c) { SameClass(s, i, b); }
  }

  /** An entity that is in the same class afterwards was not about to change it. */
  lemma SameClass(s: Sched, i: nat, b: nat)
    requires Inv(s) && i < |s.ents| && Fits(s, i) && Restarted(s, i, b).ents[i].cls == s.ents[i].cls
    ensures !(s.ents[i].changed && s.ents[i].newCls != s.ents[i].cls)
  {
    TunedCore(s, i, s.ents[i].(budget := b));
    ActivatedTimes(Put(s, i, s.ents[i].(budget := b)), i);
  }

  lemma DropMovesOn(s: Sched, j: nat, r: bool, i: nat, w: nat, c: nat)
    requires Inv(s) && j < |s.ents| && Known(s, i, w, c) && Timed(s, i)
    ensures Fits(s, j)
    ensures var t := Deactivated(s, j, r);
      Known(t, i, w, c) ==>
        && Place(t, i) >= Place(s, i) + (if i == j && s.serving == Some(i) then Delta(Live(s, i), w) else 0)
        && Live(t, i) == (if i == j then 0 else Live(s, i))
  {
    assert EntOk(s.ents[j], s.serving == Some(j), false);
    assert EntOk(s.ents[i], s.serving == Some(i), false);
    DeactivatedCore(s, j, r);
    if i == j {
      DeactivatedTimes(s, j, r);
    } else {
      DeactivatedOthers(s, j, r, i);
    }
  }

  lemma SpentMovesOn(s: Sched, n: nat, i: nat, w: nat, c: nat)
    requires Inv(s) && s.serving.Some? && n <= Left(s.ents[s.serving.value]) && Known(s, i, w, c)
    ensures Fits(s, s.serving.value)
    ensures var j := s.serving.value; var r := Served(s, j, n);
      && Inv(r) && r.serving == s.serving && |r.ents| == |s.ents|
      && (r.ents[i].onSt ==> Known(r, i, w, c) && Place(r, i) == Place(s, i) && Live(r, i) == (if i == j then Live(s, i) + n else Live(s, i)))
  {
    ServedKeeps(s, n, i);
  }

  /** A full charge, if there is one. */
  lemma ChargedMovesOn(s: Sched, full: bool, i: nat, w: nat, c: nat)
    requires Inv(s) && s.serving.Some? && Known(s, i, w, c)
    ensures Fits(s, s.serving.value)
    ensures var j := s.serving.value; var u := Spent(s, j, full);
      && Inv(u) && u.serving == s.serving && |u.ents| == |s.ents|
      && (u.ents[i].onSt ==> Known(u, i, w, c) && Place(u, i) == Place(s, i)
                             && Live(u, i) == Live(s, i) + (if full && i == j then Left(s.ents[j]) else 0))
  {
    SpentMovesOn(s, Left(s.ents[s.serving.value]), i, w, c);
  }

  /** The request does not fit: the turn ends, perhaps after a full charge. */
  lemma ExceedMovesOn(s: Sched, n: nat, full: bool, b: nat, i: nat, w: nat, c: nat)
    requires Inv(s) && s.serving.Some? && Known(s, i, w, c) && n > Left(s.ents[s.serving.value])
    requires Known(Step(s, Dispatch(n, full, b)), i, w, c)
    ensures MovesOn(s, Dispatch(n, full, b), i, Step(s, Dispatch(n, full, b)))
  {
    var j := s.serving.value;
    ChargedMovesOn(s, full, i, w, c);
    var u := Spent(s, j, full);
    assert Step(s, Dispatch(n, full, b)) == Restarted(u, j, b);
    StaysOnTree(u, j, b, i);
    RestartMovesOn(u, j, b, i, w, c);
  }

  lemma StaysOnTree(u: Sched, j: nat, b: nat, i: nat)
    requires Inv(u) && u.serving == Some(j) && i < |u.ents|
    ensures Fits(u, j) && |Restarted(u, j, b).ents| == |u.ents|
    ensures Restarted(u, j, b).ents[i].onSt ==> u.ents[i].onSt
  {
    RestartedTimes(u, j, b, i);
    assert EntOk(u.ents[j], true, false);
  }

  lemma PickMovesOn(s: Sched, j: nat, jump: Option<int>, i: nat, w: nat, c: nat)
    requires Inv(s) && Enabled(s, Pick(j, jump)) && Known(s, i, w, c) && Known(Step(s, Pick(j, jump)), i, w, c)
    ensures MovesOn(s, Pick(j, jump), i, Step(s, Pick(j, jump)))
  {
    PickedInv(s, j, jump);
    if i != j { PickedKeeps(s, j, jump, i); }
  }

  lemma StepMovesOn(s: Sched, ev: Event, i: nat, w: nat, c: nat)
    requires Inv(s) && Enabled(s, ev) && Timed(s, i) && Known(s, i, w, c) && Known(Step(s, ev), i, w, c)
    ensures MovesOn(s, ev, i, Step(s, ev))
  {
    match ev
    case Create(p, k) =>
    case SetPrio(j, p, k) =>
    case Wake(j, b) => RestartMovesOn(s, j, b, i, w, c);
    case Rebudget(j, b) =>
      assert EntOk(s.ents[j], s.serving == Some(j), false);
      RestartMovesOn(s, j, b, i, w, c);
    case Drop(j, r) => DropMovesOn(s, j, r, i, w, c);
    case Pick(j, jump) => PickMovesOn(s, j, jump, i, w, c);
    case Dispatch(n, full, b) =>
      if n <= Left(s.ents[s.serving.value]) {
        SpentMovesOn(s, n, i, w, c);
      } else {
        ExceedMovesOn(s, n, full, b, i, w, c);
      }
    case ChargeFull => SpentMovesOn(s, Left(s.ents[s.serving.value]), i, w, c);
    case Requeue(b) => RestartMovesOn(s, s.serving.value, b, i, w, c);
    case Stop(r) => DropMovesOn(s, s.serving.value, r, i, w, c);
    case Drain(k) =>
      ForgetsOne(s, k, i);
      IdleForgottenCore(s, k);
  }

  // ---- Whole runs --------------------------------------------------------

  ghost function Turns(s: Sched, evs: seq<Event>, i: nat): nat
    requires Inv(s) && CanRun(s, evs)
    decreases |evs|
  {
    if evs == [] then 0
    else
      StepKeepsInv(s, evs[0]);
      (if EndsTurn(s, evs[0], i) then 1 else 0) + Turns(Step(s, evs[0]), evs[1..], i)
  }

  /** The charge, in timestamp units, exceeds `w` times the advance by less than `w`
      per turn. */
  predicate Covered(x: Tally, w: nat) {
    SERVICE_UNIT * x.charged - Times(w, x.advance) <= Times(x.rounds, w - 1)
  }

  lemma CoveredAdds(x: Tally, y: Tally, w: nat)
    requires Covered(x, w) && Covered(y, w)
    ensures Covered(Plus(x, y), w)
  {
    TimesAdds(w, x.advance, y.advance);
    MoreTimes(x.rounds, y.rounds, w - 1);
  }

  function TurnTally(s: Sched, ev: Event, i: nat, m: Sched): Tally
    requires ServingOk(s)
  {
    Tally(GivenBy(s, ev, i) + Live(s, i) - Live(m, i), Place(m, i) - Place(s, i), if EndsTurn(s, ev, i) then 1 else 0)
  }

  lemma TurnIsCovered(s: Sched, ev: Event, i: nat, w: nat, m: Sched)
    requires ServingOk(s) && i < |s.ents| && s.ents[i].weight == w >= 1 && MovesOn(s, ev, i, m)
    ensures Covered(TurnTally(s, ev, i, m), w)
  {
    var x := TurnTally(s, ev, i, m);
    RoundError(x.charged, w);
    TimesIs(w, x.advance);
    TimesIs(1, w - 1);
    if EndsTurn(s, ev, i) {
      MulMonotone(w, Delta(x.charged, w), x.advance);
    } else {
      MulMonotone(w, 0, x.advance);
    }
  }

  lemma MulMonotone(w: nat, x: int, y: int)
    requires x <= y
    ensures w * x <= w * y
  {
  }

  ghost function Sum(s: Sched, evs: seq<Event>, i: nat): Tally
    requires Inv(s) && CanRun(s, evs)
    decreases |evs|
  {
    if evs == [] then Tally(0, 0, 0)
    else
      StepKeepsInv(s, evs[0]);
      var m := Step(s, evs[0]);
      Plus(TurnTally(s, evs[0], i, m), Sum(m, evs[1..], i))
  }

  lemma {:induction false} SumIsCovered(s: Sched, evs: seq<Event>, i: nat, w: nat, c: nat)
    requires Inv(s) && CanRun(s, evs) && StaysKnown(s, evs, i, w, c) && Timed(s, i)
    ensures Covered(Sum(s, evs, i), w)
    decreases |evs|
  {
    if evs == [] {
      TimesIs(w, 0);
    } else {
      StepKeepsInv(s, evs[0]);
      var m := Step(s, evs[0]);
      assert StaysKnown(m, evs[1..], i, w, c);
      assert EntOk(s.ents[i], s.serving == Some(i), false);
      StepMovesOn(s, evs[0], i, w, c);
      TurnIsCovered(s, evs[0], i, w, m);
      StepTimed(s, evs[0], i);
      SumIsCovered(m, evs[1..], i, w, c);
      CoveredAdds(TurnTally(s, evs[0], i, m), Sum(m, evs[1..], i), w);
    }
  }

  lemma {:induction false} SumTelescopes(s: Sched, evs: seq<Event>, i: nat)
    requires Inv(s) && CanRun(s, evs)
    ensures var r := Run(s, evs);
      Sum(s, evs, i) == Tally(Given(s, evs, i) + Live(s, i) - Live(r, i), Place(r, i) - Place(s, i), Turns(s, evs, i))
    decreases |evs|
  {
    if evs != [] {
      StepKeepsInv(s, evs[0]);
      SumTelescopes(Step(s, evs[0]), evs[1..], i);
    }
  }

  /** The service charged, in timestamp units, is at most `w` times the advance and less
      than `w` more per turn. */
  predicate Paid(charged: nat, advance: int, turns: nat, w: nat) {
    SERVICE_UNIT * charged <= w * advance + turns * (w - 1)
  }

  lemma CoveredIsPaid(charged: nat, advance: int, turns: nat, w: nat)
    requires w >= 1 && Covered(Tally(charged, advance, turns), w)
    ensures Paid(charged, advance, turns, w)
  {
    TimesIs(w, advance);
    TimesIs(turns, w - 1);
  }

  /** From any state a run reaches, through any activations, turns of service and idle
      times: while an entity stays known with one weight and class, it pays for its
      service with its place on the time axis. */
  lemma {:induction false} IdlingDoesNotPay(before: seq<Event>, evs: seq<Event>, i: nat, w: nat, c: nat)
    requires CanRun(Init(), before) && CanRun(Run(Init(), before), evs)
    requires StaysKnown(Run(Init(), before), evs, i, w, c)
    requires Run(Init(), before).serving != Some(i) && Run(Run(Init(), before), evs).serving != Some(i)
    ensures var s := Run(Init(), before);
      Paid(Given(s, evs, i), Place(Run(s, evs), i) - Place(s, i), Turns(s, evs, i), w)
  {
    var s := Run(Init(), before);
    RunTimed(Init(), before, i);
    assert EntOk(s.ents[i], s.serving == Some(i), false);
    SumIsCovered(s, evs, i, w, c);
    SumTelescopes(s, evs, i);
    CoveredIsPaid(Given(s, evs, i), Place(Run(s, evs), i) - Place(s, i), Turns(s, evs, i), w);
  }
}
