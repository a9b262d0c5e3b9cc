/**
 How closely the start time of a backlogged entity follows the service it gets.
 */
module BfqLag {
  import opened Options
  import opened BfqSched

  /** On an active tree or in service, with a given weight and class. */
  predicate Backlogged(s: Sched, i: nat, w: nat, c: nat) {
    && i < |s.ents| && s.ents[i].onSt && !s.ents[i].tree.OnIdle?
    && s.ents[i].weight == w && s.ents[i].cls == c
  }

  ghost predicate StaysBacklogged(s: Sched, evs: seq<Event>, i: nat, w: nat, c: nat)
    requires Inv(s) && CanRun(s, evs)
    decreases |evs|
  {
    Backlogged(s, i, w, c)
    && (evs != [] ==> (StepKeepsInv(s, evs[0]); StaysBacklogged(Step(s, evs[0]), evs[1..], i, w, c)))
  }

  /** The service received since the entity was last picked. */
  function Live(s: Sched, i: nat): nat {
    if i < |s.ents| && s.serving == Some(i) then s.ents[i].service else 0
  }

  /** The request of this turn does not fit. */
  predicate Exceeds(s: Sched, ev: Event, i: nat) {
    ev.Dispatch? && i < |s.ents| && ev.size > Left(s.ents[i])
  }

  predicate EndsRound(s: Sched, ev: Event, i: nat) {
    s.serving == Some(i) && (ev.Requeue? || Exceeds(s, ev, i))
  }

  /** Service charged to the entity by one step. */
  function GivenBy(s: Sched, ev: Event, i: nat): nat
    requires ServingOk(s)
  {
    if s.serving != Some(i) then 0
    else match ev
      case Dispatch(n, full, _) => if n <= Left(s.ents[i]) then n else if full then Left(s.ents[i]) else 0
      case ChargeFull => Left(s.ents[i])
      case _ => 0
  }

  ghost function Rounds(s: Sched, evs: seq<Event>, i: nat): nat
    requires Inv(s) && CanRun(s, evs)
    decreases |evs|
  {
    if evs == [] then 0
    else
      StepKeepsInv(s, evs[0]);
      (if EndsRound(s, evs[0], i) then 1 else 0) + Rounds(Step(s, evs[0]), evs[1..], i)
  }

  ghost function Given(s: Sched, evs: seq<Event>, i: nat): nat
    requires Inv(s) && CanRun(s, evs)
    decreases |evs|
  {
    if evs == [] then 0
    else
      StepKeepsInv(s, evs[0]);
      GivenBy(s, evs[0], i) + Given(Step(s, evs[0]), evs[1..], i)
  }

  // ---- One step ----------------------------------------------------------------

  lemma ActivatedStart(s: Sched, i: nat)
    requires Core(s, None) && i < |s.ents| && s.ents[i].onSt && !s.ents[i].tree.OnIdle?
    requires Activated(s, i).ents[i].cls == s.ents[i].cls
    ensures Activated(s, i).ents[i].start
         == s.ents[i].start + if s.serving == Some(i) then Delta(s.ents[i].service, s.ents[i].weight) else 0
    ensures Activated(s, i).serving != Some(i)
  {
    assert EntOk(s.ents[i], s.serving == Some(i), false);
  }

  lemma DeactivatedLeaves(s: Sched, i: nat, r: bool)
    requires Core(s, None) && i < |s.ents| && s.ents[i].onSt
    ensures var e := Deactivated(s, i, r).ents[i]; !e.onSt || e.tree.OnIdle?
  {
  }

  lemma PickedOthers(s: Sched, j: nat, jump: Option<int>, i: nat)
    requires Inv(s) && s.serving.None? && j < |s.ents| && s.ents[j].tree.OnActive?
    requires i < |s.ents| && i != j && !s.ents[i].tree.OnIdle?
    ensures Fits(s, j) && |Picked(s, j, jump).ents| == |s.ents| && Picked(s, j, jump).ents[i] == s.ents[i]
  {
    assert EntOk(s.ents[j], false, false);
    if jump.Some? {
      VtimeCore(s, s.ents[j].cls, jump.value);
      IdleForgottenCore(AtVtime(s, s.ents[j].cls, jump.value), s.ents[j].cls);
    }
  }

  lemma ServedOthers(s: Sched, j: nat, n: nat, v: int, i: nat)
    requires Core(s, None) && s.serving == Some(j) && i < |s.ents| && i != j && !s.ents[i].tree.OnIdle?
    ensures s.ents[j].cls < CLASSES
    ensures IdleForgotten(AtVtime(Charged(s, j, n), s.ents[j].cls, v), s.ents[j].cls).ents[i] == s.ents[i]
  {
    ChargedCore(s, j, n);
    VtimeCore(Charged(s, j, n), s.ents[j].cls, v);
    IdleForgottenCore(AtVtime(Charged(s, j, n), s.ents[j].cls, v), s.ents[j].cls);
  }

  /** What one step does to the start time and the service account. */
  predicate Moves(s: Sched, ev: Event, i: nat, r: Sched)
    requires ServingOk(s) && i < |s.ents| && i < |r.ents|
  {
    && r.ents[i].start == s.ents[i].start
         + (if EndsRound(s, ev, i) then Delta(Live(s, i) + GivenBy(s, ev, i), s.ents[i].weight) else 0)
    && Live(r, i) == (if EndsRound(s, ev, i) then 0 else Live(s, i) + GivenBy(s, ev, i))
  }

  lemma RetargetMoves(s: Sched, j: nat, b: nat, i: nat, w: nat, c: nat)
    requires Inv(s) && Backlogged(s, i, w, c) && Fits(s, j)
    requires Backlogged(Restarted(s, j, b), i, w, c)
    ensures var r := Restarted(s, j, b);
      && r.ents[i].start == s.ents[i].start
           + (if i == j && s.serving == Some(i) then Delta(Live(s, i), w) else 0)
      && Live(r, i) == (if i == j then 0 else Live(s, i))
  {
    var s1 := Put(s, j, s.ents[j].(budget := b));
    TunedCore(s, j, s.ents[j].(budget := b));
    ActivatedCore(s1, j);
    if i == j {
      ActivatedStart(s1, j);
    } else {
      ActivatedOthers(s1, j, i);
    }
  }

  lemma ServeMoves(s: Sched, n: nat, i: nat, w: nat, c: nat)
    requires Inv(s) && Backlogged(s, i, w, c) && s.serving.Some? && n <= Left(s.ents[s.serving.value])
    ensures Fits(s, s.serving.value)
    ensures var j := s.serving.value; var r := Served(s, j, n);
      && Inv(r) && r.serving == s.serving && Backlogged(r, i, w, c) && r.ents[i].start == s.ents[i].start
      && Live(r, i) == (if i == j then Live(s, i) + n else Live(s, i))
  {
    var j := s.serving.value;
    ServedInv(s, j, n);
    if j != i {
      ServedOthers(s, j, n, NewVtime(s, j, n), i);
    }
  }

  lemma DispatchMoves(s: Sched, n: nat, full: bool, b: nat, i: nat, w: nat, c: nat)
    requires Inv(s) && Backlogged(s, i, w, c) && s.serving.Some?
    requires Backlogged(Step(s, Dispatch(n, full, b)), i, w, c)
    ensures Moves(s, Dispatch(n, full, b), i, Step(s, Dispatch(n, full, b)))
  {
    if n <= Left(s.ents[s.serving.value]) {
      ServeMoves(s, n, i, w, c);
    } else {
      ExceedMoves(s, n, full, b, i, w, c);
    }
  }

  /** A full charge, if there is one. */
  lemma SpentMoves(s: Sched, full: bool, i: nat, w: nat, c: nat)
    requires Inv(s) && Backlogged(s, i, w, c) && s.serving.Some?
    ensures Fits(s, s.serving.value)
    ensures var j := s.serving.value; var u := Spent(s, j, full);
      && Inv(u) && u.serving == s.serving && Fits(u, j) && Backlogged(u, i, w, c) && u.ents[i].start == s.ents[i].start
      && Live(u, i) == Live(s, i) + (if full && i == j then Left(s.ents[j]) else 0)
  {
    var j := s.serving.value;
    assert EntOk(s.ents[j], true, false);
    ServeMoves(s, Left(s.ents[j]), i, w, c);
    assert EntOk(Spent(s, j, full).ents[j], true, false);
  }

  /** The request does not fit: the round ends. */
  lemma ExceedMoves(s: Sched, n: nat, full: bool, b: nat, i: nat, w: nat, c: nat)
    requires Inv(s) && Backlogged(s, i, w, c) && s.serving.Some? && n > Left(s.ents[s.serving.value])
    requires Backlogged(Step(s, Dispatch(n, full, b)), i, w, c)
    ensures Moves(s, Dispatch(n, full, b), i, Step(s, Dispatch(n, full, b)))
  {
    var j := s.serving.value;
    SpentMoves(s, full, i, w, c);
    var u := Spent(s, j, full);
    var r := Restarted(u, j, b);
    assert Step(s, Dispatch(n, full, b)) == r;
    RetargetMoves(u, j, b, i, w, c);
  }

  lemma PickMoves(s: Sched, j: nat, jump: Option<int>, i: nat, w: nat, c: nat)
    requires Inv(s) && Backlogged(s, i, w, c) && Enabled(s, Pick(j, jump))
    ensures i < |Step(s, Pick(j, jump)).ents| && Moves(s, Pick(j, jump), i, Step(s, Pick(j, jump)))
  {
    PickedInv(s, j, jump);
    if j != i {
      PickedOthers(s, j, jump, i);
    }
  }

  lemma DropMoves(s: Sched, j: nat, r: bool, i: nat, w: nat, c: nat)
    requires Inv(s) && Backlogged(s, i, w, c) && j < |s.ents|
    requires Backlogged(Deactivated(s, j, r), i, w, c)
    ensures j != i && Deactivated(s, j, r).ents[i] == s.ents[i]
    ensures s.serving == Some(i) <==> Deactivated(s, j, r).serving == Some(i)
  {
    DeactivatedCore(s, j, r);
    if i == j {
      DeactivatedLeaves(s, i, r);
    } else {
      DeactivatedOthers(s, j, r, i);
    }
  }

  lemma StepMoves(s: Sched, ev: Event, i: nat, w: nat, c: nat)
    requires Inv(s) && Enabled(s, ev) && Backlogged(s, i, w, c) && Backlogged(Step(s, ev), i, w, c)
    ensures Moves(s, ev, i, Step(s, ev))
  {
    assert EntOk(s.ents[i], s.serving == Some(i), false);
    match ev
    case Create(p, k) =>
    case SetPrio(j, p, k) =>
    case Wake(j, b) => RetargetMoves(s, j, b, i, w, c);
    case Rebudget(j, b) =>
      assert EntOk(s.ents[j], s.serving == Some(j), false);
      RetargetMoves(s, j, b, i, w, c);
    case Drop(j, r) => DropMoves(s, j, r, i, w, c);
    case Pick(j, jump) => PickMoves(s, j, jump, i, w, c);
    case Dispatch(n, full, b) => DispatchMoves(s, n, full, b, i, w, c);
    case ChargeFull => ServeMoves(s, Left(s.ents[s.serving.value]), i, w, c);
    case Requeue(b) => RetargetMoves(s, s.serving.value, b, i, w, c);
    case Stop(r) => DropMoves(s, s.serving.value, r, i, w, c);
    case Drain(k) => IdleForgottenCore(s, k);
  }

  // ---- Whole runs ----------------------------------------------------------------

  /** The rounding of one round is less than the weight. */
  lemma RoundError(n: nat, w: nat)
    requires w >= 1
    ensures 0 <= SERVICE_UNIT * n - w * Delta(n, w) <= w - 1
  {
    var x := n * SERVICE_UNIT;
    assert x == w * (x / w) + x % w;
  }

  /** Serving moves virtual time on by the service, shared among all that are known in
      the class. */
  lemma ServiceMovesTime(s: Sched, i: nat, n: nat)
    requires Inv(s) && s.serving == Some(i)
    ensures Fits(s, i)
    ensures var t := s.st[s.ents[i].cls];
      0 <= SERVICE_UNIT * n - t.wsum * (NewVtime(s, i, n) - t.vtime) <= t.wsum - 1
  {
    ChargedCore(s, i, 0);
    assert EntOk(s.ents[i], true, false);
    RoundError(n, s.st[s.ents[i].cls].wsum);
  }

  /** Multiplication as repeated addition. */
  function Times(k: nat, x: int): int {
    if k == 0 then 0 else x + Times(k - 1, x)
  }

  lemma {:induction false} TimesIs(k: nat, x: int)
    ensures Times(k, x) == k * x
  {
    if k > 0 {
      TimesIs(k - 1, x);
    }
  }

  lemma {:induction false} TimesAdds(k: nat, x: int, y: int)
    ensures Times(k, x + y) == Times(k, x) + Times(k, y)
  {
    if k > 0 {
      TimesAdds(k - 1, x, y);
    }
  }

  lemma {:induction false} MoreTimes(k: nat, n: nat, x: int)
    ensures Times(k + n, x) == Times(k, x) + Times(n, x)
  {
    if k > 0 {
      MoreTimes(k - 1, n, x);
    }
  }

  /** Service charged, advance of the start time, and completed rounds. */
  datatype Tally = Tally(charged: int, advance: int, rounds: nat)

  function Plus(x: Tally, y: Tally): Tally {
    Tally(x.charged + y.charged, x.advance + y.advance, x.rounds + y.rounds)
  }

  /** The charge, in timestamp units, exceeds `w` times the advance by less than
      `w` per round. */
  predicate Close(x: Tally, w: nat) {
    0 <= SERVICE_UNIT * x.charged - Times(w, x.advance) <= Times(x.rounds, w - 1)
  }

  lemma CloseAdds(x: Tally, y: Tally, w: nat)
    requires Close(x, w) && Close(y, w)
    ensures Close(Plus(x, y), w)
  {
    TimesAdds(w, x.advance, y.advance);
    MoreTimes(x.rounds, y.rounds, w - 1);
  }

  function StartOf(s: Sched, i: nat): int {
    if i < |s.ents| then s.ents[i].start else 0
  }

  function StepTally(s: Sched, ev: Event, i: nat, m: Sched): Tally
    requires ServingOk(s)
  {
    Tally(GivenBy(s, ev, i) + Live(s, i) - Live(m, i), StartOf(m, i) - StartOf(s, i),
          if EndsRound(s, ev, i) then 1 else 0)
  }

  lemma StepIsClose(s: Sched, ev: Event, i: nat, w: nat, m: Sched)
    requires ServingOk(s) && i < |s.ents| && i < |m.ents| && s.ents[i].weight == w >= 1 && Moves(s, ev, i, m)
    ensures Close(StepTally(s, ev, i, m), w)
  {
    RoundError(Live(s, i) + GivenBy(s, ev, i), w);
    TimesIs(w, m.ents[i].start - s.ents[i].start);
    TimesIs(1, w - 1);
  }

  lemma StepLag(s: Sched, ev: Event, i: nat, w: nat, c: nat)
    requires Inv(s) && Enabled(s, ev) && Backlogged(s, i, w, c) && Backlogged(Step(s, ev), i, w, c)
    ensures Close(StepTally(s, ev, i, Step(s, ev)), w)
  {
    assert EntOk(s.ents[i], s.serving == Some(i), false);
    StepMoves(s, ev, i, w, c);
    StepIsClose(s, ev, i, w, Step(s, ev));
  }

  ghost function Account(s: Sched, evs: seq<Event>, i: nat, w: nat, c: nat): Tally
    requires Inv(s) && CanRun(s, evs) && StaysBacklogged(s, evs, i, w, c)
    decreases |evs|
  {
    if evs == [] then Tally(0, 0, 0)
    else
      StepKeepsInv(s, evs[0]);
      var m := Step(s, evs[0]);
      Plus(StepTally(s, evs[0], i, m), Account(m, evs[1..], i, w, c))
  }

  lemma {:induction false} AccountIsClose(s: Sched, evs: seq<Event>, i: nat, w: nat, c: nat)
    requires Inv(s) && CanRun(s, evs) && StaysBacklogged(s, evs, i, w, c)
    ensures Close(Account(s, evs, i, w, c), w)
    decreases |evs|
  {
    if evs == [] {
      TimesIs(w, 0);
    } else {
      StepKeepsInv(s, evs[0]);
      var m := Step(s, evs[0]);
      StepLag(s, evs[0], i, w, c);
      AccountIsClose(m, evs[1..], i, w, c);
      CloseAdds(StepTally(s, evs[0], i, m), Account(m, evs[1..], i, w, c), w);
    }
  }

  lemma {:induction false} AccountTelescopes(s: Sched, evs: seq<Event>, i: nat, w: nat, c: nat)
    requires Inv(s) && CanRun(s, evs) && StaysBacklogged(s, evs, i, w, c)
    ensures var r := Run(s, evs);
      && i < |s.ents| && i < |r.ents|
      && Account(s, evs, i, w, c)
         == Tally(Given(s, evs, i) + Live(s, i) - Live(r, i), r.ents[i].start - s.ents[i].start, Rounds(s, evs, i))
    decreases |evs|
  {
    if evs != [] {
      StepKeepsInv(s, evs[0]);
      AccountTelescopes(Step(s, evs[0]), evs[1..], i, w, c);
    }
  }

  /** The same with products. */
  predicate Proportional(x: Tally, w: nat) {
    0 <= SERVICE_UNIT * x.charged - w * x.advance <= x.rounds * (w - 1)
  }

  lemma CloseIsProportional(x: Tally, w: nat)
    requires Close(x, w)
    ensures Proportional(x, w)
  {
    TimesIs(w, x.advance);
    TimesIs(x.rounds, w - 1);
  }

  /** Service given, advance of the start time and rounds, between two moments. */
  function Balance(s: Sched, r: Sched, given: nat, rounds: nat, i: nat): Tally {
    Tally(given, StartOf(r, i) - StartOf(s, i), rounds)
  }

  lemma {:induction false} BalanceIsClose(s: Sched, evs: seq<Event>, i: nat, w: nat, c: nat)
    requires Inv(s) && CanRun(s, evs) && StaysBacklogged(s, evs, i, w, c)
    requires s.serving != Some(i) && Run(s, evs).serving != Some(i)
    ensures i < |s.ents| && i < |Run(s, evs).ents|
    ensures Close(Balance(s, Run(s, evs), Given(s, evs, i), Rounds(s, evs, i), i), w)
  {
    AccountTelescopes(s, evs, i, w, c);
    assert Account(s, evs, i, w, c) == Balance(s, Run(s, evs), Given(s, evs, i), Rounds(s, evs, i), i);
    AccountIsClose(s, evs, i, w, c);
  }

  /** While an entity stays backlogged at one weight, from one moment on an active
      tree to another, its start time advances in proportion to the service it
      was given: that service, in timestamp units, exceeds `w` times the advance
      by less than the weight per round. */
  lemma {:induction false} FairCharge(s: Sched, evs: seq<Event>, i: nat, w: nat, c: nat)
    requires Inv(s) && CanRun(s, evs) && StaysBacklogged(s, evs, i, w, c)
    requires s.serving != Some(i) && Run(s, evs).serving != Some(i)
    ensures i < |s.ents| && i < |Run(s, evs).ents|
    ensures Proportional(Balance(s, Run(s, evs), Given(s, evs, i), Rounds(s, evs, i), i), w)
  {
    BalanceIsClose(s, evs, i, w, c);
    CloseIsProportional(Balance(s, Run(s, evs), Given(s, evs, i), Rounds(s, evs, i), i), w);
  }
}
