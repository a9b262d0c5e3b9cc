/**
 BFQ's scheduler state updated in place, and the dispatch, charging and expiry
 that drive it.
 */
module BfqDispatch {
  import opened Options
  import opened BfqSched

  const BUDGET_STEP: nat := 128
  const SAFE_BUDGET: nat := 16 * 1024

  datatype Reason = TooIdle | Timeout | Exhausted | NoMoreRequests

  /** What the budget feedback needs to know of a queue and its device. */
  datatype Tuning = Tuning(sync: bool, maxBudget: nat, rounds: nat, deviceMax: nat, userMax: nat)

  /** `bfq_default_budget`. */
  function DefaultBudget(q: Tuning): nat {
    var b := if q.rounds < 194 && q.userMax == 0 then SAFE_BUDGET else q.deviceMax;
    b - b / 4
  }

  /** The new `max_budget` of `__bfq_bfqq_recalc_budget`, or none if it returns
      early. */
  function Feedback(q: Tuning, reason: Reason): Option<nat> {
    if q.sync && reason.NoMoreRequests? then None
    else
      var low := q.deviceMax / 2;
      var b :=
        if !q.sync then q.deviceMax
        else match reason
          case TooIdle => if q.maxBudget > low + BUDGET_STEP then q.maxBudget - BUDGET_STEP else low
          case Timeout => DefaultBudget(q)
          case _ => Min(q.maxBudget + 8 * BUDGET_STEP, q.deviceMax);
      Some(if q.rounds >= 194 && q.userMax == 0 && b > q.deviceMax then q.deviceMax else b)
  }

  function Min(a: nat, b: nat): nat {
    if a < b then a else b
  }

  function Max(a: nat, b: nat): nat {
    if a < b then b else a
  }

  /** The entity budget after feedback: enough for the next request, if any. */
  function NewBudget(current: nat, q: Tuning, reason: Reason, next: Option<nat>): nat {
    match Feedback(q, reason)
    case Some(b) => if next.Some? then Max(b, next.value) else current
    case None => current
  }

  /** Why a queue is really expired: a slow one counts as timed out. */
  function Actual(reason: Reason, slow: bool): Reason {
    if slow && reason.TooIdle? then Timeout else reason
  }

  /** How the maximum budget of a queue adapts.  An asynchronous queue gets the
      maximum of the device.  A synchronous one keeps its own when it ran out of
      requests; rises by eight steps, but not above the maximum of the device, when it
      exhausted its budget; falls by a step, but not below half of that maximum, when it
      was too idle; and gets three quarters of that maximum, or of a safe value at
      first, when it timed out.  In the long run it is cut to the maximum. */
  predicate Adapts(q: Tuning, timedOut: bool, reason: Reason, max: nat) {
    var half := q.deviceMax / 2;
    var settled := q.rounds >= 194 && q.userMax == 0;
    if !q.sync then max == q.deviceMax
    else if timedOut then
      var base := if q.rounds < 194 && q.userMax == 0 then SAFE_BUDGET else q.deviceMax;
      3 * base <= 4 * max <= 3 * base + 3
    else match reason
      case Exhausted =>
        && max <= q.deviceMax && (max == q.maxBudget + 8 * BUDGET_STEP || max == q.deviceMax)
        && max <= q.maxBudget + 8 * BUDGET_STEP
      case TooIdle =>
        && half <= max && (half <= q.maxBudget ==> max <= q.maxBudget)
        && (half + BUDGET_STEP < q.maxBudget ==> max == q.maxBudget - BUDGET_STEP || (settled && max == q.deviceMax < q.maxBudget))
        && (q.maxBudget <= half + BUDGET_STEP ==> max == half)
      case _ => max == q.maxBudget
  }

  lemma FeedbackAdapts(q: Tuning, reason: Reason, slow: bool)
    ensures var f := Feedback(q, Actual(reason, slow));
      && Adapts(q, reason.Timeout? || (slow && reason.TooIdle?), reason, if f.Some? then f.value else q.maxBudget)
      && (f.None? <==> q.sync && reason.NoMoreRequests?)
  {
  }

  /** What the feedback is for: under the device's maximum, a queue that exhausts its
      budget never gets less, and one that is too idle never gets more unless it had
      less than half. */
  lemma FeedbackHasDirection(q: Tuning, reason: Reason, max: nat)
    requires q.sync && q.maxBudget <= q.deviceMax && Adapts(q, false, reason, max)
    ensures reason.Exhausted? ==> q.maxBudget <= max <= q.deviceMax && (q.maxBudget < q.deviceMax ==> q.maxBudget < max)
    ensures reason.TooIdle? ==> q.deviceMax / 2 <= max && (q.deviceMax / 2 < q.maxBudget ==> max < q.maxBudget)
  {
  }

  /** A queue is settled on expiry, its entity going from `e` to `f`.  It is charged its
      whole budget if it timed out or is asynchronous, else what it was served: its next
      start time, when it stays busy with no priority change pending, or else its finish
      time, is moved by exactly that charge.  Its maximum budget adapts, and its budget is
      the larger of that and the next request; one that ran out of requests keeps it. */
  predicate Settles(e: Entity, f: Entity, q: Tuning, timedOut: bool, reason: Reason, next: Option<nat>, max: nat)
    requires e.weight >= 1
  {
    var charge := if timedOut || !q.sync then e.budget else e.service;
    && (next.Some? <==> f.tree.OnActive?)
    && (next.Some? && !e.changed ==> f.start == e.start + Delta(charge, e.weight))
    && (next.None? && f.onSt ==> f.finish == e.start + Delta(charge, e.weight))
    && Adapts(q, timedOut, reason, max)
    && (next.None? || (q.sync && reason.NoMoreRequests?) ==> f.budget == e.budget)
    && (next.Some? && !(q.sync && reason.NoMoreRequests?) ==>
          f.budget >= next.value && f.budget >= max && (f.budget == next.value || f.budget == max))
  }

  /** How many of the requests fit, one after the other, in a budget. */
  function Fitting(left: int, sizes: seq<nat>): nat {
    if sizes == [] || sizes[0] > left then 0 else 1 + Fitting(left - sizes[0], sizes[1..])
  }

  function Sum(sizes: seq<nat>): nat {
    if sizes == [] then 0 else sizes[0] + Sum(sizes[1..])
  }

  lemma {:induction false} FittingStep(left: int, sizes: seq<nat>, k: nat)
    requires k < |sizes| && k <= Fitting(left, sizes)
    ensures Sum(sizes[..k + 1]) == Sum(sizes[..k]) + sizes[k]
    ensures k + 1 <= Fitting(left, sizes) <==> sizes[k] <= left - Sum(sizes[..k])
  {
    if k > 0 {
      FittingStep(left - sizes[0], sizes[1..], k - 1);
      assert sizes[..k + 1][1..] == sizes[1..][..k] && sizes[..k][1..] == sizes[1..][..k - 1];
    } else {
      assert sizes[..1] == [sizes[0]] && sizes[..1][1..] == [] && sizes[..0] == [];
    }
  }

  lemma WsumWhileServing(s: Sched, i: nat)
    requires Core(s, None) && s.serving == Some(i)
    ensures s.ents[i].cls < CLASSES && s.st[s.ents[i].cls].wsum >= 1
  {
    ChargedCore(s, i, 0);
  }

  class BfqData {
    var ents: seq<Entity>
    var st: seq<Service>
    var serving: Option<nat>

    constructor ()
      ensures Now() == Init()
    {
      var t := Service(0, 0, [], None, None);
      ents, st, serving := [], [t, t, t], None;
    }

    ghost function Now(): Sched
      reads this
    {
      Sched(ents, st, serving)
    }

    /** `bfq_idle_insert`. */
    method IdleInsert(i: nat)
      requires Fits(Now(), i)
      modifies this
      ensures Now() == Idled(old(Now()), i)
    {
      var c := ents[i].cls;
      var t := st[c];
      var first, last := t.first, t.last;
      if first.None? || (first.value < |ents| && ents[first.value].finish > ents[i].finish) {
        t := t.(first := Some(i));
      }
      if last.None? || (last.value < |ents| && ents[i].finish > ents[last.value].finish) {
        t := t.(last := Some(i));
      }
      st := st[c := t.(idle := IdlePlaced(ents, t.idle, i))];
      ents := ents[i := ents[i].(tree := OnIdle(c))];
    }

    /** `bfq_active_extract` or `bfq_idle_extract`, or the end of service. */
    method Take(i: nat)
      requires Fits(Now(), i)
      modifies this
      ensures Now() == Taken(old(Now()), i)
    {
      var e := ents[i];
      if serving == Some(i) {
        serving := None;
      } else if e.tree == OnActive(e.cls) {
        ents := ents[i := e.(tree := NoTree)];
      } else if e.tree == OnIdle(e.cls) {
        var t := st[e.cls];
        if t.first == Some(i) {
          t := t.(first := NextOf(t.idle, i));
        }
        if t.last == Some(i) {
          t := t.(last := PrevOf(t.idle, i));
        }
        st := st[e.cls := t.(idle := Dropped(t.idle, i))];
        ents := ents[i := e.(tree := NoTree)];
      }
    }

    /** `bfq_forget_entity`. */
    method ForgetEntity(i: nat)
      requires Fits(Now(), i)
      modifies this
      ensures Now() == Forgotten(old(Now()), i)
    {
      var e := ents[i];
      ents := ents[i := e.(onSt := false)];
      st := st[e.cls := st[e.cls].(wsum := st[e.cls].wsum - e.weight)];
    }

    /** `__bfq_entity_update_prio`. */
    method UpdatePrio(i: nat)
      requires Fits(Now(), i)
      modifies this
      ensures Now() == Reweighed(old(Now()), i)
    {
      var e := ents[i];
      if e.changed {
        var before := e.cls;
        e := e.(cls := e.newCls, changed := false);
        st := st[before := st[before].(wsum := st[before].wsum - e.weight)];
        e := e.(weight := WeightOf(e.newPrio));
        st := st[e.cls := st[e.cls].(wsum := st[e.cls].wsum + e.weight)];
        if e.cls != before {
          e := e.(start := st[e.cls].vtime);
        }
        ents := ents[i := e];
      }
    }

    /** `__bfq_activate_entity`. */
    method Activate(i: nat)
      requires Core(Now(), None) && i < |ents|
      modifies this
      ensures Fits(old(Now()), i) && Now() == Activated(old(Now()), i)
      ensures Core(Now(), None)
      ensures var e := old(ents[i]);
        && StartsRight(e, old(serving) == Some(i), old(st[ents[i].cls].vtime), old(st[ents[i].newCls].vtime), ents[i].start)
        && ents[i].finish - ents[i].start == Delta(e.budget, ents[i].weight)
    {
      assert EntOk(ents[i], serving == Some(i), false);
      ActivatedCore(Now(), i);
      ActivatedTimes(Now(), i);
      Enter(i);
      UpdatePrio(i);
      var e := ents[i];
      ents := ents[i := e.(finish := e.start + Delta(e.budget, e.weight), tree := OnActive(e.cls))];
    }

    method Enter(i: nat)
      requires Fits(Now(), i)
      modifies this
      ensures Now() == Entered(old(Now()), i) && Fits(Now(), i)
    {
      var e := ents[i];
      var t := st[e.cls];
      if serving == Some(i) {
        Take(i);
        var f := e.start + Delta(e.service, e.weight);
        ents := ents[i := e.(start := f, finish := f)];
      } else if e.tree == OnActive(e.cls) {
        Take(i);
      } else if e.tree == OnIdle(e.cls) {
        Take(i);
        ents := ents[i := e.(tree := NoTree, start := if t.vtime > e.finish then t.vtime else e.finish)];
      } else {
        ents := ents[i := e.(start := t.vtime, onSt := true)];
        st := st[e.cls := t.(wsum := t.wsum + e.weight)];
      }
    }

    /** `__bfq_deactivate_entity`. */
    method Deactivate(i: nat, requeue: bool)
      requires Core(Now(), None) && i < |ents|
      modifies this
      ensures Fits(old(Now()), i) && Now() == Deactivated(old(Now()), i, requeue)
      ensures Core(Now(), None)
      ensures old(ents[i].onSt) ==>
        var e := old(ents[i]);
        && ents[i].finish == (if old(serving) == Some(i) then e.start + Delta(e.service, e.weight) else e.finish)
        && (ents[i].onSt <==> requeue && ents[i].finish > old(st[ents[i].cls].vtime))
        && (ents[i].onSt ==> ents[i].tree.OnIdle?)
    {
      assert EntOk(ents[i], serving == Some(i), false);
      DeactivatedCore(Now(), i, requeue);
      if ents[i].onSt { DeactivatedTimes(Now(), i, requeue); }
      if !ents[i].onSt {
        return;
      }
      var e, served := ents[i], serving == Some(i);
      Take(i);
      if served {
        ents := ents[i := e.(finish := e.start + Delta(e.service, e.weight))];
      }
      if !requeue || ents[i].finish <= st[e.cls].vtime {
        ForgetEntity(i);
      } else {
        IdleInsert(i);
      }
    }

    /** `bfq_forget_idle`. */
    method ForgetIdle(c: nat)
      requires |st| == CLASSES && c < CLASSES
      modifies this
      ensures Now() == IdleForgotten(old(Now()), c)
    {
      var t := st[c];
      if NoneActive(ents, c) && t.last.Some? && t.last.value < |ents| && ents[t.last.value].finish <= t.vtime {
        st := st[c := t.(vtime := ents[t.last.value].finish)];
      }
      if t.first.Some? && t.first.value < |ents| && ents[t.first.value].cls < CLASSES
         && ents[t.first.value].newCls < CLASSES && ents[t.first.value].finish <= st[c].vtime {
        Take(t.first.value);
        ForgetEntity(t.first.value);
      }
    }

    /** `bfq_bfqq_served`; its two warnings cannot trigger. */
    method Serve(n: nat)
      requires Inv(Now()) && serving.Some? && n <= ents[serving.value].budget - ents[serving.value].service
      modifies this
      ensures Inv(Now()) && serving == old(serving) && |ents| == old(|ents|)
      ensures Fits(old(Now()), serving.value) && Now() == Served(old(Now()), serving.value, n)
      ensures ents[serving.value] == old(ents[serving.value].(service := ents[serving.value].service + n))
    {
      var i := serving.value;
      ServedInv(Now(), i, n);
      WsumWhileServing(Now(), i);
      assert st[ents[i].cls].wsum != 0;
      var v := NewVtime(Sched(ents, st, serving), i, n);
      Charge(i, n, v);
    }

    method Charge(i: nat, n: nat, vtime: int)
      requires Fits(Now(), i)
      modifies this
      ensures var was := old(Now());
        Now() == IdleForgotten(AtVtime(Charged(was, i, n), was.ents[i].cls, vtime), was.ents[i].cls)
    {
      var c := ents[i].cls;
      Bill(i, n, vtime);
      ForgetIdle(c);
    }

    method Bill(i: nat, n: nat, vtime: int)
      requires Fits(Now(), i)
      modifies this
      ensures Now() == AtVtime(Charged(old(Now()), i, n), old(ents[i].cls), vtime)
    {
      var e := ents[i];
      ents := ents[i := e.(service := e.service + n)];
      st := st[e.cls := st[e.cls].(vtime := vtime)];
    }

    /** `bfq_bfqq_charge_full_budget`. */
    method ChargeFullBudget()
      requires Inv(Now()) && serving.Some?
      modifies this
      ensures Inv(Now()) && serving == old(serving) && |ents| == old(|ents|)
      ensures ents[serving.value] == old(ents[serving.value].(service := ents[serving.value].budget))
    {
      Serve(ents[serving.value].budget - ents[serving.value].service);
    }

    /** `bfq_bfqq_expire`: `next` is the size of the queue's next request, none
        if it has no requests left; a slow queue that was too idle counts as timed
        out. */
    method Expire(reason: Reason, slow: bool, q: Tuning, next: Option<nat>) returns (maxBudget: nat)
      requires Inv(Now()) && serving.Some?
      modifies this
      ensures Inv(Now()) && serving.None? && |ents| == old(|ents|)
      ensures old(ents[serving.value].weight) >= 1
      ensures Settles(old(ents[serving.value]), ents[old(serving.value)], q, reason.Timeout? || (slow && reason.TooIdle?), reason, next, maxBudget)
    {
      var i := serving.value;
      var why := Actual(reason, slow);
      if why.Timeout? || !q.sync {
        ChargeFullBudget();
      }
      assert EntOk(ents[i], true, false);
      FeedbackAdapts(q, reason, slow);
      var feedback := Feedback(q, why);
      maxBudget := if feedback.Some? then feedback.value else q.maxBudget;
      Rebudget(i, NewBudget(ents[i].budget, q, why, next));
      if next.None? {
        Finish(i);
      } else {
        Restart(i);
      }
    }

    method Rebudget(i: nat, b: nat)
      requires Core(Now(), None) && i < |ents|
      modifies `ents
      ensures Core(Now(), None) && ents == old(ents[i := ents[i].(budget := b)])
    {
      TunedCore(Now(), i, ents[i].(budget := b));
      ents := ents[i := ents[i].(budget := b)];
    }

    method Finish(i: nat)
      requires Core(Now(), None) && serving == Some(i)
      modifies this
      ensures Inv(Now()) && serving.None? && |ents| == old(|ents|)
      ensures !ents[i].tree.OnActive? && ents[i].budget == old(ents[i].budget)
      ensures ents[i].onSt ==> ents[i].finish == old(ents[i].start + Delta(ents[i].service, ents[i].weight))
    {
      assert EntOk(ents[i], true, false);
      DeactivatedCore(Now(), i, true);
      Deactivate(i, true);
    }

    method Restart(i: nat)
      requires Core(Now(), None) && serving == Some(i)
      modifies this
      ensures Inv(Now()) && serving.None? && |ents| == old(|ents|)
      ensures ents[i].tree.OnActive? && ents[i].budget == old(ents[i].budget)
      ensures old(!ents[i].changed) ==>
        ents[i].start == old(ents[i].start + Delta(ents[i].service, ents[i].weight))
    {
      ActivatedCore(Now(), i);
      Activate(i);
    }

    /** The part of `bfq_select_queue` that decides about the queue in service:
        it is kept when its next request fits in what is left of its budget, or
        when it has none but is worth waiting for; a timed-out queue is charged
        in full first, and charging it again on expiry adds nothing. */
    method KeepOrExpire(timedOut: bool, waiting: bool, slow: bool, q: Tuning, next: Option<nat>)
      returns (keep: bool, maxBudget: nat)
      requires Inv(Now()) && serving.Some?
      modifies this
      ensures Inv(Now()) && |ents| == old(|ents|) && old(ents[serving.value].weight) >= 1
      ensures keep <==>
        && !timedOut
        && if next.Some? then next.value <= old(ents[serving.value].budget - ents[serving.value].service) else waiting
      ensures keep ==> Now() == old(Now()) && maxBudget == q.maxBudget
      ensures !keep ==>
        && serving.None?
        && Settles(old(ents[serving.value]), ents[old(serving.value)], q, timedOut,
                   if timedOut then Timeout else if next.Some? then Exhausted else NoMoreRequests, next, maxBudget)
    {
      keep, maxBudget := false, q.maxBudget;
      var i := serving.value;
      assert EntOk(ents[i], true, false);
      if timedOut {
        ChargeFullBudget();
        maxBudget := Expire(Timeout, slow, q, next);
      } else if next.Some? {
        if next.value > ents[i].budget - ents[i].service {
          maxBudget := Expire(Exhausted, slow, q, next);
        } else {
          keep := true;
        }
      } else if waiting {
        keep := true;
      } else {
        maxBudget := Expire(NoMoreRequests, slow, q, next);
      }
    }

    /** `__bfq_dispatch_requests` on the requests the queue would give, in turn:
        it dispatches exactly those that fit the budget left, up to the limit,
        and expires the queue if it stops for lack of budget or has to yield.  The
        request that did not fit will fit in the next round. */
    method DispatchRequests(sizes: seq<nat>, limit: nat, mustYield: bool, q: Tuning, after: Option<nat>)
      returns (n: nat, maxBudget: nat)
      requires Inv(Now()) && serving.Some? && sizes != []
      modifies this
      ensures Inv(Now()) && |ents| == old(|ents|) && old(ents[serving.value].weight) >= 1
      ensures n == Min(Min(Max(limit, 1), |sizes|), Fitting(old(ents[serving.value].budget - ents[serving.value].service), sizes))
      ensures serving.Some? ==>
        && serving == old(serving)
        && ents[serving.value] == old(ents[serving.value]).(service := old(ents[serving.value].service) + Sum(sizes[..n]))
        && ents[serving.value].service <= ents[serving.value].budget
      ensures serving.None? <==> mustYield || n < Min(Max(limit, 1), |sizes|)
      ensures serving.None? ==>
        var e := old(ents[serving.value]);
        Settles(e.(service := e.service + Sum(sizes[..n])), ents[old(serving.value)], q, false, Exhausted,
                if n < Min(Max(limit, 1), |sizes|) then Some(sizes[n]) else after, maxBudget)
    {
      maxBudget := q.maxBudget;
      assert EntOk(ents[serving.value], true, false);
      var short: bool;
      n, short := ServeFitting(sizes, limit);
      if short {
        maxBudget := Expire(Exhausted, false, q, Some(sizes[n]));
      } else if mustYield {
        maxBudget := Expire(Exhausted, false, q, after);
      }
    }

    /** The loop of `__bfq_dispatch_requests`; `short` says that it stopped for lack of
        budget. */
    method ServeFitting(sizes: seq<nat>, limit: nat) returns (n: nat, short: bool)
      requires Inv(Now()) && serving.Some? && sizes != []
      modifies this
      ensures Inv(Now()) && serving == old(serving) && |ents| == old(|ents|)
      ensures n == Min(Min(Max(limit, 1), |sizes|), Fitting(old(ents[serving.value].budget - ents[serving.value].service), sizes))
      ensures ents[serving.value] == old(ents[serving.value]).(service := old(ents[serving.value].service) + Sum(sizes[..n]))
      ensures short <==> n < Min(Max(limit, 1), |sizes|)
    {
      n := 0;
      var i := serving.value;
      ghost var e := ents[i];
      ghost var left := e.budget - e.service;
      while n < |sizes| && (n == 0 || n < limit)
        invariant n <= |sizes| && n <= Max(limit, 1) && n <= Fitting(left, sizes)
        invariant Inv(Now()) && serving == Some(i) && |ents| == old(|ents|)
        invariant ents[i] == e.(service := e.service + Sum(sizes[..n]))
      {
        FittingStep(left, sizes, n);
        if sizes[n] > ents[i].budget - ents[i].service {
          return n, true;
        }
        Serve(sizes[n]);
        n := n + 1;
      }
      return n, false;
    }
  }
}
