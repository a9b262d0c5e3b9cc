/**
 The deadline scheduler loses no request and sends none twice.
 */
module DeadlineAccount {
  import opened Options
  import opened SectorList
  import opened Deadline

  function One(b: bool): nat {
    if b then 1 else 0
  }

  /** How often request `w` is queued. */
  function Queued(s: State, w: nat): nat {
    One(HasId(s.read.fifo, w)) + One(HasId(s.write.fifo, w))
  }

  /** What a step puts on the dispatch list: the alias that makes room, or the request
      selected. */
  function Sent(c: Config, s: State, ev: Event): seq<Rq> {
    if !Enabled(c, s, ev) then []
    else match ev
      case Tick(_) => []
      case Add(rq) => Some1(Alias(s.Of(rq.dir).fifo, rq, rq.sector))
      case Grow(rq, rq') => Some1(Alias(s.Of(rq.dir).fifo, rq, rq'.sector))
      case Absorb(_, _) => []
      case Dispatch => if Select(c, s).Take? then [Select(c, s).rq] else []
  }

  function Some1(r: Option<Rq>): seq<Rq> {
    if r.Some? then [r.value] else []
  }

  function Times(out: seq<Rq>, w: nat): nat {
    if out == [] then 0 else One(out[0].id == w) + Times(out[1..], w)
  }

  predicate Arrives(c: Config, s: State, ev: Event, w: nat) {
    Enabled(c, s, ev) && ev.Add? && ev.rq.id == w
  }

  predicate IsMerged(c: Config, s: State, ev: Event, w: nat) {
    Enabled(c, s, ev) && ev.Absorb? && ev.gone.id == w
  }

  // ---- Steps ----------------------------------------------------------------------

  lemma WithoutHas(f: seq<Rq>, rq: Rq, d: bool, top: int, seen: set<nat>, w: nat)
    requires Tidy(f, d, top, seen) && rq in f
    ensures HasId(f, rq.id) && (HasId(Without(f, rq), w) <==> HasId(f, w) && w != rq.id)
  {
    HasEntry(f, d, top, seen, rq);
    WithoutTidy(f, rq, d, top, seen);
    WithoutKeeps(f, rq, 0, w, rq, 0);
  }

  lemma MovedAccounts(c: Config, s: State, rq: Rq, w: nat)
    requires Inv(c, s) && rq in s.Of(rq.dir).fifo
    ensures Queued(Moved(s, rq), w) + One(rq.id == w) == Queued(s, w)
  {
    WithoutHas(s.Of(rq.dir).fifo, rq, rq.dir, s.now + c.expire(rq.dir), s.seen, w);
  }

  /** The alias that is in the way is queued in its direction. */
  lemma AliasIsQueued(c: Config, s: State, rq: Rq, sector: nat)
    requires Inv(c, s)
    ensures var a := Alias(s.Of(rq.dir).fifo, rq, sector);
      a.Some? ==> a.value.dir == rq.dir && a.value in s.Of(rq.dir).fifo && a.value.id != rq.id
  {
    var a := Alias(s.Of(rq.dir).fifo, rq, sector);
    if a.Some? {
      AliasIsEntry(s.Of(rq.dir).fifo, rq, sector);
      HasEntry(s.Of(rq.dir).fifo, rq.dir, s.now + c.expire(rq.dir), s.seen, a.value);
    }
  }

  lemma AddAccounts(c: Config, s: State, rq: Rq, w: nat)
    requires Inv(c, s) && Enabled(c, s, Add(rq))
    ensures Queued(Added(s, rq), w) + Times(Sent(c, s, Add(rq)), w) == Queued(s, w) + One(rq.id == w)
  {
    var d, s1 := rq.dir, RoomFor(s, rq, rq.sector);
    var a := Alias(s.Of(d).fifo, rq, rq.sector);
    AliasIsQueued(c, s, rq, rq.sector);
    if a.Some? {
      MovedAccounts(c, s, a.value, w);
      MovedInv(c, s, a.value);
    }
    UnseenNotThere(s1.Of(d).fifo, d, s.now + c.expire(d), s.seen, rq.id);
    AppendKeeps(s1.Of(d).fifo, rq, 0, w, rq, 0);
  }

  lemma GrowAccounts(c: Config, s: State, rq: Rq, rq': Rq, w: nat)
    requires Inv(c, s) && Enabled(c, s, Grow(rq, rq'))
    ensures Queued(Grown(s, rq, rq'), w) + Times(Sent(c, s, Grow(rq, rq')), w) == Queued(s, w)
  {
    var f := s.Of(rq.dir).fifo;
    var a := Alias(f, rq, rq'.sector);
    AliasIsQueued(c, s, rq, rq'.sector);
    if a.Some? {
      MovedAccounts(c, s, a.value, w);
      ReplacedKeeps(Without(f, a.value), rq, rq', 0, w, rq, 0);
    } else {
      ReplacedKeeps(f, rq, rq', 0, w, rq, 0);
    }
  }

  lemma AbsorbHas(l: Lane, d: bool, top: int, seen: set<nat>, rq: Rq, gone: Rq, w: nat)
    requires LaneOk(l, d, top, seen) && rq in l.fifo && gone in l.fifo && rq.sector < gone.sector && rq.id != gone.id
    ensures HasId(l.fifo, gone.id) && (HasId(Absorbed(l, rq, gone).fifo, w) <==> HasId(l.fifo, w) && w != gone.id)
  {
    HasEntry(l.fifo, d, top, seen, rq);
    HasEntry(l.fifo, d, top, seen, gone);
    if gone.expires < rq.expires {
      EarlierHas(l.fifo, d, top, seen, rq, gone, w);
    } else {
      var rq' := rq.(nr := rq.nr + gone.nr);
      NoOwnAlias(l.fifo, d, top, seen, rq);
      ReplacedTidy(l.fifo, rq, rq', d, top, seen);
      ReplacedKeeps(l.fifo, rq, rq', 0, w, gone, 0);
      WithoutHas(Replaced(l.fifo, rq, rq'), gone, d, top, seen, w);
    }
  }

  lemma EarlierHas(f: seq<Rq>, d: bool, top: int, seen: set<nat>, rq: Rq, gone: Rq, w: nat)
    requires Tidy(f, d, top, seen) && rq in f && gone in f && rq.id != gone.id && gone.expires < rq.expires
    ensures var rq' := rq.(nr := rq.nr + gone.nr, expires := gone.expires);
      HasId(Without(Behind(Without(f, rq), gone, rq'), gone), w) <==> HasId(f, w) && w != gone.id
  {
    var rq' := rq.(nr := rq.nr + gone.nr, expires := gone.expires);
    var g := Without(f, rq);
    WithoutHas(f, rq, d, top, seen, w);
    WithoutTidy(f, rq, d, top, seen);
    WithoutKeeps(f, rq, 0, 0, gone, 0);
    HasEntry(f, d, top, seen, rq);
    TakesPlace(g, gone, rq', 0, w, rq, 0);
    if w == rq.id {
      TakesPlaceOwn(g, gone, rq', d, top, seen);
    } else if w == gone.id {
      TakesPlaceGone(g, gone, rq', d, top, seen);
    } else if HasId(g, w) {
      TakesPlaceOthers(g, gone, rq', d, top, seen, w);
    }
  }

  /** Each step accounts for every request. */
  lemma StepAccounts(c: Config, s: State, ev: Event, w: nat)
    requires Inv(c, s)
    ensures Queued(Step(c, s, ev), w) + Times(Sent(c, s, ev), w) + One(IsMerged(c, s, ev, w))
         == Queued(s, w) + One(Arrives(c, s, ev, w))
  {
    if Enabled(c, s, ev) {
      match ev
      case Tick(now) =>
      case Add(rq) => AddAccounts(c, s, rq, w);
      case Grow(rq, rq') => GrowAccounts(c, s, rq, rq', w);
      case Absorb(rq, gone) =>
        AbsorbHas(s.Of(rq.dir), rq.dir, s.now + c.expire(rq.dir), s.seen, rq, gone, w);
      case Dispatch =>
        var r := Select(c, s);
        if r.Take? {
          SelectIsQueued(c, s);
          MovedAccounts(c, s.(batching := r.batching, starved := r.starved), r.rq, w);
        }
    }
  }

  // ---- Runs -------------------------------------------------------------------------

  function AllSent(c: Config, s: State, evs: seq<Event>): seq<Rq>
    decreases |evs|
  {
    if evs == [] then [] else Sent(c, s, evs[0]) + AllSent(c, Step(c, s, evs[0]), evs[1..])
  }

  function Merges(c: Config, s: State, evs: seq<Event>, w: nat): nat
    decreases |evs|
  {
    if evs == [] then 0 else One(IsMerged(c, s, evs[0], w)) + Merges(c, Step(c, s, evs[0]), evs[1..], w)
  }

  function Arrivals(c: Config, s: State, evs: seq<Event>, w: nat): nat
    decreases |evs|
  {
    if evs == [] then 0 else One(Arrives(c, s, evs[0], w)) + Arrivals(c, Step(c, s, evs[0]), evs[1..], w)
  }

  lemma {:induction false} TimesJoin(a: seq<Rq>, b: seq<Rq>, w: nat)
    ensures Times(a + b, w) == Times(a, w) + Times(b, w)
  {
    if a == [] {
      assert a + b == b;
    } else {
      assert (a + b)[1..] == a[1..] + b;
      TimesJoin(a[1..], b, w);
    }
  }

  lemma {:induction false} RunAccounts(c: Config, s: State, evs: seq<Event>, w: nat)
    requires Inv(c, s)
    ensures Queued(Run(c, s, evs), w) + Times(AllSent(c, s, evs), w) + Merges(c, s, evs, w)
         == Queued(s, w) + Arrivals(c, s, evs, w)
    decreases |evs|
  {
    if evs != [] {
      var s1 := Step(c, s, evs[0]);
      StepKeepsInv(c, s, evs[0]);
      StepAccounts(c, s, evs[0], w);
      RunAccounts(c, s1, evs[1..], w);
      TimesJoin(Sent(c, s, evs[0]), AllSent(c, s1, evs[1..]), w);
    }
  }

  /** A request arrives at most once. */
  lemma {:induction false} ArrivesOnce(c: Config, s: State, evs: seq<Event>, w: nat)
    ensures Arrivals(c, s, evs, w) <= One(w !in s.seen)
    decreases |evs|
  {
    if evs != [] {
      SeenGrows(c, s, evs[0], w);
      ArrivesOnce(c, Step(c, s, evs[0]), evs[1..], w);
    }
  }

  lemma SeenGrows(c: Config, s: State, ev: Event, w: nat)
    ensures w in Step(c, s, ev).seen <==> w in s.seen || Arrives(c, s, ev, w)
  {
  }

  /** In every run a request that arrived is queued, or was put on the dispatch list
      once, or was merged into another: exactly one of these. */
  lemma {:induction false} NothingLost(c: Config, now: int, evs: seq<Event>, w: nat)
    ensures Queued(Run(c, Init(now), evs), w) + Times(AllSent(c, Init(now), evs), w) + Merges(c, Init(now), evs, w)
         == Arrivals(c, Init(now), evs, w) <= 1
  {
    RunAccounts(c, Init(now), evs, w);
    ArrivesOnce(c, Init(now), evs, w);
  }
}
