/**
 The deadline scheduler: FIFO lists and sector order per direction, batches of
 sequential requests, and a limit on how often reads may be preferred to
 waiting writes.

 The main result bounds how long an expired write can wait, whatever arrives,
 merges or collides meanwhile.
 */
module Deadline {
  import opened Options
  import opened SectorList

  /** The tunables.  Time is in jiffies and does not wrap. */
  datatype Config = Config(fifoBatch: nat, writesStarved: nat, expire: bool -> nat)

  /** One direction.  A queued request is on the sort list and on the FIFO list
      at once, so the FIFO list stands for both; the sort list is its entries in
      sector order. */
  datatype Lane = Lane(fifo: seq<Rq>, next: Option<Rq>)

  /** `seen` collects the requests ever added, so that none comes back. */
  datatype State = State(read: Lane, write: Lane, batching: nat, starved: nat, now: int, seen: set<nat>) {
    function Of(d: bool): Lane {
      if d then write else read
    }

    function With(d: bool, l: Lane): State {
      if d then this.(write := l) else this.(read := l)
    }
  }

  // ---- Lists -------------------------------------------------------------

  predicate HasId(f: seq<Rq>, w: nat) {
    f != [] && (f[0].id == w || HasId(f[1..], w))
  }

  /** How many requests stand before request `w`. */
  function Pos(f: seq<Rq>, w: nat): nat {
    if f == [] || f[0].id == w then 0 else 1 + Pos(f[1..], w)
  }

  /** The deadline of request `w`. */
  function DeadlineOf(f: seq<Rq>, w: nat): int
    requires HasId(f, w)
  {
    if f[0].id == w then f[0].expires else DeadlineOf(f[1..], w)
  }

  /** The request at sector `s` other than `rq`: what `elv_rb_add` reports as an
      alias of `rq` placed there. */
  function Alias(f: seq<Rq>, rq: Rq, s: nat): Option<Rq> {
    if f == [] then None
    else if f[0].id != rq.id && f[0].sector == s then Some(f[0])
    else Alias(f[1..], rq, s)
  }

  /** The lowest entry at or above sector `s`. */
  function Search(f: seq<Rq>, s: nat): Option<Rq> {
    if f == [] then None
    else
      var r := Search(f[1..], s);
      if s <= f[0].sector && (r.None? || f[0].sector < r.value.sector) then Some(f[0]) else r
  }

  lemma {:induction false} SearchIsRight(f: seq<Rq>, s: nat)
    ensures IsAtOrAbove((set x | x in f), s, Search(f, s))
  {
    if f != [] {
      SearchIsRight(f[1..], s);
      assert (set x | x in f) == {f[0]} + (set x | x in f[1..]);
    }
  }

  ghost predicate NotBefore(f: seq<Rq>, e: int) {
    f == [] || (e <= f[0].expires && NotBefore(f[1..], e))
  }

  /** A FIFO list in order: direction `d`, known requests, one per sector,
      deadlines that do not decrease and stay below `top`. */
  ghost predicate Tidy(f: seq<Rq>, d: bool, top: int, seen: set<nat>) {
    f == [] ||
    (&& f[0].dir == d && f[0].id in seen && f[0].expires <= top
     && !HasId(f[1..], f[0].id) && Alias(f[1..], f[0], f[0].sector).None?
     && NotBefore(f[1..], f[0].expires) && Tidy(f[1..], d, top, seen))
  }

  lemma {:induction false} HasEntry(f: seq<Rq>, d: bool, top: int, seen: set<nat>, rq: Rq)
    requires rq in f && Tidy(f, d, top, seen)
    ensures HasId(f, rq.id) && rq.dir == d && rq.id in seen && rq.expires == DeadlineOf(f, rq.id)
  {
    if f[0] != rq { HasEntry(f[1..], d, top, seen, rq); }
  }

  lemma TidyLater(f: seq<Rq>, d: bool, top: int, top': int, seen: set<nat>, seen': set<nat>)
    requires Tidy(f, d, top, seen) && top <= top' && seen <= seen'
    ensures Tidy(f, d, top', seen')
  {
  }

  lemma UnseenNotThere(f: seq<Rq>, d: bool, top: int, seen: set<nat>, w: nat)
    requires Tidy(f, d, top, seen) && w !in seen
    ensures !HasId(f, w)
  {
  }

  /** Nobody expires before the head. */
  lemma HeadIsFirst(f: seq<Rq>, e: int, w: nat)
    requires NotBefore(f, e) && HasId(f, w)
    ensures e <= DeadlineOf(f, w)
  {
  }

  /** Taking a request out lets nobody slip back. */
  lemma {:induction false} WithoutKeeps(f: seq<Rq>, rq: Rq, e: int, w: nat, x: Rq, s: nat)
    ensures NotBefore(f, e) ==> NotBefore(Without(f, rq), e)
    ensures Alias(f, x, s).None? ==> Alias(Without(f, rq), x, s).None?
    ensures HasId(Without(f, rq), w) ==> HasId(f, w)
    ensures x in f && x != rq ==> x in Without(f, rq)
    ensures rq.id != w && HasId(f, w) ==> HasId(Without(f, rq), w) && DeadlineOf(Without(f, rq), w) == DeadlineOf(f, w)
    ensures rq.id != w && HasId(f, w) ==> Pos(Without(f, rq), w) <= Pos(f, w)
    ensures rq.id != w && HasId(f, w) && f[0] == rq ==> Pos(Without(f, rq), w) < Pos(f, w)
  {
    if f != [] { WithoutKeeps(f[1..], rq, e, w, x, s); }
  }

  lemma {:induction false} WithoutTidy(f: seq<Rq>, rq: Rq, d: bool, top: int, seen: set<nat>)
    requires Tidy(f, d, top, seen)
    ensures Tidy(Without(f, rq), d, top, seen)
    ensures rq in f ==> !HasId(Without(f, rq), rq.id) && Alias(Without(f, rq), rq, rq.sector).None?
  {
    if f != [] {
      WithoutTidy(f[1..], rq, d, top, seen);
      WithoutKeeps(f[1..], rq, f[0].expires, f[0].id, f[0], f[0].sector);
      if f[0] == rq {
        NotThere(f[1..], rq);
      } else if rq in f[1..] {
        HasEntry(f[1..], d, top, seen, rq);
        AliasEntry(f[1..], f[0], rq);
      }
    }
  }

  lemma NotThere(f: seq<Rq>, rq: Rq)
    requires !HasId(f, rq.id)
    ensures Without(f, rq) == f
  {
    if f != [] { assert f == [f[0]] + f[1..]; }
  }

  lemma {:induction false} AliasEntry(f: seq<Rq>, x: Rq, rq: Rq)
    requires rq in f && rq.id != x.id && Alias(f, x, x.sector).None?
    ensures rq.sector != x.sector
  {
    if f[0] != rq { AliasEntry(f[1..], x, rq); }
  }

  /** A new request goes behind everybody. */
  lemma {:induction false} AppendKeeps(f: seq<Rq>, rq: Rq, e: int, w: nat, x: Rq, s: nat)
    ensures NotBefore(f + [rq], e) <==> NotBefore(f, e) && e <= rq.expires
    ensures Alias(f + [rq], x, s).None? <==> Alias(f, x, s).None? && (rq.id == x.id || rq.sector != s)
    ensures HasId(f + [rq], w) <==> HasId(f, w) || rq.id == w
    ensures HasId(f, w) ==> Pos(f + [rq], w) == Pos(f, w) && DeadlineOf(f + [rq], w) == DeadlineOf(f, w)
  {
    if f == [] {
      assert f + [rq] == [rq];
    } else {
      assert (f + [rq])[1..] == f[1..] + [rq];
      AppendKeeps(f[1..], rq, e, w, x, s);
    }
  }

  lemma {:induction false} AppendTidy(f: seq<Rq>, rq: Rq, d: bool, top: int, seen: set<nat>)
    requires Tidy(f, d, top, seen) && rq.dir == d && rq.id in seen && rq.expires == top
    requires !HasId(f, rq.id) && Alias(f, rq, rq.sector).None?
    ensures Tidy(f + [rq], d, top, seen)
  {
    if f != [] {
      assert (f + [rq])[1..] == f[1..] + [rq];
      AppendTidy(f[1..], rq, d, top, seen);
      AppendKeeps(f[1..], rq, f[0].expires, f[0].id, f[0], f[0].sector);
    }
  }

  /** A request that changes in place, keeping its deadline, moves nobody. */
  lemma {:induction false} ReplacedKeeps(f: seq<Rq>, was: Rq, now: Rq, e: int, w: nat, x: Rq, s: nat)
    requires was.id == now.id && was.expires == now.expires
    ensures NotBefore(Replaced(f, was, now), e) <==> NotBefore(f, e)
    ensures Alias(f, x, s).None? && now.sector != s ==> Alias(Replaced(f, was, now), x, s).None?
    ensures x.id == was.id && Alias(f, x, s).None? ==> Alias(Replaced(f, was, now), x, s).None?
    ensures HasId(Replaced(f, was, now), w) <==> HasId(f, w)
    ensures HasId(f, w) ==> Pos(Replaced(f, was, now), w) == Pos(f, w)
    ensures HasId(f, w) ==> DeadlineOf(Replaced(f, was, now), w) == DeadlineOf(f, w)
    ensures x in f ==> (if x == was then now else x) in Replaced(f, was, now)
  {
    if f != [] { ReplacedKeeps(f[1..], was, now, e, w, x, s); }
  }

  lemma {:induction false} ReplacedTidy(f: seq<Rq>, was: Rq, now: Rq, d: bool, top: int, seen: set<nat>)
    requires Tidy(f, d, top, seen) && now == was.(sector := now.sector, nr := now.nr)
    requires Alias(f, was, now.sector).None?
    ensures Tidy(Replaced(f, was, now), d, top, seen)
  {
    if f != [] {
      ReplacedTidy(f[1..], was, now, d, top, seen);
      ReplacedKeeps(f[1..], was, now, f[0].expires, f[0].id, f[0], f[0].sector);
      ReplacedKeeps(f[1..], was, now, f[0].expires, f[0].id, now, now.sector);
      AliasOfSameId(f[1..], was, now, now.sector);
    }
  }

  lemma AliasOfSameId(f: seq<Rq>, x: Rq, y: Rq, s: nat)
    requires x.id == y.id
    ensures Alias(f, x, s) == Alias(f, y, s)
  {
  }

  /** A request with the deadline of `where` that stands behind it, while
      `where` leaves, has taken its place. */
  lemma {:induction false} TakesPlace(f: seq<Rq>, where: Rq, rq: Rq, e: int, w: nat, x: Rq, s: nat)
    requires rq.expires == where.expires && where in f && !HasId(f, rq.id)
    ensures var g := Without(Behind(f, where, rq), where);
            && (NotBefore(f, e) ==> NotBefore(g, e))
            && (Alias(f, x, s).None? && (rq.id == x.id || rq.sector != s) ==> Alias(g, x, s).None?)
            && (HasId(g, w) ==> HasId(f, w) || rq.id == w)
            && (x in f && x != where ==> x in g) && rq in g
  {
    assert f == [f[0]] + f[1..];
    if f[0] == where {
      assert Behind(f, where, rq)[1..] == [rq] + f[1..];
      assert ([rq] + f[1..])[1..] == f[1..];
      WithoutKeeps(f[1..], where, e, w, x, s);
    } else {
      TakesPlace(f[1..], where, rq, e, w, x, s);
    }
  }

  lemma {:induction false} TakesPlaceTidy(f: seq<Rq>, where: Rq, rq: Rq, d: bool, top: int, seen: set<nat>)
    requires Tidy(f, d, top, seen) && rq.expires == where.expires && where in f && !HasId(f, rq.id)
    requires rq.dir == d && rq.id in seen && Alias(f, rq, rq.sector).None?
    ensures Tidy(Without(Behind(f, where, rq), where), d, top, seen)
  {
    if f[0] == where {
      assert Behind(f, where, rq)[1..] == [rq] + f[1..];
      assert ([rq] + f[1..])[1..] == f[1..];
      NotThere(f[1..], where);
    } else {
      TakesPlaceTidy(f[1..], where, rq, d, top, seen);
      TakesPlace(f[1..], where, rq, f[0].expires, f[0].id, f[0], f[0].sector);
    }
  }

  lemma {:induction false} TakesPlaceOwn(f: seq<Rq>, where: Rq, rq: Rq, d: bool, top: int, seen: set<nat>)
    requires Tidy(f, d, top, seen) && where in f && !HasId(f, rq.id)
    ensures var g := Without(Behind(f, where, rq), where);
            HasId(g, rq.id) && Pos(g, rq.id) == Pos(f, where.id) && DeadlineOf(g, rq.id) == rq.expires
  {
    if f[0] == where {
      assert Behind(f, where, rq)[1..] == [rq] + f[1..];
      assert ([rq] + f[1..])[1..] == f[1..];
      NotThere(f[1..], where);
    } else {
      HasEntry(f[1..], d, top, seen, where);
      TakesPlaceOwn(f[1..], where, rq, d, top, seen);
    }
  }

  lemma {:induction false} TakesPlaceOthers(f: seq<Rq>, where: Rq, rq: Rq, d: bool, top: int, seen: set<nat>, w: nat)
    requires Tidy(f, d, top, seen) && where in f && !HasId(f, rq.id) && HasId(f, w) && w != where.id
    ensures var g := Without(Behind(f, where, rq), where);
            HasId(g, w) && Pos(g, w) == Pos(f, w) && DeadlineOf(g, w) == DeadlineOf(f, w)
  {
    if f[0] == where {
      assert Behind(f, where, rq)[1..] == [rq] + f[1..];
      assert ([rq] + f[1..])[1..] == f[1..];
      NotThere(f[1..], where);
    } else if f[0].id != w {
      TakesPlaceOthers(f[1..], where, rq, d, top, seen, w);
    }
  }

  /** An earlier deadline means an earlier place. */
  lemma {:induction false} EarlierStandsBefore(f: seq<Rq>, d: bool, top: int, seen: set<nat>, a: nat, b: nat)
    requires Tidy(f, d, top, seen) && HasId(f, a) && HasId(f, b) && DeadlineOf(f, a) < DeadlineOf(f, b)
    ensures Pos(f, a) < Pos(f, b)
  {
    if f[0].id == b {
      HeadIsFirst(f[1..], f[0].expires, a);
    } else if f[0].id != a {
      EarlierStandsBefore(f[1..], d, top, seen, a, b);
    }
  }

  // ---- The scheduler -----------------------------------------------------

  ghost predicate LaneOk(l: Lane, d: bool, top: int, seen: set<nat>) {
    Tidy(l.fifo, d, top, seen) && (l.next.Some? ==> l.next.value in l.fifo)
  }

  /** What holds between any two operations. */
  ghost predicate Inv(c: Config, s: State) {
    && LaneOk(s.read, false, s.now + c.expire(false), s.seen)
    && LaneOk(s.write, true, s.now + c.expire(true), s.seen)
  }

  function Init(now: int): State {
    State(Lane([], None), Lane([], None), 0, 0, now, {})
  }

  /** `deadline_move_request`: `rq` leaves for the dispatch list, and only the
      request behind it in sector order is remembered. */
  function Moved(s: State, rq: Rq): State {
    var f := s.Of(rq.dir).fifo;
    s.With(!rq.dir, s.Of(!rq.dir).(next := None))
     .With(rq.dir, Lane(Without(f, rq), Search(f, rq.sector + 1)))
  }

  /** The request that starts a batch in direction `d`: the oldest one if it has
      expired or nothing is cached, else the cached one. */
  function FindRequest(s: State, d: bool): Rq
    requires s.Of(d).fifo != []
  {
    var l := s.Of(d);
    if l.fifo[0].expires < s.now || l.next.None? then l.fifo[0] else l.next.value
  }

  datatype Choice = Nothing | Take(rq: Rq, batching: nat, starved: nat)

  /** The selection in `deadline_dispatch_requests`. */
  function Select(c: Config, s: State): Choice {
    var cached := if s.write.next.Some? then s.write.next else s.read.next;
    var anyRead := s.read.fifo != [];
    var anyWrite := s.write.fifo != [];
    if cached.Some? && s.batching < c.fifoBatch then Take(cached.value, s.batching + 1, s.starved)
    else if anyRead && !(anyWrite && s.starved >= c.writesStarved) then
      Take(FindRequest(s, false), 1, if anyWrite then s.starved + 1 else s.starved)
    else if anyWrite then Take(FindRequest(s, true), 1, 0)
    else Nothing
  }

  function Dispatched(c: Config, s: State): State {
    match Select(c, s)
    case Nothing => s
    case Take(rq, batching, starved) => Moved(s.(batching := batching, starved := starved), rq)
  }

  /** The alias of `rq` at sector `s`, if any, is dispatched to make room. */
  function RoomFor(s: State, rq: Rq, sector: nat): State {
    match Alias(s.Of(rq.dir).fifo, rq, sector)
    case None => s
    case Some(a) => Moved(s, a)
  }

  /** `deadline_add_request`. */
  function Added(s: State, rq: Rq): State {
    var s1 := RoomFor(s, rq, rq.sector);
    var l := s1.Of(rq.dir);
    s1.With(rq.dir, l.(fifo := l.fifo + [rq])).(seen := s1.seen + {rq.id})
  }

  function Renamed(l: Lane, was: Rq, now: Rq): Lane {
    Lane(Replaced(l.fifo, was, now), if l.next == Some(was) then Some(now) else l.next)
  }

  /** A bio is merged into `rq`, which becomes `rq'`.  After a front merge the
      request is out of the sort list while an alias is dispatched. */
  function Grown(s: State, rq: Rq, rq': Rq): State {
    var d := rq.dir;
    match Alias(s.Of(d).fifo, rq, rq'.sector)
    case None => s.With(d, Renamed(s.Of(d), rq, rq'))
    case Some(a) => Moved(s, a).With(d, Renamed(MovedWithout(s.Of(d).fifo, a, rq), rq, rq'))
  }

  /** The lane after `a` was moved to dispatch while `rq` was off the sort list. */
  function MovedWithout(f: seq<Rq>, a: Rq, rq: Rq): Lane {
    Lane(Without(f, a), Search(Without(f, rq), a.sector + 1))
  }

  /** `attempt_merge` with `deadline_merged_requests`: `gone` becomes part of
      `rq`, which takes over an earlier deadline and the place that goes with it. */
  function Absorbed(l: Lane, rq: Rq, gone: Rq): Lane {
    var earlier := gone.expires < rq.expires;
    var rq' := rq.(nr := rq.nr + gone.nr, expires := if earlier then gone.expires else rq.expires);
    var f := if earlier then Behind(Without(l.fifo, rq), gone, rq') else Replaced(l.fifo, rq, rq');
    Lane(Without(f, gone),
         if l.next == Some(gone) then Search(l.fifo, gone.sector + 1)
         else if l.next == Some(rq) then Some(rq') else l.next)
  }

  datatype Event =
    | Tick(now: int)
    | Add(rq: Rq)
    | Grow(rq: Rq, rq': Rq)
    | Absorb(rq: Rq, gone: Rq)
    | Dispatch

  /** What the rest of the kernel guarantees about a call. */
  predicate Enabled(c: Config, s: State, ev: Event) {
    match ev
    case Tick(now) => s.now <= now
    case Add(rq) => rq.id !in s.seen && rq.expires == s.now + c.expire(rq.dir)
    case Grow(rq, rq') => rq in s.Of(rq.dir).fifo && rq' == rq.(sector := rq'.sector, nr := rq'.nr)
    case Absorb(rq, gone) =>
      rq in s.Of(rq.dir).fifo && gone in s.Of(rq.dir).fifo && rq.sector < gone.sector && rq.id != gone.id
    case Dispatch => true
  }

  function Step(c: Config, s: State, ev: Event): State {
    if !Enabled(c, s, ev) then s
    else match ev
      case Tick(now) => s.(now := now)
      case Add(rq) => Added(s, rq)
      case Grow(rq, rq') => Grown(s, rq, rq')
      case Absorb(rq, gone) => s.With(rq.dir, Absorbed(s.Of(rq.dir), rq, gone))
      case Dispatch => Dispatched(c, s)
  }

  function Run(c: Config, s: State, evs: seq<Event>): State
    decreases |evs|
  {
    if evs == [] then s else Run(c, Step(c, s, evs[0]), evs[1..])
  }

  // ---- What every step keeps ---------------------------------------------

  lemma SearchEntry(f: seq<Rq>, s: nat)
    ensures Search(f, s).Some? ==> Search(f, s).value in f && s <= Search(f, s).value.sector
  {
  }

  lemma AliasIsEntry(f: seq<Rq>, rq: Rq, s: nat)
    ensures Alias(f, rq, s).Some? ==>
              Alias(f, rq, s).value in f && Alias(f, rq, s).value.id != rq.id && Alias(f, rq, s).value.sector == s
  {
  }

  /** Once the alias is out, nobody is left at its sector. */
  lemma AliasWasOnly(f: seq<Rq>, rq: Rq, s: nat, d: bool, top: int, seen: set<nat>)
    requires Tidy(f, d, top, seen) && Alias(f, rq, s).Some?
    ensures Alias(Without(f, Alias(f, rq, s).value), rq, s).None?
  {
    var a := Alias(f, rq, s).value;
    if f[0] == a {
      NotThere(f[1..], a);
      AliasOther(f[1..], a, rq);
    } else {
      AliasWasOnly(f[1..], rq, s, d, top, seen);
    }
  }

  lemma AliasOther(f: seq<Rq>, a: Rq, rq: Rq)
    requires Alias(f, a, a.sector).None? && !HasId(f, a.id)
    ensures Alias(f, rq, a.sector).None?
  {
  }

  lemma WithoutInLane(l: Lane, d: bool, top: int, seen: set<nat>, rq: Rq, next: Option<Rq>)
    requires LaneOk(l, d, top, seen) && (next.Some? ==> next.value in l.fifo && next.value != rq)
    ensures LaneOk(Lane(Without(l.fifo, rq), next), d, top, seen)
  {
    WithoutTidy(l.fifo, rq, d, top, seen);
    if next.Some? { WithoutKeeps(l.fifo, rq, 0, 0, next.value, 0); }
  }

  lemma MovedInv(c: Config, s: State, rq: Rq)
    requires Inv(c, s)
    ensures Inv(c, Moved(s, rq))
  {
    var d, l := rq.dir, s.Of(rq.dir);
    SearchEntry(l.fifo, rq.sector + 1);
    WithoutInLane(l, d, s.now + c.expire(d), s.seen, rq, Search(l.fifo, rq.sector + 1));
  }

  /** What is selected is queued, in its own direction. */
  lemma SelectIsQueued(c: Config, s: State)
    requires Inv(c, s)
    ensures var r := Select(c, s);
            if r.Nothing? then s.read.fifo == [] && s.write.fifo == [] else r.rq in s.Of(r.rq.dir).fifo
  {
    var r := Select(c, s);
    if r.Take? {
      if r.rq in s.read.fifo {
        HasEntry(s.read.fifo, false, s.now + c.expire(false), s.seen, r.rq);
      } else {
        HasEntry(s.write.fifo, true, s.now + c.expire(true), s.seen, r.rq);
      }
    }
  }

  lemma AddedInv(c: Config, s: State, rq: Rq)
    requires Inv(c, s) && Enabled(c, s, Add(rq))
    ensures Inv(c, Added(s, rq))
  {
    var d, s1, s' := rq.dir, RoomFor(s, rq, rq.sector), Added(s, rq);
    var a := Alias(s.Of(d).fifo, rq, rq.sector);
    var top, top2 := s.now + c.expire(d), s.now + c.expire(!d);
    if a.Some? {
      AliasIsEntry(s.Of(d).fifo, rq, rq.sector);
      HasEntry(s.Of(d).fifo, d, top, s.seen, a.value);
      MovedInv(c, s, a.value);
      AliasWasOnly(s.Of(d).fifo, rq, rq.sector, d, top, s.seen);
    }
    UnseenNotThere(s1.Of(d).fifo, d, top, s.seen, rq.id);
    TidyLater(s1.Of(d).fifo, d, top, top, s.seen, s'.seen);
    TidyLater(s1.Of(!d).fifo, !d, top2, top2, s.seen, s'.seen);
    AppendTidy(s1.Of(d).fifo, rq, d, top, s'.seen);
  }

  lemma RenamedInLane(l: Lane, d: bool, top: int, seen: set<nat>, rq: Rq, rq': Rq)
    requires LaneOk(l, d, top, seen) && rq' == rq.(sector := rq'.sector, nr := rq'.nr)
    requires Alias(l.fifo, rq, rq'.sector).None?
    ensures LaneOk(Renamed(l, rq, rq'), d, top, seen)
  {
    ReplacedTidy(l.fifo, rq, rq', d, top, seen);
    if l.next.Some? { ReplacedKeeps(l.fifo, rq, rq', 0, 0, l.next.value, 0); }
  }

  lemma MovedWithoutInLane(l: Lane, d: bool, top: int, seen: set<nat>, a: Rq, rq: Rq)
    requires LaneOk(l, d, top, seen)
    ensures LaneOk(MovedWithout(l.fifo, a, rq), d, top, seen)
  {
    var next := Search(Without(l.fifo, rq), a.sector + 1);
    SearchEntry(Without(l.fifo, rq), a.sector + 1);
    if next.Some? { WithoutEntry(l.fifo, rq, next.value); }
    WithoutInLane(l, d, top, seen, a, next);
  }

  lemma GrownInv(c: Config, s: State, rq: Rq, rq': Rq)
    requires Inv(c, s) && Enabled(c, s, Grow(rq, rq'))
    ensures Inv(c, Grown(s, rq, rq'))
  {
    var d, l, top := rq.dir, s.Of(rq.dir), s.now + c.expire(rq.dir);
    match Alias(l.fifo, rq, rq'.sector)
    case None =>
      RenamedInLane(l, d, top, s.seen, rq, rq');
    case Some(a) =>
      AliasIsEntry(l.fifo, rq, rq'.sector);
      HasEntry(l.fifo, d, top, s.seen, a);
      AliasWasOnly(l.fifo, rq, rq'.sector, d, top, s.seen);
      MovedWithoutInLane(l, d, top, s.seen, a, rq);
      RenamedInLane(MovedWithout(l.fifo, a, rq), d, top, s.seen, rq, rq');
  }

  lemma WithoutEntry(f: seq<Rq>, rq: Rq, x: Rq)
    requires x in Without(f, rq)
    ensures x in f && x != rq
  {
    if f[0] == rq { WithoutEntry(f[1..], rq, x); }
  }

  lemma AbsorbedInLane(l: Lane, d: bool, top: int, seen: set<nat>, rq: Rq, gone: Rq)
    requires LaneOk(l, d, top, seen) && rq in l.fifo && gone in l.fifo && rq.sector < gone.sector && rq.id != gone.id
    ensures LaneOk(Absorbed(l, rq, gone), d, top, seen)
  {
    HasEntry(l.fifo, d, top, seen, rq);
    SearchEntry(l.fifo, gone.sector + 1);
    var after := Search(l.fifo, gone.sector + 1);
    if gone.expires < rq.expires {
      var rq' := rq.(nr := rq.nr + gone.nr, expires := gone.expires);
      var f := Without(l.fifo, rq);
      WithoutTidy(l.fifo, rq, d, top, seen);
      WithoutKeeps(l.fifo, rq, 0, 0, gone, 0);
      AliasOfSameId(f, rq, rq', rq.sector);
      TakesPlaceTidy(f, gone, rq', d, top, seen);
      TakesPlace(f, gone, rq', 0, 0, if after.Some? then after.value else rq, 0);
      if after.Some? { WithoutKeeps(l.fifo, rq, 0, 0, after.value, 0); }
      if l.next.Some? {
        WithoutKeeps(l.fifo, rq, 0, 0, l.next.value, 0);
        TakesPlace(f, gone, rq', 0, 0, l.next.value, 0);
      }
    } else {
      var rq' := rq.(nr := rq.nr + gone.nr);
      NoOwnAlias(l.fifo, d, top, seen, rq);
      RenamedInLane(l, d, top, seen, rq, rq');
      var l1 := Renamed(l, rq, rq');
      if after.Some? { ReplacedKeeps(l.fifo, rq, rq', 0, 0, after.value, 0); }
      WithoutInLane(l1.(next := Absorbed(l, rq, gone).next), d, top, seen, gone, Absorbed(l, rq, gone).next);
    }
  }

  lemma {:induction false} NoOwnAlias(f: seq<Rq>, d: bool, top: int, seen: set<nat>, rq: Rq)
    requires Tidy(f, d, top, seen) && rq in f
    ensures Alias(f, rq, rq.sector).None?
  {
    if f[0] != rq {
      HasEntry(f[1..], d, top, seen, rq);
      AliasEntry(f[1..], f[0], rq);
      NoOwnAlias(f[1..], d, top, seen, rq);
    }
  }

  /** Every step keeps the FIFO lists in deadline order, one request per sector,
      and the cached requests queued. */
  lemma StepKeepsInv(c: Config, s: State, ev: Event)
    requires Inv(c, s)
    ensures Inv(c, Step(c, s, ev))
  {
    if Enabled(c, s, ev) {
      match ev
      case Tick(now) =>
        TidyLater(s.read.fifo, false, s.now + c.expire(false), now + c.expire(false), s.seen, s.seen);
        TidyLater(s.write.fifo, true, s.now + c.expire(true), now + c.expire(true), s.seen, s.seen);
      case Add(rq) => AddedInv(c, s, rq);
      case Grow(rq, rq') => GrownInv(c, s, rq, rq');
      case Absorb(rq, gone) =>
        AbsorbedInLane(s.Of(rq.dir), rq.dir, s.now + c.expire(rq.dir), s.seen, rq, gone);
      case Dispatch =>
        var r := Select(c, s);
        if r.Take? { MovedInv(c, s.(batching := r.batching, starved := r.starved), r.rq); }
    }
  }

  // ---- How long an expired write waits -----------------------------------

  function BatchLength(c: Config): nat {
    if c.fifoBatch < 1 then 1 else c.fifoBatch
  }

  /** Write `w` is queued and its deadline has passed. */
  predicate Late(s: State, w: nat) {
    HasId(s.write.fifo, w) && DeadlineOf(s.write.fifo, w) < s.now
  }

  /** Dispatches until a late write with `ahead` writes before it leaves, at
      most: the rest of the running batch, the read batches still allowed, one
      dispatch for the write itself, and a full round for every write ahead. */
  function Waits(c: Config, batching: nat, starved: nat, ahead: nat): nat {
    var rest := if batching < c.fifoBatch then c.fifoBatch - batching else 0;
    var batches := if starved < c.writesStarved then c.writesStarved - starved else 0;
    rest + batches * BatchLength(c) + 1 + ahead * Round(c)
  }

  /** One write batch and the read batches that may precede it. */
  function Round(c: Config): nat {
    (c.writesStarved + 1) * BatchLength(c)
  }

  function Patience(c: Config, s: State, w: nat): nat {
    Waits(c, s.batching, s.starved, Pos(s.write.fifo, w))
  }

  lemma FewerAhead(c: Config, batching: nat, starved: nat, k: nat, k': nat)
    requires k' <= k
    ensures Waits(c, batching, starved, k') <= Waits(c, batching, starved, k)
  {
    var r := Round(c);
    assert k * r == k' * r + (k - k') * r;
  }

  lemma BatchUsed(c: Config, batching: nat, starved: nat, k: nat)
    requires batching < c.fifoBatch
    ensures Waits(c, batching + 1, starved, k) < Waits(c, batching, starved, k)
  {
  }

  lemma ReadBatchUsed(c: Config, batching: nat, starved: nat, k: nat)
    requires starved < c.writesStarved
    ensures Waits(c, 1, starved + 1, k) < Waits(c, batching, starved, k)
  {
    var n, l := c.writesStarved - starved - 1, BatchLength(c);
    assert (n + 1) * l == n * l + l;
  }

  lemma WriteBatchUsed(c: Config, batching: nat, starved: nat, k: nat, k': nat)
    requires k' < k
    ensures Waits(c, 1, 0, k') < Waits(c, batching, starved, k)
  {
    FewerAhead(c, batching, starved, k, k' + 1);
    OneMore(k', Round(c));
    OneMore(c.writesStarved, BatchLength(c));
  }

  lemma OneMore(k: nat, r: nat)
    ensures (k + 1) * r == k * r + r
  {
  }

  /** What `Moved` does to a write that stays. */
  lemma MovedWrite(c: Config, s: State, rq: Rq, w: nat)
    requires Inv(c, s) && Late(s, w) && rq in s.Of(rq.dir).fifo && HasId(Moved(s, rq).write.fifo, w)
    ensures Late(Moved(s, rq), w)
    ensures Pos(Moved(s, rq).write.fifo, w) <= Pos(s.write.fifo, w)
    ensures rq.dir && rq == s.write.fifo[0] ==> Pos(Moved(s, rq).write.fifo, w) < Pos(s.write.fifo, w)
  {
    if rq.dir {
      WithoutTidy(s.write.fifo, rq, true, s.now + c.expire(true), s.seen);
      WithoutKeeps(s.write.fifo, rq, 0, w, rq, 0);
    }
  }

  lemma AbsorbedWaits(l: Lane, d: bool, top: int, seen: set<nat>, rq: Rq, gone: Rq, w: nat)
    requires LaneOk(l, d, top, seen) && HasId(l.fifo, w)
    requires rq in l.fifo && gone in l.fifo && rq.sector < gone.sector && rq.id != gone.id
    requires HasId(Absorbed(l, rq, gone).fifo, w)
    ensures Pos(Absorbed(l, rq, gone).fifo, w) <= Pos(l.fifo, w)
    ensures DeadlineOf(Absorbed(l, rq, gone).fifo, w) <= DeadlineOf(l.fifo, w)
  {
    HasEntry(l.fifo, d, top, seen, rq);
    HasEntry(l.fifo, d, top, seen, gone);
    if gone.expires < rq.expires {
      var rq' := rq.(nr := rq.nr + gone.nr, expires := gone.expires);
      var f := Without(l.fifo, rq);
      WithoutTidy(l.fifo, rq, d, top, seen);
      WithoutKeeps(l.fifo, rq, 0, gone.id, gone, 0);
      if w == rq.id {
        TakesPlaceOwn(f, gone, rq', d, top, seen);
        EarlierStandsBefore(l.fifo, d, top, seen, gone.id, rq.id);
      } else {
        WithoutKeeps(l.fifo, rq, 0, w, rq, 0);
        if w != gone.id {
          TakesPlaceOthers(f, gone, rq', d, top, seen, w);
        } else {
          TakesPlaceGone(f, gone, rq', d, top, seen);
        }
      }
    } else {
      var rq' := rq.(nr := rq.nr + gone.nr);
      var f := Replaced(l.fifo, rq, rq');
      NoOwnAlias(l.fifo, d, top, seen, rq);
      ReplacedTidy(l.fifo, rq, rq', d, top, seen);
      ReplacedKeeps(l.fifo, rq, rq', 0, w, gone, 0);
      WithoutKeeps(f, gone, 0, w, gone, 0);
      WithoutTidy(f, gone, d, top, seen);
    }
  }

  lemma {:induction false} TakesPlaceGone(f: seq<Rq>, where: Rq, rq: Rq, d: bool, top: int, seen: set<nat>)
    requires Tidy(f, d, top, seen) && where in f && !HasId(f, rq.id) && rq.id != where.id
    ensures !HasId(Without(Behind(f, where, rq), where), where.id)
  {
    if f[0] == where {
      assert Behind(f, where, rq)[1..] == [rq] + f[1..];
      assert ([rq] + f[1..])[1..] == f[1..];
      NotThere(f[1..], where);
    } else {
      HasEntry(f[1..], d, top, seen, where);
      TakesPlaceGone(f[1..], where, rq, d, top, seen);
    }
  }

  lemma GrownWrite(c: Config, s: State, rq: Rq, rq': Rq, w: nat)
    requires Inv(c, s) && Late(s, w) && Enabled(c, s, Grow(rq, rq')) && HasId(Grown(s, rq, rq').write.fifo, w)
    ensures Late(Grown(s, rq, rq'), w) && Pos(Grown(s, rq, rq').write.fifo, w) <= Pos(s.write.fifo, w)
  {
    if rq.dir {
      var f := s.write.fifo;
      match Alias(f, rq, rq'.sector)
      case None => ReplacedKeeps(f, rq, rq', 0, w, rq, 0);
      case Some(a) =>
        AliasIsEntry(f, rq, rq'.sector);
        HasEntry(f, true, s.now + c.expire(true), s.seen, a);
        ReplacedKeeps(Without(f, a), rq, rq', 0, w, rq, 0);
        MovedWrite(c, s, a, w);
    } else if Alias(s.read.fifo, rq, rq'.sector).Some? {
      AliasIsEntry(s.read.fifo, rq, rq'.sector);
      HasEntry(s.read.fifo, false, s.now + c.expire(false), s.seen, Alias(s.read.fifo, rq, rq'.sector).value);
    }
  }

  lemma AddedWrite(c: Config, s: State, rq: Rq, w: nat)
    requires Inv(c, s) && Late(s, w) && Enabled(c, s, Add(rq)) && HasId(Added(s, rq).write.fifo, w)
    ensures Late(Added(s, rq), w) && Pos(Added(s, rq).write.fifo, w) <= Pos(s.write.fifo, w)
  {
    var d, s1 := rq.dir, RoomFor(s, rq, rq.sector);
    var a := Alias(s.Of(d).fifo, rq, rq.sector);
    if a.Some? {
      AliasIsEntry(s.Of(d).fifo, rq, rq.sector);
      HasEntry(s.Of(d).fifo, d, s.now + c.expire(d), s.seen, a.value);
    }
    assert w != rq.id by {
      if w == rq.id { UnseenNotThere(s.write.fifo, true, s.now + c.expire(true), s.seen, w); }
    }
    if d { AppendKeeps(s1.write.fifo, rq, 0, w, rq, 0); }
    if a.Some? { MovedWrite(c, s, a.value, w); }
  }

  /** A dispatch that leaves `w` queued uses up patience. */
  lemma DispatchWrite(c: Config, s: State, w: nat)
    requires Inv(c, s) && Late(s, w) && HasId(Dispatched(c, s).write.fifo, w)
    ensures Late(Dispatched(c, s), w) && Patience(c, Dispatched(c, s), w) < Patience(c, s, w)
  {
    SelectIsQueued(c, s);
    var r, s' := Select(c, s), Dispatched(c, s);
    MovedWrite(c, s.(batching := r.batching, starved := r.starved), r.rq, w);
    var k, k' := Pos(s.write.fifo, w), Pos(s'.write.fifo, w);
    if (s.write.next.Some? || s.read.next.Some?) && s.batching < c.fifoBatch {
      BatchUsed(c, s.batching, s.starved, k);
      FewerAhead(c, s.batching + 1, s.starved, k, k');
    } else if s.read.fifo != [] && s.starved < c.writesStarved {
      ReadBatchUsed(c, s.batching, s.starved, k);
      FewerAhead(c, 1, s.starved + 1, k, k');
    } else {
      HeadIsLate(s, w);
      FindsHead(s, true);
      WriteBatchUsed(c, s.batching, s.starved, k, k');
    }
  }

  lemma HeadIsLate(s: State, w: nat)
    requires Late(s, w) && NotBefore(s.write.fifo[1..], s.write.fifo[0].expires)
    ensures s.write.fifo[0].expires < s.now
  {
    if s.write.fifo[0].id != w {
      HeadIsFirst(s.write.fifo[1..], s.write.fifo[0].expires, w);
    }
  }

  lemma FindsHead(s: State, d: bool)
    requires s.Of(d).fifo != [] && s.Of(d).fifo[0].expires < s.now
    ensures FindRequest(s, d) == s.Of(d).fifo[0]
  {
  }

  /** No other step costs patience. */
  lemma StepWrite(c: Config, s: State, ev: Event, w: nat)
    requires Inv(c, s) && Late(s, w) && HasId(Step(c, s, ev).write.fifo, w)
    ensures Late(Step(c, s, ev), w)
    ensures Patience(c, Step(c, s, ev), w) + (if ev.Dispatch? then 1 else 0) <= Patience(c, s, w)
  {
    if Enabled(c, s, ev) {
      var s' := Step(c, s, ev);
      match ev {
        case Tick(now) =>
        case Add(rq) => AddedWrite(c, s, rq, w);
        case Grow(rq, rq') => GrownWrite(c, s, rq, rq', w);
        case Absorb(rq, gone) =>
          if rq.dir { AbsorbedWaits(s.write, true, s.now + c.expire(true), s.seen, rq, gone, w); }
        case Dispatch => DispatchWrite(c, s, w);
      }
      if !ev.Dispatch? {
        FewerAhead(c, s.batching, s.starved, Pos(s.write.fifo, w), Pos(s'.write.fifo, w));
      }
    }
  }

  function Dispatches(evs: seq<Event>): nat {
    if evs == [] then 0 else (if evs[0].Dispatch? then 1 else 0) + Dispatches(evs[1..])
  }

  /** A request that is gone stays gone. */
  lemma GoneStaysGone(c: Config, s: State, ev: Event, w: nat)
    requires Inv(c, s) && w in s.seen && HasId(Step(c, s, ev).write.fifo, w)
    ensures HasId(s.write.fifo, w) && w in Step(c, s, ev).seen
  {
    if Enabled(c, s, ev) {
      var f := s.write.fifo;
      match ev {
        case Tick(now) =>
        case Add(rq) =>
          AliasInLane(c, s, rq, rq.sector);
          if rq.dir {
            AppendKeeps(RoomFor(s, rq, rq.sector).write.fifo, rq, 0, w, rq, 0);
            if Alias(f, rq, rq.sector).Some? { WithoutKeeps(f, Alias(f, rq, rq.sector).value, 0, w, rq, 0); }
          }
        case Grow(rq, rq') =>
          AliasInLane(c, s, rq, rq'.sector);
          if rq.dir && Alias(f, rq, rq'.sector).Some? {
            var a := Alias(f, rq, rq'.sector).value;
            ReplacedKeeps(Without(f, a), rq, rq', 0, w, rq, 0);
            WithoutKeeps(f, a, 0, w, rq, 0);
          } else {
            ReplacedKeeps(f, rq, rq', 0, w, rq, 0);
          }
        case Absorb(rq, gone) =>
          if rq.dir { NothingAppears(s.write, true, s.now + c.expire(true), s.seen, rq, gone, w); }
        case Dispatch =>
          SelectIsQueued(c, s);
          var r := Select(c, s);
          if r.Take? && r.rq.dir { WithoutKeeps(f, r.rq, 0, w, r.rq, 0); }
      }
    }
  }

  lemma AliasInLane(c: Config, s: State, rq: Rq, sector: nat)
    requires Inv(c, s)
    ensures var a := Alias(s.Of(rq.dir).fifo, rq, sector); a.Some? ==> a.value.dir == rq.dir
  {
    var f := s.Of(rq.dir).fifo;
    AliasIsEntry(f, rq, sector);
    if Alias(f, rq, sector).Some? {
      HasEntry(f, rq.dir, s.now + c.expire(rq.dir), s.seen, Alias(f, rq, sector).value);
    }
  }

  lemma NothingAppears(l: Lane, d: bool, top: int, seen: set<nat>, rq: Rq, gone: Rq, w: nat)
    requires LaneOk(l, d, top, seen) && rq in l.fifo && gone in l.fifo && rq.id != gone.id
    requires HasId(Absorbed(l, rq, gone).fifo, w)
    ensures HasId(l.fifo, w)
  {
    HasEntry(l.fifo, d, top, seen, rq);
    WithoutTidy(l.fifo, rq, d, top, seen);
    WithoutKeeps(l.fifo, rq, 0, w, gone, 0);
    var earlier := gone.expires < rq.expires;
    var rq' := rq.(nr := rq.nr + gone.nr, expires := if earlier then gone.expires else rq.expires);
    if earlier {
      TakesPlace(Without(l.fifo, rq), gone, rq', 0, w, rq, 0);
    } else {
      ReplacedKeeps(l.fifo, rq, rq', 0, w, rq, 0);
      WithoutKeeps(Replaced(l.fifo, rq, rq'), gone, 0, w, rq, 0);
    }
  }

  /** While a late write is queued, every dispatch has cost patience. */
  lemma {:induction false} RunWrite(c: Config, s: State, evs: seq<Event>, w: nat)
    requires Inv(c, s) && Late(s, w) && w in s.seen && HasId(Run(c, s, evs).write.fifo, w)
    ensures Dispatches(evs) < Patience(c, s, w)
    decreases |evs|
  {
    if evs != [] {
      var s1 := Step(c, s, evs[0]);
      StepKeepsInv(c, s, evs[0]);
      SeenGrows(c, s, evs[0]);
      StillQueued(c, s1, evs[1..], w);
      StepWrite(c, s, evs[0], w);
      RunWrite(c, s1, evs[1..], w);
    }
  }

  lemma SeenGrows(c: Config, s: State, ev: Event)
    ensures s.seen <= Step(c, s, ev).seen
  {
  }

  lemma {:induction false} StillQueued(c: Config, s: State, evs: seq<Event>, w: nat)
    requires Inv(c, s) && w in s.seen && HasId(Run(c, s, evs).write.fifo, w)
    ensures HasId(s.write.fifo, w)
    decreases |evs|
  {
    if evs != [] {
      StepKeepsInv(c, s, evs[0]);
      SeenGrows(c, s, evs[0]);
      StillQueued(c, Step(c, s, evs[0]), evs[1..], w);
      GoneStaysGone(c, s, evs[0], w);
    }
  }

  /** Every state a run reaches is in order. */
  lemma {:induction false} RunKeepsInv(c: Config, s: State, evs: seq<Event>)
    requires Inv(c, s)
    ensures Inv(c, Run(c, s, evs))
    decreases |evs|
  {
    if evs != [] {
      StepKeepsInv(c, s, evs[0]);
      RunKeepsInv(c, Step(c, s, evs[0]), evs[1..]);
    }
  }

  /** As long as no batch was counted, the bound is one more. */
  function Extra(c: Config, s: State): nat {
    if s.batching == 0 && c.fifoBatch > 0 then 1 else 0
  }

  /** The waiting bound.  From any state a run reaches, an expired write with `k`
      writes ahead of it is gone after
      (k + 1) * (writes_starved + 1) * max(1, fifo_batch) further dispatches,
      whatever else happens, and one more if nothing was dispatched yet. */
  lemma ExpiredWriteLeaves(c: Config, start: int, before: seq<Event>, evs: seq<Event>, w: nat)
    requires var s := Run(c, Init(start), before);
             Late(s, w) && Dispatches(evs) >= (Pos(s.write.fifo, w) + 1) * Round(c) + Extra(c, s)
    ensures !HasId(Run(c, Run(c, Init(start), before), evs).write.fifo, w)
  {
    var s := Run(c, Init(start), before);
    RunKeepsInv(c, Init(start), before);
    LateIsSeen(s.write.fifo, true, s.now + c.expire(true), s.seen, w);
    PatienceBound(c, s, w);
    if HasId(Run(c, s, evs).write.fifo, w) {
      RunWrite(c, s, evs, w);
    }
  }

  lemma PatienceBound(c: Config, s: State, w: nat)
    requires Inv(c, s)
    ensures Patience(c, s, w) <= (Pos(s.write.fifo, w) + 1) * Round(c) + Extra(c, s)
  {
    OneMore(Pos(s.write.fifo, w), Round(c));
    OneMore(c.writesStarved, BatchLength(c));
    FewerBatches(c, s.starved);
  }

  lemma FewerBatches(c: Config, starved: nat)
    ensures starved < c.writesStarved ==>
              (c.writesStarved - starved) * BatchLength(c) <= c.writesStarved * BatchLength(c)
  {
  }

  lemma LateIsSeen(f: seq<Rq>, d: bool, top: int, seen: set<nat>, w: nat)
    requires Tidy(f, d, top, seen) && HasId(f, w)
    ensures w in seen
  {
  }
}
