/**
 What the deadline scheduler sends.  It scans upwards from the last request it moved,
 over the requests that were queued at that time; a request that arrives later, or
 that a front merge moves, is passed over until the scan starts again.
 */
module DeadlineScan {
  import opened Options
  import opened SectorList
  import opened Deadline

  // ---- The scan ----------------------------------------------------------

  /** History: the direction and sector of the last request moved, and where the other
      requests of that direction were then. */
  datatype Scan = NotYet | From(dir: bool, sector: nat, place: map<nat, nat>)

  function Places(f: seq<Rq>): map<nat, nat> {
    if f == [] then map[] else Places(f[1..])[f[0].id := f[0].sector]
  }

  function ScanStep(c: Config, s: State, sc: Scan, ev: Event): Scan {
    if !Enabled(c, s, ev) then sc
    else match ev
      case Tick(_) => sc
      case Add(rq) =>
        var a := Alias(s.Of(rq.dir).fifo, rq, rq.sector);
        if a.Some? then From(rq.dir, a.value.sector, Places(s.Of(rq.dir).fifo)) else sc
      case Grow(rq, rq') =>
        var a := Alias(s.Of(rq.dir).fifo, rq, rq'.sector);
        if a.Some? then From(rq.dir, a.value.sector, Places(Without(s.Of(rq.dir).fifo, rq))) else sc
      case Absorb(rq, gone) =>
        if s.Of(rq.dir).next == Some(gone) then From(rq.dir, gone.sector, Places(s.Of(rq.dir).fifo)) else sc
      case Dispatch =>
        var r := Select(c, s);
        if r.Take? then From(r.rq.dir, r.rq.sector, Places(s.Of(r.rq.dir).fifo)) else sc
  }

  function RunScan(c: Config, s: State, sc: Scan, evs: seq<Event>): Scan
    decreases |evs|
  {
    if evs == [] then sc else RunScan(c, Step(c, s, evs[0]), ScanStep(c, s, sc, evs[0]), evs[1..])
  }

  /** The scan knows `x` and has it ahead. */
  predicate Ahead(place: map<nat, nat>, from: nat, x: Rq) {
    x.id in place && from < place[x.id]
  }

  /** `r` is the first request the scan has ahead. */
  ghost predicate IsScanned(f: seq<Rq>, place: map<nat, nat>, from: nat, r: Option<Rq>) {
    match r
    case None => forall x :: x in f ==> !Ahead(place, from, x)
    case Some(a) => a in f && Ahead(place, from, a) && forall x :: x in f && Ahead(place, from, x) ==> place[a.id] <= place[x.id]
  }

  /** The cached requests are where the scan stands. */
  ghost predicate ScanOk(s: State, sc: Scan) {
    match sc
    case NotYet => s.read.next.None? && s.write.next.None?
    case From(d, from, place) =>
      s.Of(!d).next.None? && IsScanned(s.Of(d).fifo, place, from, s.Of(d).next) && place.Keys <= s.seen
  }

  // ---- Members of lists --------------------------------------------------

  lemma {:induction false} InWithout(f: seq<Rq>, rq: Rq, x: Rq)
    ensures x in Without(f, rq) <==> x in f && x != rq
  {
    if f != [] { InWithout(f[1..], rq, x); }
  }

  lemma {:induction false} InReplaced(f: seq<Rq>, was: Rq, now: Rq, x: Rq)
    ensures x in Replaced(f, was, now) <==> (x in f && x != was) || (x == now && was in f)
  {
    if f != [] { InReplaced(f[1..], was, now, x); }
  }

  lemma {:induction false} InBehind(f: seq<Rq>, where: Rq, rq: Rq, x: Rq)
    ensures x in f ==> x in Behind(f, where, rq)
    ensures x in Behind(f, where, rq) ==> x in f || x == rq
  {
    if f != [] {
      if f[0] == where {
        assert Behind(f, where, rq) == [where, rq] + f[1..];
      } else {
        InBehind(f[1..], where, rq, x);
      }
    }
  }

  lemma {:induction false} PlaceIs(f: seq<Rq>, d: bool, top: int, seen: set<nat>, x: Rq)
    requires Tidy(f, d, top, seen) && x in f
    ensures x.id in Places(f) && Places(f)[x.id] == x.sector
  {
    if f[0] != x {
      PlaceIs(f[1..], d, top, seen, x);
      HasEntry(f[1..], d, top, seen, x);
    }
  }

  lemma {:induction false} PlacedIsThere(f: seq<Rq>, w: nat)
    ensures w in Places(f) ==> HasId(f, w)
  {
    if f != [] { PlacedIsThere(f[1..], w); }
  }

  lemma {:induction false} PlacesSeen(f: seq<Rq>, d: bool, top: int, seen: set<nat>)
    requires Tidy(f, d, top, seen)
    ensures Places(f).Keys <= seen
  {
    if f != [] { PlacesSeen(f[1..], d, top, seen); }
  }

  // ---- Every step keeps the cache on the scan ----------------------------

  /** After a search from `from` over `f`, the scan begins anew. */
  lemma {:induction false} Scanned(f: seq<Rq>, from: nat, d: bool, top: int, seen: set<nat>)
    requires Tidy(f, d, top, seen)
    ensures IsScanned(f, Places(f), from, Search(f, from + 1)) && Places(f).Keys <= seen
  {
    PlacesSeen(f, d, top, seen);
    SearchIsRight(f, from + 1);
    var t := set x | x in f;
    forall x | x in f ensures x in t && x.id in Places(f) && Places(f)[x.id] == x.sector {
      PlaceIs(f, d, top, seen, x);
    }
  }

  /** Fewer requests, the first one ahead still among them. */
  lemma {:induction false} ScannedFewer(f: seq<Rq>, f': seq<Rq>, place: map<nat, nat>, from: nat, r: Option<Rq>)
    requires IsScanned(f, place, from, r) && (forall x :: x in f' ==> x in f) && (r.Some? ==> r.value in f')
    ensures IsScanned(f', place, from, r)
  {
  }

  lemma {:induction false} MovedScan(c: Config, s: State, rq: Rq)
    requires Inv(c, s)
    ensures ScanOk(Moved(s, rq), From(rq.dir, rq.sector, Places(s.Of(rq.dir).fifo)))
  {
    var f := s.Of(rq.dir).fifo;
    Scanned(f, rq.sector, rq.dir, s.now + c.expire(rq.dir), s.seen);
    var r := Search(f, rq.sector + 1);
    SearchEntry(f, rq.sector + 1);
    forall x ensures x in Without(f, rq) <==> x in f && x != rq { InWithout(f, rq, x); }
    ScannedFewer(f, Without(f, rq), Places(f), rq.sector, r);
  }

  lemma {:induction false} AddedScan(c: Config, s: State, sc: Scan, rq: Rq)
    requires Inv(c, s) && ScanOk(s, sc) && Enabled(c, s, Add(rq))
    ensures ScanOk(Added(s, rq), ScanStep(c, s, sc, Add(rq)))
  {
    var a := Alias(s.Of(rq.dir).fifo, rq, rq.sector);
    var sc1 := ScanStep(c, s, sc, Add(rq));
    if a.Some? {
      AliasInLane(c, s, rq, rq.sector);
      AliasIsEntry(s.Of(rq.dir).fifo, rq, rq.sector);
      MovedScan(c, s, a.value);
    }
    AppendScan(RoomFor(s, rq, rq.sector), sc1, rq);
  }

  lemma {:induction false} AppendScan(s: State, sc: Scan, rq: Rq)
    requires ScanOk(s, sc) && rq.id !in s.seen
    ensures var l := s.Of(rq.dir); ScanOk(s.With(rq.dir, l.(fifo := l.fifo + [rq])).(seen := s.seen + {rq.id}), sc)
  {
  }

  /** A request that changes where it stands keeps its number. */
  lemma {:induction false} ReplacedScan(f: seq<Rq>, place: map<nat, nat>, from: nat, r: Option<Rq>, was: Rq, now: Rq)
    requires IsScanned(f, place, from, r) && was in f && now.id == was.id
    ensures IsScanned(Replaced(f, was, now), place, from, if r == Some(was) then Some(now) else r)
  {
    forall x ensures x in Replaced(f, was, now) <==> (x in f && x != was) || (x == now && was in f) {
      InReplaced(f, was, now, x);
    }
  }

  lemma {:induction false} GrownScan(c: Config, s: State, sc: Scan, rq: Rq, rq': Rq)
    requires Inv(c, s) && ScanOk(s, sc) && Enabled(c, s, Grow(rq, rq'))
    ensures ScanOk(Grown(s, rq, rq'), ScanStep(c, s, sc, Grow(rq, rq')))
  {
    var d, f := rq.dir, s.Of(rq.dir).fifo;
    var a := Alias(f, rq, rq'.sector);
    if a.None? {
      if sc.From? && sc.dir == d {
        ReplacedScan(f, sc.place, sc.sector, s.Of(d).next, rq, rq');
      }
    } else {
      AliasInLane(c, s, rq, rq'.sector);
      AliasIsEntry(f, rq, rq'.sector);
      GrownAlias(c, s, rq, rq', a.value);
    }
  }

  /** A front merge onto a sector that is taken: the scan does not see the request that
      is out of the list meanwhile. */
  lemma {:induction false} GrownAlias(c: Config, s: State, rq: Rq, rq': Rq, a: Rq)
    requires Inv(c, s) && Enabled(c, s, Grow(rq, rq')) && Alias(s.Of(rq.dir).fifo, rq, rq'.sector) == Some(a)
    requires a in s.Of(rq.dir).fifo && a.dir == rq.dir && a.id != rq.id
    ensures ScanOk(Grown(s, rq, rq'), From(rq.dir, a.sector, Places(Without(s.Of(rq.dir).fifo, rq))))
  {
    var d, f := rq.dir, s.Of(rq.dir).fifo;
    var top := s.now + c.expire(d);
    var g := Without(f, rq);
    var place, next := Places(g), Search(g, a.sector + 1);
    WithoutTidy(f, rq, d, top, s.seen);
    Scanned(g, a.sector, d, top, s.seen);
    PlacedIsThere(g, rq.id);
    SearchEntry(g, a.sector + 1);
    var h := Replaced(Without(f, a), rq, rq');
    forall x ensures x in h <==> (x in g && x != a) || x == rq' {
      AliasMembers(f, a, rq, rq', x);
    }
    assert a in g && place[a.id] == a.sector by {
      InWithout(f, rq, a);
      PlaceIs(g, d, top, s.seen, a);
    }
    assert next != Some(rq) by { InWithout(f, rq, rq); }
    ScannedPast(g, h, place, next, a, rq');
  }

  lemma {:induction false} AliasMembers(f: seq<Rq>, a: Rq, rq: Rq, rq': Rq, x: Rq)
    requires a in f && rq in f && a != rq
    ensures x in Replaced(Without(f, a), rq, rq') <==> (x in Without(f, rq) && x != a) || x == rq'
  {
    InReplaced(Without(f, a), rq, rq', x);
    InWithout(f, a, x);
    InWithout(f, a, rq);
    InWithout(f, rq, x);
  }

  /** The scan starts at `a`, which leaves, and does not know `rq'`. */
  lemma {:induction false} ScannedPast(g: seq<Rq>, h: seq<Rq>, place: map<nat, nat>, next: Option<Rq>, a: Rq, rq': Rq)
    requires IsScanned(g, place, a.sector, next) && a.id in place && place[a.id] == a.sector && rq'.id !in place
    requires forall x :: x in h <==> (x in g && x != a) || x == rq'
    ensures IsScanned(h, place, a.sector, next)
  {
  }

  /** The request that takes another one over. */
  function Joint(rq: Rq, gone: Rq): Rq {
    rq.(nr := rq.nr + gone.nr, expires := if gone.expires < rq.expires then gone.expires else rq.expires)
  }

  lemma {:induction false} AbsorbedMembers(l: Lane, rq: Rq, gone: Rq, x: Rq)
    requires rq in l.fifo && gone in l.fifo && rq != gone
    ensures x in Absorbed(l, rq, gone).fifo ==> x == Joint(rq, gone) || (x in l.fifo && x != rq && x != gone)
    ensures x in l.fifo && x != rq && x != gone ==> x in Absorbed(l, rq, gone).fifo
  {
    var f, rq' := l.fifo, Joint(rq, gone);
    if gone.expires < rq.expires {
      var g := Behind(Without(f, rq), gone, rq');
      assert Absorbed(l, rq, gone).fifo == Without(g, gone);
      InWithout(f, rq, x);
      InBehind(Without(f, rq), gone, rq', x);
      InWithout(g, gone, x);
    } else {
      var g := Replaced(f, rq, rq');
      assert Absorbed(l, rq, gone).fifo == Without(g, gone);
      InReplaced(f, rq, rq', x);
      InWithout(g, gone, x);
    }
  }

  lemma {:induction false} AbsorberStays(l: Lane, rq: Rq, gone: Rq)
    requires rq in l.fifo && gone in l.fifo && rq.id != gone.id
    ensures Joint(rq, gone) in Absorbed(l, rq, gone).fifo
  {
    var f, rq' := l.fifo, Joint(rq, gone);
    if gone.expires < rq.expires {
      InWithout(f, rq, gone);
      BehindHas(Without(f, rq), gone, rq');
      InWithout(Behind(Without(f, rq), gone, rq'), gone, rq');
    } else {
      InReplaced(f, rq, rq', rq');
      InWithout(Replaced(f, rq, rq'), gone, rq');
    }
  }

  lemma {:induction false} BehindHas(f: seq<Rq>, where: Rq, rq: Rq)
    requires where in f
    ensures rq in Behind(f, where, rq)
  {
    if f[0] != where { BehindHas(f[1..], where, rq); }
  }

  /** A merged request is due when the earlier of the two was, and stands where that one
      stood. */
  lemma {:induction false} EarlierDeadlineTaken(l: Lane, d: bool, top: int, seen: set<nat>, rq: Rq, gone: Rq)
    requires LaneOk(l, d, top, seen) && rq in l.fifo && gone in l.fifo && rq.sector < gone.sector && rq.id != gone.id
    ensures var f := Absorbed(l, rq, gone).fifo;
            && !HasId(f, gone.id) && HasId(f, rq.id)
            && DeadlineOf(f, rq.id) == (if gone.expires < rq.expires then gone.expires else rq.expires)
            && (gone.expires < rq.expires ==> Pos(f, rq.id) == Pos(Without(l.fifo, rq), gone.id))
  {
    var l', rq' := Absorbed(l, rq, gone), Joint(rq, gone);
    AbsorbedInLane(l, d, top, seen, rq, gone);
    AbsorberStays(l, rq, gone);
    HasEntry(l'.fifo, d, top, seen, rq');
    if gone.expires < rq.expires {
      InWithout(l.fifo, rq, gone);
      WithoutTidy(l.fifo, rq, d, top, seen);
      TakesPlaceGone(Without(l.fifo, rq), gone, rq', d, top, seen);
      StandsWhere(Without(l.fifo, rq), gone, rq', d, top, seen);
    } else {
      ReplacedIds(l, d, top, seen, rq, gone);
    }
  }

  lemma {:induction false} StandsWhere(f: seq<Rq>, where: Rq, rq: Rq, d: bool, top: int, seen: set<nat>)
    requires Tidy(f, d, top, seen) && where in f && !HasId(f, rq.id)
    ensures Pos(Without(Behind(f, where, rq), where), rq.id) == Pos(f, where.id)
  {
    if f[0] == where {
      assert Behind(f, where, rq)[1..] == [rq] + f[1..];
      assert Without([rq] + f[1..], where)[0] == rq;
    } else {
      HasEntry(f[1..], d, top, seen, where);
      StandsWhere(f[1..], where, rq, d, top, seen);
      assert Behind(f, where, rq) == [f[0]] + Behind(f[1..], where, rq);
    }
  }

  lemma {:induction false} ReplacedIds(l: Lane, d: bool, top: int, seen: set<nat>, rq: Rq, gone: Rq)
    requires LaneOk(l, d, top, seen) && rq in l.fifo && gone in l.fifo && rq.id != gone.id && gone.expires >= rq.expires
    ensures !HasId(Absorbed(l, rq, gone).fifo, gone.id)
  {
    var f := Replaced(l.fifo, rq, Joint(rq, gone));
    NoOwnAlias(l.fifo, d, top, seen, rq);
    ReplacedTidy(l.fifo, rq, Joint(rq, gone), d, top, seen);
    InReplaced(l.fifo, rq, Joint(rq, gone), gone);
    WithoutTidy(f, gone, d, top, seen);
  }

  lemma {:induction false} AbsorbedScan(c: Config, s: State, sc: Scan, rq: Rq, gone: Rq)
    requires Inv(c, s) && ScanOk(s, sc) && Enabled(c, s, Absorb(rq, gone))
    ensures ScanOk(Step(c, s, Absorb(rq, gone)), ScanStep(c, s, sc, Absorb(rq, gone)))
  {
    var d, l := rq.dir, s.Of(rq.dir);
    if sc.From? && sc.dir == d {
      if l.next == Some(gone) {
        AbsorbsNext(c, s, rq, gone);
      } else {
        AbsorbsOther(l, sc.place, sc.sector, rq, gone);
      }
    }
  }

  /** The cached request is absorbed: the scan goes on from where it was. */
  lemma {:induction false} AbsorbsNext(c: Config, s: State, rq: Rq, gone: Rq)
    requires Inv(c, s) && Enabled(c, s, Absorb(rq, gone)) && s.Of(rq.dir).next == Some(gone)
    ensures var f, l' := s.Of(rq.dir).fifo, Absorbed(s.Of(rq.dir), rq, gone);
            IsScanned(l'.fifo, Places(f), gone.sector, l'.next) && Places(f).Keys <= s.seen
  {
    var d, f := rq.dir, s.Of(rq.dir).fifo;
    var l', place := Absorbed(s.Of(d), rq, gone), Places(f);
    var rq' := Joint(rq, gone);
    Scanned(f, gone.sector, d, s.now + c.expire(d), s.seen);
    SearchEntry(f, gone.sector + 1);
    PlaceIs(f, d, s.now + c.expire(d), s.seen, rq);
    forall x ensures (x in l'.fifo ==> x == rq' || (x in f && x != rq && x != gone))
             ensures x in f && x != rq && x != gone ==> x in l'.fifo {
      AbsorbedMembers(s.Of(d), rq, gone, x);
    }
  }

  lemma {:induction false} AbsorbsOther(l: Lane, place: map<nat, nat>, from: nat, rq: Rq, gone: Rq)
    requires IsScanned(l.fifo, place, from, l.next) && l.next != Some(gone)
    requires rq in l.fifo && gone in l.fifo && rq.id != gone.id
    ensures IsScanned(Absorbed(l, rq, gone).fifo, place, from, Absorbed(l, rq, gone).next)
  {
    var l' := Absorbed(l, rq, gone);
    var rq' := Joint(rq, gone);
    AbsorberStays(l, rq, gone);
    forall x ensures (x in l'.fifo ==> x == rq' || (x in l.fifo && x != rq && x != gone))
             ensures x in l.fifo && x != rq && x != gone ==> x in l'.fifo {
      AbsorbedMembers(l, rq, gone, x);
    }
  }

  lemma {:induction false} StepKeepsScan(c: Config, s: State, sc: Scan, ev: Event)
    requires Inv(c, s) && ScanOk(s, sc)
    ensures ScanOk(Step(c, s, ev), ScanStep(c, s, sc, ev))
  {
    if Enabled(c, s, ev) {
      match ev
      case Tick(now) =>
      case Add(rq) => AddedScan(c, s, sc, rq);
      case Grow(rq, rq') => GrownScan(c, s, sc, rq, rq');
      case Absorb(rq, gone) => AbsorbedScan(c, s, sc, rq, gone);
      case Dispatch =>
        var r := Select(c, s);
        if r.Take? { MovedScan(c, s.(batching := r.batching, starved := r.starved), r.rq); }
    }
  }

  /** In every run the cached request is the one the scan has ahead. */
  lemma {:induction false} RunKeepsScan(c: Config, s: State, sc: Scan, evs: seq<Event>)
    requires Inv(c, s) && ScanOk(s, sc)
    ensures Inv(c, Run(c, s, evs)) && ScanOk(Run(c, s, evs), RunScan(c, s, sc, evs))
    decreases |evs|
  {
    if evs != [] {
      StepKeepsInv(c, s, evs[0]);
      StepKeepsScan(c, s, sc, evs[0]);
      RunKeepsScan(c, Step(c, s, evs[0]), ScanStep(c, s, sc, evs[0]), evs[1..]);
    }
  }

  // ---- What is sent ------------------------------------------------------

  /** The scan is in direction `d` and has something ahead. */
  ghost predicate GoesOn(s: State, sc: Scan, d: bool) {
    sc.From? && sc.dir == d && exists x :: x in s.Of(d).fifo && Ahead(sc.place, sc.sector, x)
  }

  ghost predicate Continues(s: State, sc: Scan, d: bool, rq: Rq) {
    sc.From? && sc.dir == d && IsScanned(s.Of(d).fifo, sc.place, sc.sector, Some(rq))
  }

  /** It is the writes' turn: no reads are queued, or they passed the writes often
      enough. */
  predicate WritesTurn(c: Config, s: State) {
    s.write.fifo != [] && (s.read.fifo == [] || s.starved >= c.writesStarved)
  }

  /** What a dispatch sends.  A batch with something ahead goes on.  A new batch starts
      with the oldest request of its direction if that has expired or the scan has
      nothing ahead there, and otherwise continues the scan. */
  ghost predicate Sends(c: Config, s: State, sc: Scan, rq: Rq) {
    if (GoesOn(s, sc, true) || GoesOn(s, sc, false)) && s.batching < c.fifoBatch then
      Continues(s, sc, sc.dir, rq)
    else
      var d := WritesTurn(c, s);
      var f := s.Of(d).fifo;
      f != [] && if f[0].expires < s.now || !GoesOn(s, sc, d) then rq == f[0] else Continues(s, sc, d, rq)
  }

  /** The counters afterwards: a new batch starts at one, and reads that pass queued
      writes are counted until the writes' turn. */
  ghost predicate Counts(c: Config, s: State, sc: Scan, batching: nat, starved: nat) {
    if (GoesOn(s, sc, true) || GoesOn(s, sc, false)) && s.batching < c.fifoBatch then
      batching == s.batching + 1 && starved == s.starved
    else
      batching == 1 && starved == (if WritesTurn(c, s) then 0 else if s.write.fifo != [] then s.starved + 1 else s.starved)
  }

  lemma GoesOnIff(s: State, sc: Scan, d: bool)
    requires ScanOk(s, sc)
    ensures GoesOn(s, sc, d) <==> s.Of(d).next.Some?
    ensures s.Of(d).next.Some? ==> Continues(s, sc, d, s.Of(d).next.value)
  {
  }

  lemma SelectSends(c: Config, s: State, sc: Scan)
    requires Inv(c, s) && ScanOk(s, sc)
    ensures var r := Select(c, s);
            && (r.Nothing? <==> s.read.fifo == [] && s.write.fifo == [])
            && (r.Take? ==> Sends(c, s, sc, r.rq) && Counts(c, s, sc, r.batching, r.starved))
  {
    SelectIsQueued(c, s);
    GoesOnIff(s, sc, true);
    GoesOnIff(s, sc, false);
  }

  /** From any state a run reaches. */
  lemma RunSends(c: Config, start: int, evs: seq<Event>)
    ensures var s, sc := Run(c, Init(start), evs), RunScan(c, Init(start), NotYet, evs);
            (s.read.fifo != [] || s.write.fifo != []) ==>
              exists rq: Rq :: && rq in s.Of(rq.dir).fifo && Sends(c, s, sc, rq)
                           && Step(c, s, Dispatch).Of(rq.dir).fifo == Without(s.Of(rq.dir).fifo, rq)
                           && Counts(c, s, sc, Step(c, s, Dispatch).batching, Step(c, s, Dispatch).starved)
  {
    RunKeepsScan(c, Init(start), NotYet, evs);
    var s, sc := Run(c, Init(start), evs), RunScan(c, Init(start), NotYet, evs);
    SelectSends(c, s, sc);
    SelectIsQueued(c, s);
    if s.read.fifo != [] || s.write.fifo != [] {
      var rq := Select(c, s).rq;
      assert rq in s.Of(rq.dir).fifo && Sends(c, s, sc, rq);
    }
  }

  // ---- When that is the next request in sector order ---------------------

  /** A request the scan has not seen where it is now: it arrived, or a front merge moved
      it, since. */
  predicate Newcomer(place: map<nat, nat>, x: Rq) {
    x.id !in place || place[x.id] != x.sector
  }

  /** A scan continues with the lowest queued request above the last one moved if and
      only if that one is still above and no newcomer lies between the two.  Front merges
      move a request down, if at all. */
  lemma NewcomersDecide(f: seq<Rq>, place: map<nat, nat>, from: nat, rq: Rq)
    requires IsScanned(f, place, from, Some(rq)) && rq.sector <= place[rq.id]
    ensures IsAtOrAbove((set x | x in f), from + 1, Some(rq)) <==>
            from < rq.sector && forall y :: y in f && Newcomer(place, y) && from < y.sector ==> rq.sector <= y.sector
  {
    var t := set x | x in f;
    assert rq in t;
    if from < rq.sector && forall y :: y in f && Newcomer(place, y) && from < y.sector ==> rq.sector <= y.sector {
      forall x | x in t && from + 1 <= x.sector ensures rq.sector <= x.sector {
        if !Newcomer(place, x) { assert Ahead(place, from, x); }
      }
    } else if from < rq.sector {
      var y :| y in f && Newcomer(place, y) && from < y.sector && rq.sector > y.sector;
      assert y in t;
    }
  }

  /** If nobody came or moved, the sector order decides alone. */
  lemma ScanIsSectorOrder(f: seq<Rq>, place: map<nat, nat>, from: nat, r: Option<Rq>)
    requires IsScanned(f, place, from, r) && forall y :: y in f ==> !Newcomer(place, y)
    ensures IsAtOrAbove((set x | x in f), from + 1, r)
  {
    var t := set x | x in f;
    if r.Some? {
      NewcomersDecide(f, place, from, r.value);
    } else {
      forall x | x in t ensures x.sector < from + 1 {
        assert !Ahead(place, from, x);
      }
    }
  }

  // ---- A newcomer that is passed over ------------------------------------

  function ReadAt(c: Config, id: nat, sector: nat): Rq {
    Rq(id, false, sector, 1, c.expire(false))
  }

  lemma {:induction false} RunTwo(c: Config, s: State, a: Event, b: Event)
    ensures Run(c, s, [a, b]) == Step(c, Step(c, s, a), b)
  {
    var s1 := Step(c, s, a);
    assert [a, b][1..] == [b] && [b][1..] == [];
    assert Run(c, s, [a, b]) == Run(c, s1, [b]) == Run(c, Step(c, s1, b), []);
  }

  lemma {:induction false} NoAlias(f: seq<Rq>, rq: Rq, s: nat)
    requires forall x :: x in f ==> x.sector != s
    ensures Alias(f, rq, s).None?
  {
    if f != [] { NoAlias(f[1..], rq, s); }
  }

  /** A read that arrives where nobody is. */
  lemma {:induction false} Arrives(c: Config, s: State, id: nat, sector: nat)
    requires s.now == 0 && id !in s.seen && forall x :: x in s.read.fifo ==> x.sector != sector
    ensures Step(c, s, Add(ReadAt(c, id, sector)))
         == s.(read := s.read.(fifo := s.read.fifo + [ReadAt(c, id, sector)]), seen := s.seen + {id})
  {
    NoAlias(s.read.fifo, ReadAt(c, id, sector), sector);
  }

  /** Reads at sectors 10, 90 and 50 arrive, and the first is sent. */
  function Before(c: Config): seq<seq<Event>> {
    [[Add(ReadAt(c, 0, 10)), Add(ReadAt(c, 1, 90))], [Add(ReadAt(c, 2, 50)), Dispatch]]
  }

  lemma {:induction false} TwoArrive(c: Config)
    ensures Run(c, Init(0), Before(c)[0])
         == State(Lane([ReadAt(c, 0, 10), ReadAt(c, 1, 90)], None), Lane([], None), 0, 0, 0, {0, 1})
  {
    RunTwo(c, Init(0), Add(ReadAt(c, 0, 10)), Add(ReadAt(c, 1, 90)));
    Arrives(c, Init(0), 0, 10);
    Arrives(c, Step(c, Init(0), Add(ReadAt(c, 0, 10))), 1, 90);
  }

  lemma {:induction false} ThirdArrives(c: Config, s: State)
    requires s == State(Lane([ReadAt(c, 0, 10), ReadAt(c, 1, 90)], None), Lane([], None), 0, 0, 0, {0, 1})
    ensures var s' := Run(c, s, Before(c)[1]);
            && s'.read == Lane([ReadAt(c, 1, 90), ReadAt(c, 2, 50)], Some(ReadAt(c, 2, 50)))
            && s'.write == Lane([], None) && s'.now == 0 && s'.seen == {0, 1, 2}
  {
    RunTwo(c, s, Add(ReadAt(c, 2, 50)), Dispatch);
    Arrives(c, s, 2, 50);
    var s1 := Step(c, s, Add(ReadAt(c, 2, 50)));
    var g := [ReadAt(c, 0, 10), ReadAt(c, 1, 90), ReadAt(c, 2, 50)];
    assert s1.read == Lane(g, None);
    assert g[1..] == [ReadAt(c, 1, 90), ReadAt(c, 2, 50)] && g[1..][1..] == [ReadAt(c, 2, 50)] && g[1..][1..][1..] == [];
    assert Search(g[1..][1..], 11) == Some(ReadAt(c, 2, 50)) && Search(g[1..], 11) == Some(ReadAt(c, 2, 50));
    assert Search(g, 11) == Some(ReadAt(c, 2, 50));
    assert Without(g[1..][1..], g[0]) == [ReadAt(c, 2, 50)] && Without(g[1..], g[0]) == g[1..];
  }

  /** Whatever the tunables: a read that then arrives at sector 20 waits while the one at
      sector 50 is sent. */
  lemma {:induction false} NewcomerPassedOver(c: Config)
    ensures var s := Run(c, Run(c, Init(0), Before(c)[0]), Before(c)[1]);
            Run(c, s, [Add(ReadAt(c, 3, 20)), Dispatch]).read.fifo == [ReadAt(c, 1, 90), ReadAt(c, 3, 20)]
  {
    TwoArrive(c);
    ThirdArrives(c, Run(c, Init(0), Before(c)[0]));
    var s := Run(c, Run(c, Init(0), Before(c)[0]), Before(c)[1]);
    Arrives(c, s, 3, 20);
    var s1 := Step(c, s, Add(ReadAt(c, 3, 20)));
    var g := [ReadAt(c, 1, 90), ReadAt(c, 2, 50), ReadAt(c, 3, 20)];
    assert s1.read == Lane(g, Some(ReadAt(c, 2, 50)));
    assert g[1..] == [ReadAt(c, 2, 50), ReadAt(c, 3, 20)] && g[1..][1..] == [ReadAt(c, 3, 20)] && g[1..][1..][1..] == [];
    assert Without(g[1..][1..], ReadAt(c, 2, 50)) == [ReadAt(c, 3, 20)];
    assert Without(g[1..], ReadAt(c, 2, 50)) == [ReadAt(c, 3, 20)];
    RunTwo(c, s, Add(ReadAt(c, 3, 20)), Dispatch);
  }
}
