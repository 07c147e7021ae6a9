/** Appenders and flushers running side by side, one shared access at a time (internal/broker/partition.go). */
module Interleaving {
  import opened RecordCodec

  // An appender between taking a message object from the pool and queueing it.
  datatype Appender = Appender(id: nat, numbered: bool)

  // A flusher that took the batch `msgs` (objects) and has written the first `done` of them.
  datatype Flusher = Flusher(msgs: seq<nat>, done: nat)

  datatype Lock = Free | HeldBy(flusher: nat)

  // Where the record with a given offset is.
  datatype Place = InFlight(a: nat) | InBatch(i: int) | Taken(f: nat, j: int) | InStore(k: int)

  datatype World = World(
    heap: map<nat, Record>,          // message objects, blank until first filled
    pool: set<nat>,                  // recycled objects
    appenders: map<nat, Appender>,
    batch: seq<nat>,
    flushers: map<nat, Flusher>,
    lock: Lock,
    stored: seq<Record>,
    hwm: int,                        // the high watermark
    nextOffset: nat,
    // Bookkeeping no step looks at: by offset, the record as filled in and the place it is now.
    original: seq<Record>,
    places: seq<Place>)

  const BLANK := Record(0, 0, [], [])

  const START := World(map[], {}, map[], [], map[], Free, [], 0, 0, [], [])

  datatype Step =
    | Get(a: nat, id: nat)
    | Number(a: nat, timestamp: int64, key: seq<byte>, value: seq<byte>)
    | Enqueue(a: nat)
    | Take(f: nat)
    | Acquire(f: nat)
    | Write(f: nat)
    | Release(f: nat)

  function Content(w: World, id: nat): Record {
    if id in w.heap then w.heap[id] else BLANK
  }

  // There is a record at p, still waiting or stored.
  predicate Real(w: World, p: Place) {
    match p
    case InFlight(a) => a in w.appenders && w.appenders[a].numbered
    case InBatch(i) => 0 <= i < |w.batch|
    case Taken(f, j) => f in w.flushers && w.flushers[f].done <= j < |w.flushers[f].msgs|
    case InStore(k) => 0 <= k < |w.stored|
  }

  // The message object at a place that is not the store.
  function ObjectAt(w: World, p: Place): nat
    requires Real(w, p) && !p.InStore?
  {
    match p
    case InFlight(a) => w.appenders[a].id
    case InBatch(i) => w.batch[i]
    case Taken(f, j) => w.flushers[f].msgs[j]
  }

  function RecordAt(w: World, p: Place): Record
    requires Real(w, p)
  {
    if p.InStore? then w.stored[p.k] else Content(w, ObjectAt(w, p))
  }

  // An object no one has, or one nobody has seen yet.
  predicate Unused(w: World, id: nat) {
    id in w.pool || (id !in w.heap && forall a <- w.appenders :: w.appenders[a].id != id)
  }

  predicate Enabled(w: World, s: Step) {
    match s
    case Get(a, id) => a !in w.appenders && Unused(w, id)
    case Number(a, _, _, _) => a in w.appenders && !w.appenders[a].numbered && w.nextOffset < TWO_63 - 1
    case Enqueue(a) => a in w.appenders && w.appenders[a].numbered
    case Take(f) => f !in w.flushers && w.batch != []
    case Acquire(f) => f in w.flushers && w.lock == Free
    case Write(f) => w.lock == HeldBy(f) && f in w.flushers && w.flushers[f].done < |w.flushers[f].msgs|
    case Release(f) => w.lock == HeldBy(f) && f in w.flushers && w.flushers[f].done == |w.flushers[f].msgs|
  }

  // Taking the batch moves its records.
  function Moved(p: Place, f: nat): Place {
    if p.InBatch? then Taken(f, p.i) else p
  }

  function Placed(places: seq<Place>, offset: int, p: Place): (r: seq<Place>)
    ensures |r| == |places|
  {
    if 0 <= offset < |places| then places[offset := p] else places
  }

  function Next(w: World, s: Step): World
    requires Enabled(w, s)
  {
    match s
    case Get(a, id) =>
      w.(pool := w.pool - {id}, appenders := w.appenders[a := Appender(id, false)])
    case Number(a, timestamp, key, value) =>
      var id := w.appenders[a].id;
      var m := Record(w.nextOffset, timestamp, key, value);
      w.(heap := w.heap[id := m], nextOffset := w.nextOffset + 1,
         appenders := w.appenders[a := Appender(id, true)],
         original := w.original + [m], places := w.places + [InFlight(a)])
    case Enqueue(a) =>
      var id := w.appenders[a].id;
      w.(batch := w.batch + [id], appenders := w.appenders - {a},
         places := Placed(w.places, Content(w, id).offset, InBatch(|w.batch|)))
    case Take(f) =>
      w.(batch := [], flushers := w.flushers[f := Flusher(w.batch, 0)],
         places := seq(|w.places|, o requires 0 <= o < |w.places| => Moved(w.places[o], f)))
    case Acquire(f) => w.(lock := HeldBy(f))
    case Write(f) =>
      var Flusher(msgs, done) := w.flushers[f];
      w.(stored := w.stored + [Content(w, msgs[done])], hwm := Content(w, msgs[done]).offset + 1, pool := w.pool + {msgs[done]},
         flushers := w.flushers[f := Flusher(msgs, done + 1)],
         places := Placed(w.places, Content(w, msgs[done]).offset, InStore(|w.stored|)))
    case Release(f) => w.(lock := Free, flushers := w.flushers - {f})
  }

  // Each offset's record is at its place, unchanged since it was filled in.
  ghost predicate PlacesTrue(w: World) {
    && |w.places| == |w.original| == w.nextOffset
    && forall o :: 0 <= o < |w.places| ==>
         Real(w, w.places[o]) && RecordAt(w, w.places[o]) == w.original[o] && w.original[o].offset == o
  }

  // Every record anywhere is the one its offset's place names.
  ghost predicate NoOthers(w: World) {
    forall p: Place :: Real(w, p) ==>
      0 <= RecordAt(w, p).offset < |w.places| && w.places[RecordAt(w, p).offset] == p
  }

  // Objects in use are not in the pool, and objects about to be filled are nowhere else.
  ghost predicate ObjectsApart(w: World) {
    && (forall p: Place :: Real(w, p) && !p.InStore? ==> ObjectAt(w, p) !in w.pool && ObjectAt(w, p) in w.heap)
    && (forall a <- w.appenders :: w.appenders[a].id !in w.pool)
    && (forall a <- w.appenders, p: Place :: Real(w, p) && !p.InStore? && ObjectAt(w, p) == w.appenders[a].id ==> p == InFlight(a))
    && (forall a <- w.appenders, b <- w.appenders :: w.appenders[a].id == w.appenders[b].id ==> a == b)
  }

  ghost predicate Inv(w: World) {
    PlacesTrue(w) && NoOthers(w) && ObjectsApart(w)
  }

  lemma GetKeepsInv(w: World, a: nat, id: nat)
    requires Inv(w) && Enabled(w, Get(a, id))
    ensures Inv(Next(w, Get(a, id)))
  {
    var w' := Next(w, Get(a, id));
    forall p: Place | Real(w', p) ensures Real(w, p) && RecordAt(w', p) == RecordAt(w, p) {}
    forall p: Place | Real(w', p) && !p.InStore? ensures ObjectAt(w', p) == ObjectAt(w, p) != id {}
  }

  lemma NumberKeepsInv(w: World, s: Step)
    requires Inv(w) && s.Number? && Enabled(w, s)
    ensures Inv(Next(w, s))
  {
    var w', a, id := Next(w, s), s.a, w.appenders[s.a].id;
    var n := w.nextOffset;
    forall p: Place | Real(w', p) && p != InFlight(a)
      ensures Real(w, p) && RecordAt(w', p) == RecordAt(w, p)
      ensures !p.InStore? ==> ObjectAt(w', p) == ObjectAt(w, p) != id
    {}
    forall o | 0 <= o < n ensures Real(w', w.places[o]) && RecordAt(w', w.places[o]) == w.original[o] {
      assert Real(w, w.places[o]) && w.places[o] != InFlight(a);
    }
    assert RecordAt(w', InFlight(a)).offset == n;
  }

  lemma EnqueueKeepsInv(w: World, a: nat)
    requires Inv(w) && Enabled(w, Enqueue(a))
    ensures Inv(Next(w, Enqueue(a)))
  {
    var w', id, i := Next(w, Enqueue(a)), w.appenders[a].id, |w.batch|;
    var o := Content(w, id).offset;
    assert Real(w, InFlight(a)) && RecordAt(w, InFlight(a)).offset == o && w.places[o] == InFlight(a);
    assert Real(w', InBatch(i)) && ObjectAt(w', InBatch(i)) == id;
    forall p: Place | Real(w', p) && p != InBatch(i)
      ensures Real(w, p) && p != InFlight(a) && RecordAt(w', p) == RecordAt(w, p)
      ensures !p.InStore? ==> ObjectAt(w', p) == ObjectAt(w, p) != id
    {}
    forall x | 0 <= x < |w.places| && x != o ensures Real(w', w.places[x]) && RecordAt(w', w.places[x]) == w.original[x] {
      assert Real(w, w.places[x]) && w.places[x] != InFlight(a);
    }
  }

  // Where a record was before flusher f took the batch.
  function Was(p: Place, f: nat): Place {
    if p.Taken? && p.f == f then InBatch(p.j) else p
  }

  lemma TakeMoves(w: World, f: nat)
    requires Enabled(w, Take(f))
    ensures var w' := Next(w, Take(f));
      && (forall p: Place :: Real(w, p) ==> Real(w', Moved(p, f)) && RecordAt(w', Moved(p, f)) == RecordAt(w, p))
      && (forall p: Place :: Real(w', p) ==>
            (Real(w, Was(p, f)) && Moved(Was(p, f), f) == p && RecordAt(w', p) == RecordAt(w, Was(p, f))
             && (!p.InStore? ==> ObjectAt(w', p) == ObjectAt(w, Was(p, f)))))
  {
  }

  lemma TakeKeepsInv(w: World, f: nat)
    requires Inv(w) && Enabled(w, Take(f))
    ensures Inv(Next(w, Take(f)))
  {
    var w' := Next(w, Take(f));
    TakeMoves(w, f);
    hide Real, RecordAt, ObjectAt;
    assert PlacesTrue(w');
    forall p: Place | Real(w', p)
      ensures 0 <= RecordAt(w', p).offset < |w'.places| && w'.places[RecordAt(w', p).offset] == p
    {
      assert Real(w, Was(p, f));
    }
    forall p: Place | Real(w', p) && !p.InStore?
      ensures ObjectAt(w', p) !in w'.pool && ObjectAt(w', p) in w'.heap
      ensures forall a <- w'.appenders :: ObjectAt(w', p) == w'.appenders[a].id ==> p == InFlight(a)
    {
      assert Real(w, Was(p, f)) && !Was(p, f).InStore?;
    }
  }

  // The next record of flusher f moves to the end of the store, and its object to the pool.
  lemma WritePlaces(w: World, f: nat)
    requires Inv(w) && Enabled(w, Write(f))
    ensures var (w', n, p) := (Next(w, Write(f)), InStore(|w.stored|), Taken(f, w.flushers[f].done));
            && Real(w', n) && !Real(w, n) && Real(w, p) && RecordAt(w', n) == RecordAt(w, p)
            && (forall q: Place :: Real(w', q) <==> q == n || (Real(w, q) && q != p))
            && (forall q: Place :: Real(w, q) && q != p ==>
                  RecordAt(w', q) == RecordAt(w, q) && RecordAt(w, q).offset != RecordAt(w, p).offset)
            && (forall q: Place :: Real(w, q) && q != p && !q.InStore? ==> ObjectAt(w', q) == ObjectAt(w, q) != ObjectAt(w, p))
            && w'.pool == w.pool + {ObjectAt(w, p)} && w'.places == Placed(w.places, RecordAt(w, p).offset, n)
  {
  }

  lemma WriteKeepsInv(w: World, f: nat)
    requires Inv(w) && Enabled(w, Write(f))
    ensures Inv(Next(w, Write(f)))
  {
    hide Real, RecordAt, ObjectAt;
    var w' := Next(w, Write(f));
    WritePlaces(w, f);
  }

  lemma InvStep(w: World, s: Step)
    requires Inv(w) && Enabled(w, s)
    ensures Inv(Next(w, s))
  {
    match s
    case Get(a, id) => GetKeepsInv(w, a, id);
    case Number(_, _, _, _) => NumberKeepsInv(w, s);
    case Enqueue(a) => EnqueueKeepsInv(w, a);
    case Take(f) => TakeKeepsInv(w, f);
    case Acquire(f) => LockKeepsInv(w, s);
    case Write(f) => WriteKeepsInv(w, f);
    case Release(f) => LockKeepsInv(w, s);
  }

  lemma LockKeepsInv(w: World, s: Step)
    requires Inv(w) && (s.Acquire? || s.Release?) && Enabled(w, s)
    ensures Inv(Next(w, s))
  {
    var w' := Next(w, s);
    forall p: Place
      ensures Real(w', p) <==> Real(w, p)
      ensures Real(w, p) ==> RecordAt(w', p) == RecordAt(w, p) && (!p.InStore? ==> ObjectAt(w', p) == ObjectAt(w, p))
    {}
  }

  // run[k] is the world before step k.
  ghost predicate IsRun(run: seq<World>, steps: seq<Step>) {
    && |run| == |steps| + 1 && run[0] == START
    && forall k :: 0 <= k < |steps| ==> Enabled(run[k], steps[k]) && run[k + 1] == Next(run[k], steps[k])
  }

  lemma {:induction false} InvRun(run: seq<World>, steps: seq<Step>, k: nat)
    requires IsRun(run, steps) && k <= |steps|
    ensures Inv(run[k])
  {
    if k > 0 {
      InvRun(run, steps, k - 1);
      InvStep(run[k - 1], steps[k - 1]);
    }
  }

  ghost predicate Somewhere(w: World, m: Record) {
    exists p: Place :: Real(w, p) && RecordAt(w, p) == m
  }

  /** Conservation: however appenders and flushers interleave, each offset handed out has its record, unchanged,
      in exactly one place: in flight, in the batch, with a flusher, or stored; and there is nothing else anywhere. */
  lemma EachOffsetInOnePlace(run: seq<World>, steps: seq<Step>, k: nat)
    requires IsRun(run, steps) && k <= |steps|
    ensures var w := run[k];
      && |w.original| == w.nextOffset
      && (forall o :: 0 <= o < w.nextOffset ==> Somewhere(w, w.original[o]) && w.original[o].offset == o)
      && (forall p: Place :: Real(w, p) ==> 0 <= RecordAt(w, p).offset < w.nextOffset)
      && (forall p: Place, q: Place :: Real(w, p) && Real(w, q) && RecordAt(w, p).offset == RecordAt(w, q).offset ==> p == q)
  {
    InvRun(run, steps, k);
    var w := run[k];
    forall o | 0 <= o < w.nextOffset ensures Somewhere(w, w.original[o]) {
      assert Real(w, w.places[o]) && RecordAt(w, w.places[o]) == w.original[o];
    }
  }

  /** A message object in the pool is in no batch, with no flusher and with no appender; and no two records share one. */
  lemma PooledIsNotLive(run: seq<World>, steps: seq<Step>, k: nat)
    requires IsRun(run, steps) && k <= |steps|
    ensures var w := run[k];
      && (forall p: Place :: Real(w, p) && !p.InStore? ==> ObjectAt(w, p) !in w.pool)
      && (forall a <- w.appenders :: w.appenders[a].id !in w.pool)
      && (forall p: Place, q: Place :: Real(w, p) && Real(w, q) && !p.InStore? && !q.InStore? && p != q ==>
            ObjectAt(w, p) != ObjectAt(w, q))
  {
    InvRun(run, steps, k);
  }

  // Someone has the object, and will queue it, or write it and put it back.
  ghost predicate Held(w: World, id: nat) {
    || (exists a <- w.appenders :: w.appenders[a].id == id)
    || id in w.batch
    || (exists f <- w.flushers :: HasToWrite(w.flushers[f], id))
  }

  predicate HasToWrite(f: Flusher, id: nat) {
    exists j :: f.done <= j < |f.msgs| && f.msgs[j] == id
  }

  // Objects once filled are in use or in the pool.
  ghost predicate NoneLost(w: World) {
    forall id <- w.heap :: id in w.pool || Held(w, id)
  }

  lemma WriteReturns(f: Flusher, id: nat)
    requires HasToWrite(f, id)
    ensures f.done < |f.msgs| && (f.msgs[f.done] == id || HasToWrite(f.(done := f.done + 1), id))
  {
    var j :| f.done <= j < |f.msgs| && f.msgs[j] == id;
  }

  lemma HeldStep(w: World, s: Step, id: nat)
    requires Enabled(w, s) && (id in w.pool || Held(w, id))
    ensures id in Next(w, s).pool || Held(Next(w, s), id)
  {
    var w' := Next(w, s);
    if a :| a in w.appenders && w.appenders[a].id == id {
      assert s == Enqueue(a) ==> w'.batch[|w.batch|] == id;
      assert s != Enqueue(a) ==> a in w'.appenders && w'.appenders[a].id == id;
    } else if id in w.batch {
      if s.Take? {
        var j :| 0 <= j < |w.batch| && w.batch[j] == id;
        assert HasToWrite(w'.flushers[s.f], id);
      }
    } else if f :| f in w.flushers && HasToWrite(w.flushers[f], id) {
      WriteReturns(w.flushers[f], id);
      assert s == Write(f) && id != w.flushers[f].msgs[w.flushers[f].done] ==> HasToWrite(w'.flushers[f], id);
      assert s != Write(f) ==> f in w'.flushers && w'.flushers[f] == w.flushers[f];
    } else if s.Get? {
      assert w'.appenders[s.a].id == s.id;
    }
  }

  lemma NoneLostStep(w: World, s: Step)
    requires Enabled(w, s) && NoneLost(w)
    ensures NoneLost(Next(w, s))
  {
    hide Next, Enabled, Held;
    forall id <- Next(w, s).heap ensures id in Next(w, s).pool || Held(Next(w, s), id) {
      if id in w.heap {
        HeldStep(w, s, id);
      } else {
        FilledIsHeld(w, s, id);
      }
    }
  }

  lemma FilledIsHeld(w: World, s: Step, id: nat)
    requires Enabled(w, s) && id in Next(w, s).heap && id !in w.heap
    ensures Held(Next(w, s), id)
  {
    assert s.Number? && Next(w, s).appenders[s.a].id == id;
  }

  /** No object is lost: each one ever filled is in use or in the pool, and in the end all are back in the pool. */
  lemma {:induction false} ObjectsComeBack(run: seq<World>, steps: seq<Step>, k: nat)
    requires IsRun(run, steps) && k <= |steps|
    ensures NoneLost(run[k])
    ensures run[k].appenders == map[] && run[k].batch == [] && run[k].flushers == map[] ==> run[k].heap.Keys <= run[k].pool
  {
    if k > 0 {
      ObjectsComeBack(run, steps, k - 1);
      NoneLostStep(run[k - 1], steps[k - 1]);
    }
  }

  /** When nothing is under way any more, the segments hold every appended record exactly once. */
  lemma AllStoredInTheEnd(run: seq<World>, steps: seq<Step>, k: nat, o: nat) returns (at: nat)
    requires IsRun(run, steps) && k <= |steps| && o < run[k].nextOffset
    requires run[k].appenders == map[] && run[k].batch == [] && run[k].flushers == map[]
    ensures at < |run[k].stored| && o < |run[k].original| && run[k].stored[at] == run[k].original[o]
    ensures forall i :: 0 <= i < |run[k].stored| && run[k].stored[i].offset == o ==> i == at
  {
    InvRun(run, steps, k);
    var w := run[k];
    assert Real(w, w.places[o]);
    at := w.places[o].k;
    forall i | 0 <= i < |w.stored| && w.stored[i].offset == o ensures i == at {
      assert Real(w, InStore(i)) && RecordAt(w, InStore(i)) == w.stored[i];
    }
  }

  // Records reach the store in the order of their offsets as long as queueing is in that order, and so is taking the lock.
  ghost predicate Orderly(w: World, s: Step)
    requires Enabled(w, s)
  {
    && (s.Enqueue? ==> forall b <- w.appenders :: w.appenders[b].numbered ==> Offset(w, InFlight(s.a)) <= Offset(w, InFlight(b)))
    && (s.Acquire? ==> forall g <- w.flushers :: FirstLeft(w, s.f) <= FirstLeft(w, g))
  }

  function Offset(w: World, p: Place): int
    requires Real(w, p)
  {
    RecordAt(w, p).offset
  }

  // The offset of the next record that flusher f would write.
  function FirstLeft(w: World, f: nat): int {
    var p := Taken(f, if f in w.flushers then w.flushers[f].done else 0);
    if Real(w, p) then Offset(w, p) else 0
  }

  // How far a record has come on its way to the store.
  function Stage(p: Place): nat {
    match p
    case InStore(_) => 0
    case Taken(_, _) => 1
    case InBatch(_) => 2
    case InFlight(_) => 3
  }

  // What flusher f has left is a run of offsets; only the holder of the lock has begun, and it is at the end of the store.
  ghost predicate Block(w: World, f: nat)
    requires f in w.flushers
  {
    var Flusher(msgs, done) := w.flushers[f];
    && done <= |msgs| && msgs != []
    && (forall j :: done <= j < |msgs| ==> Offset(w, Taken(f, j)) == FirstLeft(w, f) + j - done)
    && if w.lock == HeldBy(f) then done < |msgs| ==> FirstLeft(w, f) == |w.stored| else done == 0
  }

  // The store holds offsets 0, 1, 2, ...; the batch holds a run of offsets, and so does each flusher; and a record that
  // has come further has a smaller offset.
  ghost predicate InOrder(w: World) {
    && (forall k :: 0 <= k < |w.stored| ==> w.stored[k].offset == k)
    && (forall i :: 0 <= i < |w.batch| ==> Offset(w, InBatch(i)) == Offset(w, InBatch(0)) + i)
    && (w.lock.HeldBy? ==> w.lock.flusher in w.flushers)
    && (forall f <- w.flushers :: Block(w, f))
    && Staged(w)
  }

  ghost predicate Staged(w: World) {
    forall p: Place, q: Place :: Real(w, p) && Real(w, q) && Stage(p) < Stage(q) ==> Offset(w, p) < Offset(w, q)
  }

  lemma NotStoredYet(w: World, p: Place)
    requires Inv(w) && InOrder(w) && Real(w, p) && !p.InStore?
    ensures Offset(w, p) >= |w.stored|
  {
    if w.stored != [] {
      assert Real(w, InStore(|w.stored| - 1)) && Offset(w, InStore(|w.stored| - 1)) == |w.stored| - 1;
    }
  }

  // The record with a given offset.
  lemma PlaceOf(w: World, o: int) returns (p: Place)
    requires Inv(w) && 0 <= o < w.nextOffset
    ensures Real(w, p) && Offset(w, p) == o
  {
    p := w.places[o];
  }

  // The appender with the least offset in flight has the next one for the batch.
  lemma LeastIsNext(w: World, a: nat)
    requires Inv(w) && InOrder(w) && Enabled(w, Enqueue(a)) && Orderly(w, Enqueue(a)) && w.batch != []
    ensures Offset(w, InFlight(a)) == Offset(w, InBatch(0)) + |w.batch|
  {
    var last := InBatch(|w.batch| - 1);
    assert Real(w, last) && Real(w, InFlight(a));
    var o := Offset(w, last) + 1;
    if Offset(w, InFlight(a)) > o {
      var p := PlaceOf(w, o);
    }
  }

  // Some flusher has the record that comes next in the store, if any flusher is at work and none holds the lock.
  lemma SomeoneIsNext(w: World, f: nat) returns (g: nat)
    requires Inv(w) && InOrder(w) && w.lock == Free && f in w.flushers
    ensures g in w.flushers && FirstLeft(w, g) == |w.stored|
  {
    assert Block(w, f) && Real(w, Taken(f, 0));
    NotStoredYet(w, Taken(f, 0));
    var p := PlaceOf(w, |w.stored|);
    assert Stage(p) <= 1;
    g := p.f;
    assert Block(w, g) && Real(w, Taken(g, 0));
    NotStoredYet(w, Taken(g, 0));
  }

  lemma StagedSame(w: World, w': World)
    requires Staged(w) && forall p: Place :: Real(w, p) <==> Real(w', p)
    requires forall p: Place :: Real(w, p) ==> RecordAt(w', p) == RecordAt(w, p)
    ensures Staged(w')
  {
    hide Real, RecordAt;
  }

  lemma BatchSame(w: World, w': World)
    requires w'.batch == w.batch && forall i :: 0 <= i < |w.batch| ==> Offset(w, InBatch(i)) == Offset(w, InBatch(0)) + i
    requires forall p: Place :: Real(w, p) && p.InBatch? ==> Real(w', p) && RecordAt(w', p) == RecordAt(w, p)
    ensures forall i :: 0 <= i < |w'.batch| ==> Offset(w', InBatch(i)) == Offset(w', InBatch(0)) + i
  {
    hide RecordAt;
    forall i | 0 <= i < |w.batch| ensures Offset(w', InBatch(i)) == Offset(w, InBatch(i)) {
      assert Real(w, InBatch(i));
    }
  }

  lemma BlockSame(w: World, w': World, f: nat)
    requires f in w.flushers && f in w'.flushers && w'.flushers[f] == w.flushers[f] && Block(w, f)
    requires w.lock == HeldBy(f) <==> w'.lock == HeldBy(f)
    requires w.lock == HeldBy(f) ==> |w'.stored| == |w.stored|
    requires forall p: Place :: Real(w, p) && p.Taken? && p.f == f ==> Real(w', p) && RecordAt(w', p) == RecordAt(w, p)
    ensures Block(w', f)
  {
    hide RecordAt;
    forall j | w.flushers[f].done <= j < |w.flushers[f].msgs| ensures Offset(w', Taken(f, j)) == Offset(w, Taken(f, j)) {
      assert Real(w, Taken(f, j));
    }
  }

  // Steps that leave every record where it is.
  lemma OrderRest(w: World, s: Step)
    requires Inv(w) && InOrder(w) && Enabled(w, s) && (s.Get? || s.Release?)
    ensures InOrder(Next(w, s))
  {
    hide Inv, Real, RecordAt, Staged, Block;
    var w' := Next(w, s);
    SamePlaces(w, s);
    StagedSame(w, w');
    BatchSame(w, w');
    forall f <- w'.flushers ensures Block(w', f) {
      BlockSame(w, w', f);
    }
  }

  lemma SamePlaces(w: World, s: Step)
    requires Inv(w) && Enabled(w, s) && (s.Get? || s.Acquire? || s.Release?)
    ensures forall p: Place :: Real(w, p) <==> Real(Next(w, s), p)
    ensures forall p: Place :: Real(w, p) ==> RecordAt(Next(w, s), p) == RecordAt(w, p)
  {
    if s.Get? {
      forall p: Place | Real(w, p) && !p.InStore? ensures ObjectAt(w, p) != s.id || s.id !in w.pool {}
    }
  }

  lemma FirstLeftBound(w: World, f: nat)
    requires Inv(w) && InOrder(w) && w.lock == Free && f in w.flushers
    ensures FirstLeft(w, f) >= |w.stored|
  {
    hide Inv, RecordAt, Staged;
    assert Block(w, f) && Real(w, Taken(f, 0));
    NotStoredYet(w, Taken(f, 0));
  }

  lemma AcquiredBlock(w: World, w': World, f: nat)
    requires f in w.flushers && Block(w, f) && w.lock == Free && w' == w.(lock := HeldBy(f))
    ensures FirstLeft(w', f) == FirstLeft(w, f) && (Block(w', f) <==> FirstLeft(w, f) == |w.stored|)
  {
    hide RecordAt;
    SameWithLock(w, w');
  }

  lemma SameWithLock(w: World, w': World)
    requires w' == w.(lock := w'.lock)
    ensures forall p: Place :: Real(w', p) <==> Real(w, p)
    ensures forall p: Place :: Real(w, p) ==> RecordAt(w', p) == RecordAt(w, p)
    ensures forall f: nat :: FirstLeft(w', f) == FirstLeft(w, f)
  {
  }

  lemma OrderAcquire(w: World, f: nat)
    requires Inv(w) && InOrder(w) && Enabled(w, Acquire(f))
    ensures InOrder(Next(w, Acquire(f))) <==> Orderly(w, Acquire(f))
  {
    hide Inv, Real, RecordAt, Staged, Block, FirstLeft;
    var w' := Next(w, Acquire(f));
    SamePlaces(w, Acquire(f));
    StagedSame(w, w');
    var g := SomeoneIsNext(w, f);
    forall h <- w.flushers ensures FirstLeft(w, h) >= |w.stored| {
      FirstLeftBound(w, h);
    }
    BatchSame(w, w');
    forall h <- w.flushers | h != f ensures Block(w', h) {
      BlockSame(w, w', h);
    }
    AcquiredBlock(w, w', f);
  }

  lemma NumberPlaces(w: World, s: Step)
    requires Inv(w) && s.Number? && Enabled(w, s)
    ensures var w', n := Next(w, s), InFlight(s.a);
            && Real(w', n) && !Real(w, n) && RecordAt(w', n).offset == w.nextOffset
            && (forall p: Place :: Real(w', p) <==> p == n || Real(w, p))
            && (forall p: Place :: Real(w, p) ==> RecordAt(w', p) == RecordAt(w, p) && RecordAt(w, p).offset < w.nextOffset)
  {
  }

  lemma OrderNumber(w: World, s: Step)
    requires Inv(w) && InOrder(w) && s.Number? && Enabled(w, s)
    ensures InOrder(Next(w, s))
  {
    hide Inv, Real, RecordAt, Block;
    var w' := Next(w, s);
    NumberPlaces(w, s);
    BatchSame(w, w');
    forall f <- w'.flushers ensures Block(w', f) {
      BlockSame(w, w', f);
    }
  }

  // The record of appender a moves to the end of the batch.
  lemma EnqueuePlaces(w: World, a: nat)
    requires Inv(w) && Enabled(w, Enqueue(a))
    ensures var w', n := Next(w, Enqueue(a)), InBatch(|w.batch|);
            && Real(w', n) && !Real(w, n) && Real(w, InFlight(a)) && RecordAt(w', n) == RecordAt(w, InFlight(a))
            && (forall p: Place :: Real(w', p) <==> p == n || (Real(w, p) && p != InFlight(a)))
            && (forall p: Place :: Real(w, p) && p != InFlight(a) ==>
                  RecordAt(w', p) == RecordAt(w, p) && RecordAt(w, p).offset != RecordAt(w, InFlight(a)).offset)
  {
  }

  lemma EnqueueStaged(w: World, a: nat)
    requires Inv(w) && Staged(w) && Enabled(w, Enqueue(a))
    ensures Staged(Next(w, Enqueue(a))) <==> Orderly(w, Enqueue(a))
  {
    hide Inv, RecordAt;
    var w' := Next(w, Enqueue(a));
    EnqueuePlaces(w, a);
    if Orderly(w, Enqueue(a)) {
      hide Real;
    } else {
      var b :| b in w.appenders && w.appenders[b].numbered && Offset(w, InFlight(b)) < Offset(w, InFlight(a));
      assert Real(w', InFlight(b));
    }
  }

  lemma EnqueueBatch(w: World, a: nat)
    requires Inv(w) && InOrder(w) && Enabled(w, Enqueue(a))
    requires w.batch != [] ==> Offset(w, InFlight(a)) == Offset(w, InBatch(0)) + |w.batch|
    ensures var w' := Next(w, Enqueue(a)); forall i :: 0 <= i < |w'.batch| ==> Offset(w', InBatch(i)) == Offset(w', InBatch(0)) + i
  {
    hide Inv, RecordAt, Staged, Block;
    EnqueuePlaces(w, a);
  }

  lemma EnqueueBlock(w: World, a: nat, f: nat)
    requires Inv(w) && Enabled(w, Enqueue(a)) && f in w.flushers && Block(w, f)
    ensures f in Next(w, Enqueue(a)).flushers && Block(Next(w, Enqueue(a)), f)
  {
    hide Inv, RecordAt;
    EnqueuePlaces(w, a);
  }

  lemma OrderEnqueue(w: World, a: nat)
    requires Inv(w) && InOrder(w) && Enabled(w, Enqueue(a))
    ensures InOrder(Next(w, Enqueue(a))) <==> Orderly(w, Enqueue(a))
  {
    hide Inv, Real, RecordAt, Block, Staged;
    var w' := Next(w, Enqueue(a));
    EnqueuePlaces(w, a);
    EnqueueStaged(w, a);
    if Orderly(w, Enqueue(a)) {
      if w.batch != [] {
        LeastIsNext(w, a);
      }
      EnqueueBatch(w, a);
      forall f <- w'.flushers ensures Block(w', f) {
        EnqueueBlock(w, a, f);
      }
    }
  }

  lemma TakeStaged(w: World, f: nat)
    requires Staged(w) && Enabled(w, Take(f))
    ensures Staged(Next(w, Take(f)))
  {
    hide Real, RecordAt;
    var w' := Next(w, Take(f));
    TakeMoves(w, f);
    forall p: Place, q: Place | Real(w', p) && Real(w', q) && Stage(p) < Stage(q) ensures Offset(w', p) < Offset(w', q) {
      assert Real(w, Was(p, f)) && Real(w, Was(q, f));
    }
  }

  lemma TakeBlock(w: World, f: nat, g: nat)
    requires InOrder(w) && Enabled(w, Take(f)) && g in Next(w, Take(f)).flushers
    ensures Block(Next(w, Take(f)), g)
  {
    hide RecordAt, Staged;
    TakeMoves(w, f);
    if g != f {
      assert Block(w, g);
    }
  }

  lemma OrderTake(w: World, f: nat)
    requires Inv(w) && InOrder(w) && Enabled(w, Take(f))
    ensures InOrder(Next(w, Take(f)))
  {
    hide Inv, Real, RecordAt, Block, Staged;
    var w' := Next(w, Take(f));
    TakeStaged(w, f);
    forall g <- w'.flushers ensures Block(w', g) {
      TakeBlock(w, f, g);
    }
  }

  lemma WriteStores(w: World, f: nat)
    requires Inv(w) && InOrder(w) && Enabled(w, Write(f))
    ensures var w' := Next(w, Write(f));
            w'.stored[..|w.stored|] == w.stored && |w'.stored| == |w.stored| + 1 && w'.stored[|w.stored|].offset == |w.stored|
    ensures forall k :: 0 <= k <= |w.stored| ==> Next(w, Write(f)).stored[k].offset == k
  {
    hide Inv, Staged;
    assert Block(w, f);
  }

  lemma StagedPair(w: World, p: Place, q: Place)
    requires Staged(w) && Real(w, p) && Real(w, q) && Stage(p) < Stage(q)
    ensures Offset(w, p) < Offset(w, q)
  {
    hide Real, RecordAt;
  }

  lemma WriteStaged(w: World, f: nat)
    requires Inv(w) && InOrder(w) && Enabled(w, Write(f))
    ensures Staged(Next(w, Write(f)))
  {
    hide Inv, Real, RecordAt, Block;
    var w' := Next(w, Write(f));
    WritePlaces(w, f);
    WriteStores(w, f);
    StoredOffset(w', |w.stored|);
    forall p: Place, q: Place | Real(w', p) && Real(w', q) && Stage(p) < Stage(q) ensures Offset(w', p) < Offset(w', q) {
      if p == InStore(|w.stored|) {
        NotStoredYet(w, q);
      } else {
        StagedPair(w, p, q);
      }
    }
  }

  lemma StoredOffset(w: World, k: int)
    requires Real(w, InStore(k)) && forall i :: 0 <= i < |w.stored| ==> w.stored[i].offset == i
    ensures Offset(w, InStore(k)) == k < |w.stored|
  {
  }

  lemma WriteBlock(w: World, f: nat, g: nat)
    requires Inv(w) && InOrder(w) && Enabled(w, Write(f)) && g in w.flushers
    ensures g in Next(w, Write(f)).flushers && Block(Next(w, Write(f)), g)
  {
    hide Inv, RecordAt, Staged;
    WritePlaces(w, f);
    assert Block(w, f) && Block(w, g);
  }

  lemma OrderWrite(w: World, f: nat)
    requires Inv(w) && InOrder(w) && Enabled(w, Write(f))
    ensures InOrder(Next(w, Write(f)))
  {
    hide Inv, Real, RecordAt, Block, Staged;
    var w' := Next(w, Write(f));
    WritePlaces(w, f);
    WriteStores(w, f);
    WriteStaged(w, f);
    BatchSame(w, w');
    forall g <- w'.flushers ensures Block(w', g) {
      WriteBlock(w, f, g);
    }
  }

  /** Exactly which steps keep records on their way in the order of their offsets. */
  lemma OrderStepIff(w: World, s: Step)
    requires Inv(w) && InOrder(w) && Enabled(w, s)
    ensures InOrder(Next(w, s)) <==> Orderly(w, s)
  {
    match s
    case Get(_, _) => OrderRest(w, s);
    case Number(_, _, _, _) => OrderNumber(w, s);
    case Enqueue(a) => OrderEnqueue(w, a);
    case Take(f) => OrderTake(w, f);
    case Acquire(f) => OrderAcquire(w, f);
    case Write(f) => OrderWrite(w, f);
    case Release(_) => OrderRest(w, s);
  }

  lemma StartInOrder()
    ensures InOrder(START)
  {
  }

  /** A run keeps its records in order throughout if and only if each of its steps is orderly. */
  lemma {:induction false} OrderRunIff(run: seq<World>, steps: seq<Step>, n: nat)
    requires IsRun(run, steps) && n <= |steps|
    ensures (forall k :: 0 <= k <= n ==> InOrder(run[k])) <==> (forall i :: 0 <= i < n ==> Orderly(run[i], steps[i]))
  {
    hide Inv, InOrder, Orderly, Enabled, Next;
    if n > 0 {
      OrderRunIff(run, steps, n - 1);
      InvRun(run, steps, n - 1);
      var w, s := run[n - 1], steps[n - 1];
      assert Enabled(w, s) && run[n] == Next(w, s);
      if InOrder(w) {
        OrderStepIff(w, s);
        assert InOrder(run[n]) <==> Orderly(w, s);
      }
    } else {
      StartInOrder();
    }
  }

  /** If queueing and taking the lock are orderly, records are stored in the order of their offsets, whatever else runs. */
  lemma OrderlyStoresInOrder(run: seq<World>, steps: seq<Step>, k: nat)
    requires IsRun(run, steps) && k <= |steps|
    requires forall i :: 0 <= i < k ==> Orderly(run[i], steps[i])
    ensures run[k].stored <= run[k].original
  {
    OrderRunIff(run, steps, k);
    InvRun(run, steps, k);
    InOrderIsOriginal(run[k]);
  }

  lemma InOrderIsOriginal(w: World)
    requires Inv(w) && InOrder(w)
    ensures w.stored <= w.original
  {
    assert |w.stored| > |w.original| ==> Real(w, InStore(|w.original|));
    forall i | 0 <= i < |w.stored| ensures w.stored[i] == w.original[i] {
      assert Real(w, InStore(i)) && RecordAt(w, InStore(i)) == w.stored[i];
    }
  }

  // Each flusher takes the lock before the next takes a batch.
  predicate InTurn(w: World, s: Step) {
    s.Take? ==> forall f <- w.flushers :: w.lock == HeldBy(f)
  }

  // Then at most one flusher waits for the lock.
  ghost predicate OneWaits(w: World) {
    && (w.lock.HeldBy? ==> w.lock.flusher in w.flushers)
    && (forall f <- w.flushers, g <- w.flushers :: w.lock != HeldBy(f) && w.lock != HeldBy(g) ==> f == g)
  }

  lemma OneWaitsStep(w: World, s: Step)
    requires OneWaits(w) && Enabled(w, s) && InTurn(w, s)
    ensures OneWaits(Next(w, s))
  {
  }

  // The line in which records wait: the store, the flusher at work, the flusher that waits, the batch, and those in flight.
  function Line(w: World, p: Place): nat {
    match p
    case InStore(_) => 0
    case Taken(f, _) => if w.lock == HeldBy(f) then 1 else 2
    case InBatch(_) => 3
    case InFlight(_) => 4
  }

  function Slot(p: Place): int {
    match p
    case InStore(k) => k
    case Taken(_, j) => j
    case InBatch(i) => i
    case InFlight(_) => 0
  }

  predicate Ahead(w: World, p: Place, q: Place) {
    Line(w, p) < Line(w, q) || (Line(w, p) == Line(w, q) && Slot(p) < Slot(q))
  }

  // Where the record at p is after the step.
  function PlaceAfter(w: World, s: Step, p: Place): Place {
    match s
    case Enqueue(a) => if p == InFlight(a) then InBatch(|w.batch|) else p
    case Take(f) => Moved(p, f)
    case Write(f) => if f in w.flushers && p == Taken(f, w.flushers[f].done) then InStore(|w.stored|) else p
    case _ => p
  }

  lemma PlacesMove(w: World, s: Step, o: int)
    requires Inv(w) && Enabled(w, s) && 0 <= o < w.nextOffset
    ensures |Next(w, s).places| >= w.nextOffset && Next(w, s).places[o] == PlaceAfter(w, s, w.places[o])
  {
    assert Real(w, w.places[o]) && RecordAt(w, w.places[o]).offset == o;
    match s
    case Enqueue(a) => assert Real(w, InFlight(a));
    case Write(f) => assert Real(w, Taken(f, w.flushers[f].done));
    case _ =>
  }

  lemma StaysAhead(w: World, s: Step, p: Place, q: Place)
    requires OneWaits(w) && Enabled(w, s) && InTurn(w, s) && Real(w, p) && Real(w, q) && Ahead(w, p, q)
    ensures Ahead(Next(w, s), PlaceAfter(w, s, p), PlaceAfter(w, s, q))
  {
  }

  // In run[k] the record with offset o is ahead of the one with offset x.
  ghost predicate AheadIn(w: World, o: int, x: int) {
    && 0 <= o < |w.places| && 0 <= x < |w.places|
    && Ahead(w, w.places[o], w.places[x])
  }

  lemma {:induction false} OneWaitsRun(run: seq<World>, steps: seq<Step>, k: nat)
    requires IsRun(run, steps) && k <= |steps| && forall i :: 0 <= i < |steps| ==> InTurn(run[i], steps[i])
    ensures OneWaits(run[k])
  {
    hide Enabled, Next, InTurn;
    if k == 0 {
      StartWaits();
    } else {
      OneWaitsRun(run, steps, k - 1);
      OneWaitsStep(run[k - 1], steps[k - 1]);
    }
  }

  lemma StartWaits()
    ensures OneWaits(START)
  {
  }

  lemma {:induction false} AheadRun(run: seq<World>, steps: seq<Step>, j: nat, k: nat, o: int, x: int)
    requires IsRun(run, steps) && j <= k <= |steps| && forall i :: 0 <= i < |steps| ==> InTurn(run[i], steps[i])
    requires AheadIn(run[j], o, x)
    ensures AheadIn(run[k], o, x)
    decreases k
  {
    hide Next, InTurn, Ahead;
    if j < k {
      AheadRun(run, steps, j, k - 1, o, x);
      var w, s := run[k - 1], steps[k - 1];
      InvRun(run, steps, k - 1);
      OneWaitsRun(run, steps, k - 1);
      assert Enabled(w, s) && run[k] == Next(w, s) && InTurn(w, s);
      AheadStep(w, s, o, x);
    }
  }

  lemma AheadStep(w: World, s: Step, o: int, x: int)
    requires Inv(w) && OneWaits(w) && Enabled(w, s) && InTurn(w, s) && AheadIn(w, o, x)
    ensures AheadIn(Next(w, s), o, x)
  {
    hide Enabled, Next, InTurn, Ahead, Real, RecordAt, NoOthers, ObjectsApart, OneWaits;
    PlacesMove(w, s, o);
    PlacesMove(w, s, x);
    StaysAhead(w, s, w.places[o], w.places[x]);
  }

  // A step out of turn puts some record ahead of one with a smaller offset.
  lemma DisorderIsAhead(w: World, s: Step) returns (o: int, x: int)
    requires Inv(w) && OneWaits(w) && Enabled(w, s) && !Orderly(w, s)
    ensures x < o && AheadIn(Next(w, s), o, x)
  {
    if s.Enqueue? {
      var b :| b in w.appenders && w.appenders[b].numbered && Offset(w, InFlight(b)) < Offset(w, InFlight(s.a));
      o, x := Offset(w, InFlight(s.a)), Offset(w, InFlight(b));
      assert Real(w, InFlight(s.a)) && Real(w, InFlight(b));
      PlacesMove(w, s, o);
      PlacesMove(w, s, x);
    } else {
      var g :| g in w.flushers && FirstLeft(w, g) < FirstLeft(w, s.f);
      assert false;
    }
  }

  /**
   If each flusher takes the lock before the next takes a batch, then when nothing is under way any more, the records
   are stored in the order of their offsets if and only if every step was orderly.
   */
  lemma InTurnStoresInOrderIff(run: seq<World>, steps: seq<Step>)
    requires IsRun(run, steps) && forall i :: 0 <= i < |steps| ==> InTurn(run[i], steps[i])
    requires var w := run[|steps|]; w.appenders == map[] && w.batch == [] && w.flushers == map[]
    ensures run[|steps|].stored == run[|steps|].original <==> (forall i :: 0 <= i < |steps| ==> Orderly(run[i], steps[i]))
  {
    var n := |steps|;
    InvRun(run, steps, n);
    if forall i :: 0 <= i < n ==> Orderly(run[i], steps[i]) {
      OrderlyStoresInOrder(run, steps, n);
      AllAreStored(run, steps);
    } else {
      var i :| 0 <= i < n && !Orderly(run[i], steps[i]);
      InvRun(run, steps, i);
      OneWaitsRun(run, steps, i);
      var o, x := DisorderIsAhead(run[i], steps[i]);
      AheadRun(run, steps, i + 1, n, o, x);
      StoredAhead(run[n], o, x);
    }
  }

  lemma AllAreStored(run: seq<World>, steps: seq<Step>)
    requires IsRun(run, steps)
    requires var w := run[|steps|]; w.appenders == map[] && w.batch == [] && w.flushers == map[] && w.stored <= w.original
    ensures run[|steps|].stored == run[|steps|].original
  {
    var w := run[|steps|];
    InvRun(run, steps, |steps|);
    if |w.stored| < |w.original| {
      var at := AllStoredInTheEnd(run, steps, |steps|, |w.stored|);
    }
  }

  lemma StoredAhead(w: World, o: int, x: int)
    requires Inv(w) && w.appenders == map[] && w.batch == [] && w.flushers == map[] && AheadIn(w, o, x) && x < o
    ensures w.stored != w.original
  {
    assert Real(w, w.places[o]) && Real(w, w.places[x]);
  }

  // -----  The high watermark  -----

  // The mark is one past the record stored last, whatever was stored before.
  ghost predicate MarkIsLast(w: World) {
    w.hwm == if w.stored == [] then 0 else w.stored[|w.stored| - 1].offset + 1
  }

  lemma {:induction false} MarkRun(run: seq<World>, steps: seq<Step>, k: nat)
    requires IsRun(run, steps) && k <= |steps|
    ensures MarkIsLast(run[k])
  {
    if k > 0 {
      MarkRun(run, steps, k - 1);
      assert Enabled(run[k - 1], steps[k - 1]) && run[k] == Next(run[k - 1], steps[k - 1]);
    }
  }

  // No stored record is at or past the mark, so that a fetch can return it.
  ghost predicate HidesNothing(w: World) {
    forall k :: 0 <= k < |w.stored| ==> w.stored[k].offset < w.hwm
  }

  /** In any run the mark hides no stored record exactly while the record stored last has the greatest offset. */
  lemma HidesNothingIff(run: seq<World>, steps: seq<Step>, k: nat)
    requires IsRun(run, steps) && k <= |steps|
    ensures var stored := run[k].stored;
            HidesNothing(run[k]) <==> forall i :: 0 <= i < |stored| ==> stored[i].offset <= stored[|stored| - 1].offset
  {
    MarkRun(run, steps, k);
  }

  /** And a step lowers the mark exactly when it writes a record of a smaller offset than the one before. */
  lemma LowersMarkIff(run: seq<World>, steps: seq<Step>, k: nat)
    requires IsRun(run, steps) && k < |steps|
    ensures var (w, s) := (run[k], steps[k]);
            run[k + 1].hwm < w.hwm <==>
              s.Write? && w.stored != [] && FirstLeft(w, s.f) < w.stored[|w.stored| - 1].offset
  {
    MarkRun(run, steps, k);
    InvRun(run, steps, k);
    assert Enabled(run[k], steps[k]) && run[k + 1] == Next(run[k], steps[k]);
  }

  /** If every step is orderly the mark is the number of records stored, so it never moves back and hides nothing. */
  lemma OrderlyMark(run: seq<World>, steps: seq<Step>, k: nat)
    requires IsRun(run, steps) && k <= |steps|
    requires forall i :: 0 <= i < k ==> Orderly(run[i], steps[i])
    ensures run[k].hwm == |run[k].stored| && HidesNothing(run[k])
  {
    OrderRunIff(run, steps, k);
    MarkRun(run, steps, k);
  }

  // Queueing has been in the order of the offsets.
  ghost predicate QueuedInOrder(run: seq<World>, steps: seq<Step>) {
    && |run| > |steps|
    && forall i :: 0 <= i < |steps| && steps[i].Enqueue? && Enabled(run[i], steps[i]) ==> Orderly(run[i], steps[i])
  }

  lemma Extended(run: seq<World>, steps: seq<Step>, s: Step) returns (run': seq<World>, steps': seq<Step>)
    requires IsRun(run, steps) && Enabled(run[|steps|], s)
    ensures IsRun(run', steps') && run'[|steps'|] == Next(run[|steps|], s)
    ensures |steps'| == |steps| + 1 && run'[|steps|] == run[|steps|]
    ensures QueuedInOrder(run, steps) && (s.Enqueue? ==> Orderly(run[|steps|], s)) ==> QueuedInOrder(run', steps')
  {
    run', steps' := run + [Next(run[|steps|], s)], steps + [s];
  }

  // An appender takes object `a`, and fills it in with the next offset.
  lemma Filled(run: seq<World>, steps: seq<Step>, a: nat) returns (run': seq<World>, steps': seq<Step>)
    requires IsRun(run, steps) && run[|steps|].nextOffset < 9
    requires var w := run[|steps|]; a !in w.appenders && a !in w.heap && forall b <- w.appenders :: w.appenders[b].id != a
    ensures IsRun(run', steps') && (QueuedInOrder(run, steps) ==> QueuedInOrder(run', steps'))
    ensures var w := run[|steps|]; var m := Record(w.nextOffset, 0, [], []);
            run'[|steps'|] == w.(pool := w.pool - {a}, heap := w.heap[a := m], nextOffset := w.nextOffset + 1,
              appenders := w.appenders[a := Appender(a, true)],
              original := w.original + [m], places := w.places + [InFlight(a)])
  {
    run', steps' := Extended(run, steps, Get(a, a));
    run', steps' := Extended(run', steps', Number(a, 0, [], []));
    assert run[|steps|].appenders[a := Appender(a, false)][a := Appender(a, true)] == run[|steps|].appenders[a := Appender(a, true)];
  }

  /** Queued out of order, offset 1 can be stored before offset 0. */
  lemma LateQueueReorders() returns (run: seq<World>, steps: seq<Step>)
    ensures IsRun(run, steps) && |run[|steps|].stored| > 0 && run[|steps|].stored[0].offset == 1
  {
    run, steps := [START], [];
    run, steps := Filled(run, steps, 0);
    run, steps := Filled(run, steps, 1);
    run, steps := Extended(run, steps, Enqueue(1));
    run, steps := Extended(run, steps, Take(0));
    run, steps := Extended(run, steps, Acquire(0));
    run, steps := Extended(run, steps, Write(0));
  }

  lemma FirstTaken() returns (run: seq<World>, steps: seq<Step>)
    ensures IsRun(run, steps) && QueuedInOrder(run, steps)
    ensures var w := run[|steps|];
            && w.nextOffset == 1 && 1 !in w.heap && (forall b: nat :: b !in w.appenders) && w.batch == []
            && w.lock == Free && w.flushers == map[0 := Flusher([0], 0)] && w.stored == [] && Content(w, 0).offset == 0
  {
    run, steps := [START], [];
    run, steps := Filled(run, steps, 0);
    run, steps := Extended(run, steps, Enqueue(0));
    assert run[|steps|].batch == [0];
    run, steps := Extended(run, steps, Take(0));
    assert run[|steps|].flushers == map[0 := Flusher([0], 0)];
  }

  lemma BothTaken() returns (run: seq<World>, steps: seq<Step>)
    ensures IsRun(run, steps) && QueuedInOrder(run, steps)
    ensures var w := run[|steps|];
            && w.lock == Free && w.flushers == map[0 := Flusher([0], 0), 1 := Flusher([1], 0)] && w.stored == []
            && Content(w, 0).offset == 0 && Content(w, 1).offset == 1
  {
    run, steps := FirstTaken();
    run, steps := Filled(run, steps, 1);
    run, steps := Extended(run, steps, Enqueue(1));
    assert run[|steps|].batch == [1];
    run, steps := Extended(run, steps, Take(1));
    assert run[|steps|].flushers == map[0 := Flusher([0], 0), 1 := Flusher([1], 0)];
  }

  /** And with two flushers at once, even if queueing is in order. */
  lemma TwoFlushersReorder() returns (run: seq<World>, steps: seq<Step>)
    ensures IsRun(run, steps) && QueuedInOrder(run, steps)
    ensures var w := run[|steps|];
            && |w.stored| == 1 && w.stored[0].offset == 1 && w.hwm == 2
            && w.lock == HeldBy(1) && w.flushers == map[0 := Flusher([0], 0), 1 := Flusher([1], 1)] && Content(w, 0).offset == 0
  {
    run, steps := BothTaken();
    run, steps := Extended(run, steps, Acquire(1));
    run, steps := Extended(run, steps, Write(1));
  }

  /** ... and then the mark goes back from 2 to 1, and hides the record that was stored first. */
  lemma MarkGoesBack() returns (run: seq<World>, steps: seq<Step>)
    ensures IsRun(run, steps) && QueuedInOrder(run, steps) && |steps| > 0
    ensures run[|steps| - 1].hwm == 2 && run[|steps|].hwm == 1 && !HidesNothing(run[|steps|])
  {
    run, steps := TwoFlushersReorder();
    run, steps := Extended(run, steps, Release(1));
    run, steps := Extended(run, steps, Acquire(0));
    var before := |steps|;
    assert run[before].hwm == 2;
    run, steps := Extended(run, steps, Write(0));
    assert run[|steps|].stored[0].offset == 1;
  }
}
