/** Chunks that arrive before the session open: parking and replaying is the same as receiving the open first. */
module EngineArrivals {
  import opened Basics
  import opened Coding
  import opened Strategies
  import opened Sessions
  import opened Engines
  import opened EngineSteps
  import opened EngineBase
  import opened EngineRuns
  import opened EngineFacts
  import opened EngineRest
  import opened EngineTimes
  import opened Arrivals
  import Planners

  // ---- Events around one message ----

  function Handled(lib: Lib, e: Engine, inp: Input): Engine {
    if inp.Net? then HandleEvent(lib, e, inp.event, inp.ticks, inp.ok, inp.fib) else e
  }

  /** The engine after the events, no sweep in between. */
  function Receive(lib: Lib, e: Engine, xs: seq<Input>): Engine
    decreases |xs|
  {
    if xs == [] then e else Receive(lib, Handled(lib, e, xs[0]), xs[1..])
  }

  /** Any network events except an open of the message: chunks of it, and everything about other messages and peers. */
  ghost predicate Around(xs: seq<Input>, key: Key) {
    forall i | 0 <= i < |xs| :: xs[i].Net? && !(xs[i].event.SessionOpenIn? && xs[i].event.key == key)
  }

  ghost predicate IsPiece(inp: Input, key: Key) {
    inp.Net? && inp.event.ChunkIn? && inp.event.key == key
  }

  /** The chunks of the message among the events. */
  ghost function Pieces(xs: seq<Input>, key: Key): seq<Piece>
    decreases |xs|
  {
    if xs == [] then []
    else (if IsPiece(xs[0], key) then [Piece(xs[0].event.idx, xs[0].event.data)] else []) + Pieces(xs[1..], key)
  }

  lemma {:induction false} PiecesConcat(xs: seq<Input>, ys: seq<Input>, key: Key)
    ensures Pieces(xs + ys, key) == Pieces(xs, key) + Pieces(ys, key)
    decreases |xs|
  {
    if xs == [] {
      assert xs + ys == ys;
    } else {
      assert (xs + ys)[1..] == xs[1..] + ys;
      PiecesConcat(xs[1..], ys, key);
    }
  }

  ghost function ParkedPieces(buf: seq<ParkedChunk>): seq<Piece> {
    seq(|buf|, i requires 0 <= i < |buf| => Piece(buf[i].idx, buf[i].data))
  }

  // ---- Payloads delivered for one message ----

  ghost function Keyed(ds: seq<Event>, key: Key): seq<Bytes> {
    if ds == [] then []
    else
      var last := ds[|ds| - 1];
      Keyed(ds[..|ds| - 1], key) + if last.Delivered? && last.key == key then [last.payload] else []
  }

  ghost function Payloads(log: seq<Event>, key: Key): seq<Bytes> {
    Keyed(Deliveries(log), key)
  }

  lemma PayloadsAppend(log: seq<Event>, x: Event, key: Key)
    ensures Payloads(log + [x], key)
         == Payloads(log, key) + if x.Delivered? && x.key == key then [x.payload] else []
  {
    DeliveriesAppend(log, x);
    if x.Delivered? {
      assert (Deliveries(log) + [x])[..|Deliveries(log)|] == Deliveries(log);
    } else {
      assert Deliveries(log) + [] == Deliveries(log);
    }
  }

  /** What a session that went from `s` to `t` has delivered. */
  ghost function Paid(lib: Lib, s: Session, t: Session): seq<Bytes> {
    if !s.Terminal() && t.phase.Reconstructed? && Reconstruct(lib, t.strategy).Ok?
    then [Reconstruct(lib, t.strategy).value] else []
  }

  lemma PaidBody(lib: Lib, s: Session, t: Session, s': Session, t': Session)
    requires SameBody(s, s') && SameBody(t, t')
    ensures Paid(lib, s, t) == Paid(lib, s', t')
  {
    FinishedBody(lib, t, t');
    hide Reconstruct;
  }

  // ---- One session in a live engine ----

  ghost predicate Watching(e: Engine, key: Key) {
    key in e.sessions && key !in e.tombstones && !e.sessions[key].phase.Decoding? && Hungry(e.sessions[key])
  }

  /** The session became, up to its planner, `t`, and delivered accordingly. */
  ghost predicate Became(lib: Lib, e: Engine, s: Session, f: Engine, key: Key, t: Session) {
    && Watching(f, key) && SameBody(t, f.sessions[key])
    && Payloads(f.log, key) == Payloads(e.log, key) + Paid(lib, s, t)
  }

  lemma HungryBody(s: Session, t: Session)
    requires Hungry(s) && SameBody(s, t)
    ensures Hungry(t)
  {
  }

  /** A drain keeps the body of the session, the tombstones and the payloads. */
  lemma DrainKeepsBody(e: Engine, key: Key, ok: Oracle)
    requires key in e.sessions
    ensures var f := Drain(e, key, ok).0;
            && key in f.sessions && SameBody(e.sessions[key], f.sessions[key])
            && f.tombstones == e.tombstones && f.parked == e.parked
            && Payloads(f.log, key) == Payloads(e.log, key)
  {
    DrainFrame(e, key, ok);
    hide Drain, Deliveries;
  }

  lemma FinishingEffect(lib: Lib, e: Engine, key: Key, at: nat)
    requires key in e.sessions
    ensures var (t, r) := DecodeAndFinish(lib, e.sessions[key]);
            var f := DoFinishing(lib, e, key, at);
            && key in f.sessions && f.sessions[key] == t && f.tombstones == e.tombstones
            && f.log == e.log + [Ending(key, r, at)]
  {
    hide DecodeAndFinish;
  }

  lemma DeliverEffect(lib: Lib, e: Engine, key: Key, at: nat, ok: Oracle)
    requires key in e.sessions
    ensures var (t, r) := DecodeAndFinish(lib, e.sessions[key]);
            var f := Deliver(lib, e, key, at, ok);
            && key in f.sessions && f.sessions[key] == t && f.tombstones == e.tombstones
            && Payloads(f.log, key) == Payloads(e.log, key) + if r.Ok? then [r.value] else []
  {
    hide DecodeAndFinish, DoFinishing, Payloads;
    FinishingEffect(lib, e, key, at);
    var e1, r := DoFinishing(lib, e, key, at), DecodeAndFinish(lib, e.sessions[key]).1;
    PayloadsAppend(e.log, Ending(key, r, at), key);
    if r.Ok? {
      PayloadsAppend(e1.log, Sent(SessionReconstructed(key), ok(|e1.log|)), key);
    }
  }

  /** Delivery of a decoding session. */
  lemma DeliverBecomes(lib: Lib, e: Engine, key: Key, at: nat, ok: Oracle)
    requires key in e.sessions && e.sessions[key].phase.Decoding? && key !in e.tombstones
    ensures Became(lib, e, e.sessions[key], Deliver(lib, e, key, at, ok), key, Finished(lib, e.sessions[key]))
  {
    hide Payloads, DecodeAndFinish, Deliver, Paid, CountSome;
    FinishOutcome(lib, e.sessions[key]);
    DeliverEffect(lib, e, key, at, ok);
  }

  lemma FinishOutcome(lib: Lib, s: Session)
    requires s.phase.Decoding?
    ensures var (t, r) := DecodeAndFinish(lib, s);
            && t.Terminal() && (r.Ok? <==> t.phase.Reconstructed?)
            && Paid(lib, s, t) == if r.Ok? then [r.value] else []
  {
    hide Decode, ChunkPairs;
  }

  /** A chunk for a live session: take it, and decode if it completes the session. */
  lemma ChunkBecomes(lib: Lib, e: Engine, key: Key, idx: nat, data: Bytes, t: Ticks, ok: Oracle)
    requires Watching(e, key)
    ensures var s := e.sessions[key];
            Became(lib, e, s, OnChunk(lib, e, key, idx, data, t, ok), key, Finished(lib, Take(lib, s, idx, data).0))
  {
    hide Take, Completes, Payloads, Drain, Hungry, Finished, Paid, Deliver;
    var s := e.sessions[key];
    var taken := Take(lib, s, idx, data).0;
    TakenPhase(lib, e, key, idx, data);
    var e1 := DoTaking(lib, e, key, idx, data);
    assert e1.sessions[key] == taken && e1.tombstones == e.tombstones && e1.log == e.log;
    hide DoTaking;
    DrainKeepsBody(e1, key, ok);
    var e2 := Drain(e1, key, ok).0;
    if Completes(lib, e, key, idx, data) {
      DeliverBecomes(lib, e2, key, t.second, ok);
      FinishedBody(lib, taken, e2.sessions[key]);
      PaidBody(lib, e2.sessions[key], Finished(lib, e2.sessions[key]), taken, Finished(lib, taken));
      PaidFrom(lib, s, taken, Finished(lib, taken));
    } else {
      NotDone(lib, taken);
      HungryBody(taken, e2.sessions[key]);
      NothingPaid(lib, s, taken);
    }
  }

  lemma PaidFrom(lib: Lib, s: Session, s': Session, t: Session)
    requires !s.Terminal() && !s'.Terminal()
    ensures Paid(lib, s, t) == Paid(lib, s', t)
  {
    hide Reconstruct;
  }

  lemma NothingPaid(lib: Lib, s: Session, t: Session)
    requires t.phase == s.phase
    ensures Paid(lib, s, t) == []
  {
    hide Reconstruct;
  }

  lemma NotDone(lib: Lib, s: Session)
    requires !s.phase.Decoding?
    ensures Finished(lib, s) == s
  {
  }

  /** Taking a chunk either completes a consuming session or leaves the phase. */
  lemma TakenPhase(lib: Lib, e: Engine, key: Key, idx: nat, data: Bytes)
    requires Watching(e, key)
    ensures var s := e.sessions[key];
            var t := Take(lib, s, idx, data).0;
            && Hungry(t)
            && (if Completes(lib, e, key, idx, data) then s.phase.Consuming? && t.phase.Decoding? else t.phase == s.phase)
  {
    var s := e.sessions[key];
    TakeCompletes(lib, s, idx, data);
    hide TakeChunk, Hungry;
  }

  lemma PieceIs(lib: Lib, e: Engine, inp: Input, key: Key)
    requires IsPiece(inp, key)
    ensures Handled(lib, e, inp) == OnChunk(lib, e, key, inp.event.idx, inp.event.data, inp.ticks, inp.ok)
  {
    hide OnChunk;
  }

  lemma EagerStep(lib: Lib, s: Session, xs: seq<Input>, key: Key)
    requires xs != [] && IsPiece(xs[0], key)
    ensures Eager(lib, s, Pieces(xs, key))
         == Eager(lib, Finished(lib, Take(lib, s, xs[0].event.idx, xs[0].event.data).0), Pieces(xs[1..], key))
  {
    hide Take, Finished;
    var c := Piece(xs[0].event.idx, xs[0].event.data);
    assert Pieces(xs, key)[0] == c && Pieces(xs, key)[1..] == Pieces(xs[1..], key);
  }

  lemma StepTerminal(lib: Lib, s: Session, idx: nat, data: Bytes)
    ensures var t := Finished(lib, Take(lib, s, idx, data).0);
            (s.Terminal() ==> t.Terminal()) && !t.phase.Decoding?
  {
    hide TakeChunk, Reconstruct;
  }

  // ---- Events that are not about the message ----

  const QUIET := Mode(false, false, false)

  /** The live session is, up to its planner, as it was in `e`, and delivered nothing since. */
  ghost predicate Undisturbed(e: Engine, f: Engine, key: Key) {
    && Base(f) && key in e.sessions && Watching(f, key) && SameBody(e.sessions[key], f.sessions[key])
    && Payloads(f.log, key) == Payloads(e.log, key)
  }

  lemma NoDelivery(lib: Lib, inp: Input, m: Mode, e: Engine, a: Act, key: Key)
    requires Allowed(lib, inp, m, e, a) && (key in e.sessions ==> !e.sessions[key].phase.Decoding?)
    ensures Payloads(Do(lib, e, a).log, key) == Payloads(e.log, key)
  {
    hide Do, EventOf, Allowed, Payloads;
    LogOf(lib, e, a);
    var x := EventOf(lib, e, a);
    if x.Some? {
      PayloadsAppend(e.log, x.value, key);
      if x.value.Delivered? { DeliveryOf(lib, inp, m, e, a, x.value); }
    }
  }

  lemma ChangedBody(lib: Lib, s: Session, c: Change)
    requires !c.Fed? && !c.Ended?
    ensures SameBody(s, Changed(lib, s, c))
  {
    PollCore(s);
    hide Poll, Planners.RemovePeer;
  }

  lemma NotFed(lib: Lib, inp: Input, m: Mode, e: Engine, a: Act, key: Key)
    requires Allowed(lib, inp, m, e, a) && !Feeds(inp, key) && key in e.sessions && !e.sessions[key].phase.Decoding?
    ensures !ChangeOf(e, a, key).Fed? && !ChangeOf(e, a, key).Ended? && !(a.Creating? && a.key == key)
  {
    hide Ready, RelayStrategy, Engine.Opened, Engine.Subscribers;
  }

  lemma UndisturbedKept(lib: Lib, inp: Input, e0: Engine, e: Engine, a: Act, key: Key)
    requires Undisturbed(e0, e, key) && GoodInput(inp) && !Feeds(inp, key) && Allowed(lib, inp, QUIET, e, a)
    ensures Undisturbed(e0, Do(lib, e, a), key)
  {
    assert !a.Cleaning? by { hide Base, Do, NewSession, Ready; }
    hide Base, Do, GoodInput, Allowed, Feeds, Payloads, Changed, ChangeOf, Hungry;
    BaseKept(lib, inp, QUIET, e, a);
    NotFed(lib, inp, QUIET, e, a, key);
    SessionsOf(lib, e, a, key);
    ChangedBody(lib, e.sessions[key], ChangeOf(e, a, key));
    HungryBody(e.sessions[key], Changed(lib, e.sessions[key], ChangeOf(e, a, key)));
    NoDelivery(lib, inp, QUIET, e, a, key);
    TombstonesOf(lib, e, a);
  }

  lemma AsideUndisturbed(lib: Lib, inp: Input, e: Engine, key: Key)
    requires Base(e) && Watching(e, key) && inp.Net? && !Feeds(inp, key)
    ensures Undisturbed(e, Handled(lib, e, inp), key)
  {
    hide Base, Do, GoodInput, Allowed, Feeds, Payloads, Hungry, HandleEvent;
    var I := (x: Engine) => Undisturbed(e, x, key);
    assert GoodInput(inp) by { NetIsGood(inp); }
    forall x: Engine, a: Act | I(x) && Allowed(lib, inp, QUIET, x, a)
      ensures I(Do(lib, x, a))
    {
      UndisturbedKept(lib, inp, e, x, a, key);
    }
    assert I(e);
    assert Preserved(lib, inp, QUIET, I);
    assert Runs(lib, inp, QUIET, I, e);
    hide Preserved;
    HandleEventKeeps(lib, inp, QUIET, I, e);
  }

  lemma NetIsGood(inp: Input)
    requires inp.Net?
    ensures GoodInput(inp)
  {
  }

  /** Nothing is known of the message but these parked chunks, and its channel is as it was in `e`. */
  ghost predicate Unopened(e: Engine, f: Engine, key: Key) {
    && Base(f) && key !in f.sessions && key !in f.tombstones
    && f.Buffer(key) == e.Buffer(key) && (key in f.parked <==> key in e.parked)
    && Payloads(f.log, key) == Payloads(e.log, key) && SameHost(e, f, key.channel)
  }

  lemma BufferOf(lib: Lib, inp: Input, m: Mode, e: Engine, a: Act, key: Key)
    requires Allowed(lib, inp, m, e, a) && !Feeds(inp, key) && !a.Cleaning?
    ensures var f := Do(lib, e, a); f.Buffer(key) == e.Buffer(key) && (key in f.parked <==> key in e.parked)
    ensures !(a.Creating? && a.key == key && inp.Net?)
  {
    hide Do, Ready, RelayStrategy, Engine.Opened;
    if a.Parking? || a.Unparking? {
      assert a.key != key;
      DoIs(lib, e, a);
    } else {
      ParkedOf(lib, e, a);
    }
  }

  lemma UnopenedKept(lib: Lib, inp: Input, e0: Engine, e: Engine, a: Act, key: Key)
    requires Unopened(e0, e, key) && inp.Net? && !Feeds(inp, key) && Allowed(lib, inp, QUIET, e, a)
    ensures Unopened(e0, Do(lib, e, a), key)
  {
    assert !a.Cleaning? by { hide Base, Do, NewSession, Ready; }
    hide Base, Do, GoodInput, Allowed, Feeds, Payloads, Engine.Buffer;
    NetIsGood(inp);
    BaseKept(lib, inp, QUIET, e, a);
    BufferOf(lib, inp, QUIET, e, a, key);
    KeysOf(lib, e, a, key);
    NoDelivery(lib, inp, QUIET, e, a, key);
    TombstonesOf(lib, e, a);
    HostOf(lib, e, a, key);
  }

  lemma AsideUnopened(lib: Lib, inp: Input, e: Engine, key: Key)
    requires Base(e) && key !in e.sessions && key !in e.tombstones && inp.Net? && !Feeds(inp, key)
    ensures Unopened(e, Handled(lib, e, inp), key)
  {
    hide Base, Do, Allowed, Feeds, Payloads, HandleEvent, Engine.Buffer;
    var I := (x: Engine) => Unopened(e, x, key);
    forall x: Engine, a: Act | I(x) && Allowed(lib, inp, QUIET, x, a)
      ensures I(Do(lib, x, a))
    {
      UnopenedKept(lib, inp, e, x, a, key);
    }
    assert I(e);
    assert Preserved(lib, inp, QUIET, I);
    assert Runs(lib, inp, QUIET, I, e);
    hide Preserved;
    HandleEventKeeps(lib, inp, QUIET, I, e);
  }

  // ---- Receiving with a live session ----

  lemma HandledBase(lib: Lib, e: Engine, inp: Input)
    requires Base(e) && inp.Net?
    ensures Base(Handled(lib, e, inp))
  {
    hide Base, GoodInput, Preserved, HandleEvent;
    NetIsGood(inp);
    BasePreserved(lib, inp);
    assert Runs(lib, inp, PLAIN, e => Base(e), e);
    HandleEventKeeps(lib, inp, PLAIN, e => Base(e), e);
  }

  lemma NothingReceived(lib: Lib, e: Engine, key: Key)
    requires Watching(e, key)
    ensures Became(lib, e, e.sessions[key], Receive(lib, e, []), key, Eager(lib, e.sessions[key], Pieces([], key)))
  {
    hide Payloads, Hungry;
    NothingPaid(lib, e.sessions[key], e.sessions[key]);
  }

  /** The session is fed exactly the message's chunks among the events. */
  lemma {:induction false} ReceiveBecomes(lib: Lib, e: Engine, key: Key, xs: seq<Input>)
    requires Base(e) && Watching(e, key) && Around(xs, key)
    ensures Became(lib, e, e.sessions[key], Receive(lib, e, xs), key, Eager(lib, e.sessions[key], Pieces(xs, key)))
    decreases |xs|, 1
  {
    hide Base, OnChunk, Take, Finished, Payloads, Eager, Paid, Hungry, Handled;
    if xs == [] {
      hide Receive, Pieces;
      NothingReceived(lib, e, key);
    } else {
      var s, f := e.sessions[key], Handled(lib, e, xs[0]);
      HandledBase(lib, e, xs[0]);
      if IsPiece(xs[0], key) {
        var ev := xs[0].event;
        PieceIs(lib, e, xs[0], key);
        ChunkBecomes(lib, e, key, ev.idx, ev.data, xs[0].ticks, xs[0].ok);
        EagerStep(lib, s, xs, key);
        StepTerminal(lib, s, ev.idx, ev.data);
        FedThen(lib, e, f, key, xs, Finished(lib, Take(lib, s, ev.idx, ev.data).0));
      } else {
        assert Pieces(xs, key) == Pieces(xs[1..], key);
        AsideUndisturbed(lib, xs[0], e, key);
        ReceiveBecomes(lib, f, key, xs[1..]);
        hide Receive, Pieces, Watching;
        EagerBody(lib, s, f.sessions[key], Pieces(xs[1..], key));
        PaidBody(lib, f.sessions[key], Eager(lib, f.sessions[key], Pieces(xs[1..], key)), s,
                 Eager(lib, s, Pieces(xs[1..], key)));
      }
    }
  }

  lemma {:induction false} FedThen(lib: Lib, e: Engine, f: Engine, key: Key, xs: seq<Input>, t: Session)
    requires key in e.sessions && Became(lib, e, e.sessions[key], f, key, t) && Base(f) && Around(xs, key) && xs != []
    requires !t.phase.Decoding? && (e.sessions[key].Terminal() ==> t.Terminal())
    requires f == Handled(lib, e, xs[0])
    ensures Became(lib, e, e.sessions[key], Receive(lib, e, xs), key, Eager(lib, t, Pieces(xs[1..], key)))
    decreases |xs|, 0
  {
    hide Base, Payloads, Pieces, Eager, Paid, Hungry, Handled;
    ReceiveBecomes(lib, f, key, xs[1..]);
    hide Receive;
    EagerBody(lib, t, f.sessions[key], Pieces(xs[1..], key));
    EagerPays(lib, e.sessions[key], t, f.sessions[key], Pieces(xs[1..], key));
  }

  /** Payments add up along a feeding. */
  lemma EagerPays(lib: Lib, s: Session, t: Session, t': Session, cs: seq<Piece>)
    requires SameBody(t, t') && !t.phase.Decoding? && (s.Terminal() ==> t.Terminal())
    ensures Paid(lib, s, t) + Paid(lib, t', Eager(lib, t', cs)) == Paid(lib, s, Eager(lib, t, cs))
  {
    EagerBody(lib, t, t', cs);
    PaidBody(lib, t', Eager(lib, t', cs), t, Eager(lib, t, cs));
    if !t.phase.Consuming? {
      DoneTakesNothing(lib, t, cs);
    }
    hide Reconstruct, Eager;
  }

  // ---- Parking ----

  /** Nothing is known of the message but its parked chunks, which are those of `e` followed by `cs`. */
  ghost predicate Parked(e: Engine, f: Engine, key: Key, cs: seq<Piece>) {
    && Base(f) && key !in f.sessions && key !in f.tombstones
    && ParkedPieces(f.Buffer(key)) == ParkedPieces(e.Buffer(key)) + cs
    && Payloads(f.log, key) == Payloads(e.log, key) && SameHost(e, f, key.channel)
  }

  lemma ParkOne(e: Engine, key: Key, c: ParkedChunk)
    requires Base(e) && key !in e.sessions && key !in e.tombstones && |e.Buffer(key)| < MAX_PARKED
    ensures Parked(e, DoParking(e, key, c), key, [Piece(c.idx, c.data)])
  {
    ParkingBase(e, key, c);
    hide Base, Payloads;
    var f := DoParking(e, key, c);
    assert f.Buffer(key) == e.Buffer(key) + [c];
    assert ParkedPieces(f.Buffer(key)) == ParkedPieces(e.Buffer(key)) + [Piece(c.idx, c.data)];
  }

  lemma ParkedTrans(e: Engine, f: Engine, g: Engine, key: Key, xs: seq<Piece>, ys: seq<Piece>)
    requires Parked(e, f, key, xs) && Parked(f, g, key, ys)
    ensures Parked(e, g, key, xs + ys)
  {
    hide Base, ParkedPieces, Engine.Buffer, Payloads;
  }

  lemma UnopenedParked(e: Engine, f: Engine, key: Key)
    requires Unopened(e, f, key)
    ensures Parked(e, f, key, [])
  {
    hide Base, Payloads;
    assert ParkedPieces(e.Buffer(key)) + [] == ParkedPieces(e.Buffer(key));
  }

  lemma NothingParked(e: Engine, key: Key)
    requires Base(e) && key !in e.sessions && key !in e.tombstones
    ensures Parked(e, e, key, [])
  {
    hide Base, Payloads;
    assert ParkedPieces(e.Buffer(key)) + [] == ParkedPieces(e.Buffer(key));
  }

  /** One event before the open: a chunk of the message is parked, anything else leaves the parked chunks. */
  lemma ParkStep(lib: Lib, e: Engine, inp: Input, key: Key)
    requires Base(e) && key !in e.sessions && key !in e.tombstones && |e.Buffer(key)| < MAX_PARKED
    requires Around([inp], key)
    ensures Parked(e, Handled(lib, e, inp), key, Pieces([inp], key))
  {
    assert [inp][0].Net? && [inp][1..] == [];
    assert Pieces([inp], key) == if IsPiece(inp, key) then [Piece(inp.event.idx, inp.event.data)] + [] else [] + [];
    hide Base, Parked, DoParking, Handled, Pieces, Engine.Buffer;
    if IsPiece(inp, key) {
      PieceIs(lib, e, inp, key);
      ParkOne(e, key, ParkedChunk(inp.event.idx, inp.event.data, inp.ticks.first));
    } else {
      AsideUnopened(lib, inp, e, key);
      UnopenedParked(e, Handled(lib, e, inp), key);
    }
  }

  lemma ParkedSize(e: Engine, f: Engine, key: Key, cs: seq<Piece>)
    requires Parked(e, f, key, cs)
    ensures Base(f) && key !in f.sessions && key !in f.tombstones && |f.Buffer(key)| == |e.Buffer(key)| + |cs|
  {
    hide Base, Payloads;
    assert |ParkedPieces(f.Buffer(key))| == |f.Buffer(key)|;
  }

  /** Before the open, the message's chunks among the events are parked in order. */
  lemma {:induction false} ReceiveParks(lib: Lib, e: Engine, key: Key, xs: seq<Input>)
    requires Base(e) && key !in e.sessions && key !in e.tombstones && Around(xs, key)
    requires |e.Buffer(key)| + |Pieces(xs, key)| <= MAX_PARKED
    ensures Parked(e, Receive(lib, e, xs), key, Pieces(xs, key))
    decreases |xs|
  {
    hide Base, Parked, Handled, Engine.Buffer;
    if xs == [] {
      NothingParked(e, key);
    } else {
      var f := Handled(lib, e, xs[0]);
      assert [xs[0]] + xs[1..] == xs;
      PiecesConcat([xs[0]], xs[1..], key);
      if |e.Buffer(key)| < MAX_PARKED {
        ParkStep(lib, e, xs[0], key);
      } else {
        hide Pieces;
        FullPark(lib, e, xs[0], key);
      }
      hide Pieces;
      ParkedSize(e, f, key, Pieces([xs[0]], key));
      ReceiveParks(lib, f, key, xs[1..]);
      ParkedTrans(e, f, Receive(lib, f, xs[1..]), key, Pieces([xs[0]], key), Pieces(xs[1..], key));
    }
  }

  /** With a full buffer no further chunk comes, only other events. */
  lemma FullPark(lib: Lib, e: Engine, inp: Input, key: Key)
    requires Base(e) && key !in e.sessions && key !in e.tombstones && Around([inp], key) && Pieces([inp], key) == []
    ensures Parked(e, Handled(lib, e, inp), key, Pieces([inp], key))
  {
    assert [inp][0].Net? && [inp][1..] == [];
    assert !IsPiece(inp, key);
    hide Base, Parked, Handled, Pieces;
    AsideUnopened(lib, inp, e, key);
    UnopenedParked(e, Handled(lib, e, inp), key);
  }

  // ---- Opening with parked chunks ----

  lemma {:induction false} TakeAllIsTakeSeq(lib: Lib, e: Engine, key: Key, chunks: seq<ParkedChunk>)
    requires key in e.sessions
    ensures var f := TakeAll(lib, e, key, chunks).0;
            && f == e.(sessions := f.sessions) && key in f.sessions
            && f.sessions[key] == TakeSeq(lib, e.sessions[key], ParkedPieces(chunks))
    decreases |chunks|
  {
    hide Take;
    if chunks != [] {
      var c := chunks[0];
      assert ParkedPieces(chunks)[0] == Piece(c.idx, c.data) && ParkedPieces(chunks)[1..] == ParkedPieces(chunks[1..]);
      TakeAllIsTakeSeq(lib, DoTaking(lib, e, key, c.idx, c.data), key, chunks[1..]);
    }
  }

  lemma ReplayBecomes(lib: Lib, e: Engine, key: Key, at: nat, ok: Oracle)
    requires key in e.sessions && key !in e.tombstones && e.sessions[key].phase.Consuming? && Hungry(e.sessions[key])
    ensures Became(lib, e, e.sessions[key], Replay(lib, e, key, at, ok), key,
                   Eager(lib, e.sessions[key], ParkedPieces(e.Buffer(key))))
  {
    hide Hungry, Payloads, Paid, TakeAll, Drain, Deliver, Eager, Finished, TakeSeq, ParkedPieces;
    var s, cs := e.sessions[key], ParkedPieces(e.Buffer(key));
    if key !in e.parked {
      EmptyReplay(lib, e, key);
    } else {
      var e0 := DoUnparking(e, key);
      TakeAllIsTakeSeq(lib, e0, key, e.parked[key]);
      TakeAllRest(lib, e0, key, e.parked[key]);
      EagerIsLazy(lib, s, cs);
      var (e1, complete) := TakeAll(lib, e0, key, e.parked[key]);
      assert e1.log == e.log && e1.tombstones == e.tombstones;
      hide DoUnparking;
      var t := e1.sessions[key];
      assert t == TakeSeq(lib, s, cs);
      DrainKeepsBody(e1, key, ok);
      var e2 := Drain(e1, key, ok).0;
      if complete {
        DeliverBecomes(lib, e2, key, at, ok);
        FinishedBody(lib, t, e2.sessions[key]);
        PaidBody(lib, e2.sessions[key], Finished(lib, e2.sessions[key]), t, Finished(lib, t));
        PaidFrom(lib, s, t, Finished(lib, t));
      } else {
        NotDone(lib, t);
        HungryBody(t, e2.sessions[key]);
        NothingPaid(lib, s, t);
      }
    }
  }

  lemma EmptyReplay(lib: Lib, e: Engine, key: Key)
    requires Watching(e, key) && key !in e.parked
    ensures Became(lib, e, e.sessions[key], e, key, Eager(lib, e.sessions[key], ParkedPieces(e.Buffer(key))))
  {
    hide Payloads, Hungry;
    NothingPaid(lib, e.sessions[key], e.sessions[key]);
    assert ParkedPieces(e.Buffer(key)) == [];
  }

  /** An accepted open creates the session and feeds it the parked chunks. */
  lemma OpenBecomes(lib: Lib, e: Engine, key: Key, preamble: Bytes, t: Ticks, ok: Oracle, fib: nat -> nat)
    requires key !in e.sessions && key !in e.tombstones && RelayStrategy(lib, e, key, preamble, fib).Some?
    ensures var s := Session(Consuming, RelayStrategy(lib, e, key, preamble, fib).value);
            Became(lib, e, s, OnOpen(lib, e, key, preamble, t, ok, fib), key,
                   Eager(lib, s, ParkedPieces(e.Buffer(key))))
  {
    hide RelayStrategy, Payloads, Paid, Drain, Replay, Eager, ParkedPieces, CountSome;
    RelayEmpty(lib, e, key, preamble, fib);
    var s := Session(Consuming, RelayStrategy(lib, e, key, preamble, fib).value);
    assert Hungry(s);
    hide Hungry;
    var e1 := DoCreating(e, key, s, preamble, t.first);
    PayloadsAppend(e.log, Created(key, false, t.first), key);
    DrainKeepsBody(e1, key, ok);
    var e2 := Drain(e1, key, ok).0;
    HungryBody(s, e2.sessions[key]);
    ReplayBecomes(lib, e2, key, t.second, ok);
    assert e2.Buffer(key) == e.Buffer(key);
    var cs := ParkedPieces(e.Buffer(key));
    EagerBody(lib, s, e2.sessions[key], cs);
    PaidBody(lib, e2.sessions[key], Eager(lib, e2.sessions[key], cs), s, Eager(lib, s, cs));
  }

  // ---- Arrival order ----

  lemma OpenBase(lib: Lib, e: Engine, key: Key, preamble: Bytes, t: Ticks, ok: Oracle, fib: nat -> nat, p: PeerId)
    requires Base(e)
    ensures Base(OnOpen(lib, e, key, preamble, t, ok, fib))
  {
    hide Base, OnOpen;
    HandledBase(lib, e, Net(SessionOpenIn(p, key, preamble), t, ok, fib));
  }

  /** One open followed by events: the session is fed what was parked and then the message's chunks. */
  lemma OpenThenReceive(lib: Lib, e: Engine, key: Key, preamble: Bytes, t: Ticks, ok: Oracle, fib: nat -> nat,
                        xs: seq<Input>)
    requires Base(e) && Around(xs, key)
    requires key !in e.sessions && key !in e.tombstones && RelayStrategy(lib, e, key, preamble, fib).Some?
    ensures var s := Session(Consuming, RelayStrategy(lib, e, key, preamble, fib).value);
            Became(lib, e, s, Receive(lib, OnOpen(lib, e, key, preamble, t, ok, fib), xs), key,
                   Eager(lib, s, ParkedPieces(e.Buffer(key)) + Pieces(xs, key)))
  {
    hide Base, RelayStrategy, Hungry, Payloads, Paid, OnOpen, Receive, Eager, ParkedPieces, Pieces, Around;
    var s := Session(Consuming, RelayStrategy(lib, e, key, preamble, fib).value);
    var cs, f := ParkedPieces(e.Buffer(key)), OnOpen(lib, e, key, preamble, t, ok, fib);
    OpenBecomes(lib, e, key, preamble, t, ok, fib);
    OpenBase(lib, e, key, preamble, t, ok, fib, 0);
    ReceiveBecomes(lib, f, key, xs);
    var u := Eager(lib, s, cs);
    EagerConcat(lib, s, cs, Pieces(xs, key));
    EagerBody(lib, u, f.sessions[key], Pieces(xs, key));
    EagerPays(lib, s, u, f.sessions[key], Pieces(xs, key));
  }

  /** The relay of a channel that kept its code parameters starts with the same body. */
  lemma SameRelay(lib: Lib, e: Engine, f: Engine, key: Key, preamble: Bytes, fib: nat -> nat)
    requires SameHost(e, f, key.channel) && RelayStrategy(lib, e, key, preamble, fib).Some?
    ensures RelayStrategy(lib, f, key, preamble, fib).Some?
    ensures SameBody(Session(Consuming, RelayStrategy(lib, e, key, preamble, fib).value),
                     Session(Consuming, RelayStrategy(lib, f, key, preamble, fib).value))
  {
    hide NewRelay;
  }

  /**
   * Arrival order of the open does not matter: with at most 32 chunks of the message before it, any events about other
   * messages and peers in between and no sweep, parking and replaying gives the same phase, preamble, accepted chunks and
   * deliveries as receiving the open first.
   */
  lemma OpenOrderIsImmaterial(lib: Lib, e: Engine, key: Key, preamble: Bytes, t: Ticks, ok: Oracle, u: Ticks, go: Oracle,
                              fib: nat -> nat, early: seq<Input>, late: seq<Input>)
    requires Base(e) && key !in e.sessions && key !in e.tombstones && key !in e.parked
    requires Around(early, key) && Around(late, key) && |Pieces(early, key)| <= MAX_PARKED
    requires RelayStrategy(lib, e, key, preamble, fib).Some?
    ensures var viaParking := OnOpen(lib, Receive(lib, e, early), key, preamble, t, ok, fib);
            var openFirst := OnOpen(lib, e, key, preamble, u, go, fib);
            var f, g := Receive(lib, viaParking, late), Receive(lib, openFirst, early + late);
            && key in f.sessions && key in g.sessions && SameBody(f.sessions[key], g.sessions[key])
            && Payloads(f.log, key) == Payloads(g.log, key)
  {
    hide Base, RelayStrategy, Hungry, Payloads, Paid, OnOpen, Receive, Eager, Pieces;
    ReceiveParks(lib, e, key, early);
    var e0 := Receive(lib, e, early);
    SameRelay(lib, e, e0, key, preamble, fib);
    assert ParkedPieces(e.Buffer(key)) == [];
    PiecesConcat(early, late, key);
    var cs := Pieces(early, key) + Pieces(late, key);
    assert [] + cs == cs && [] + Pieces(early, key) == Pieces(early, key);
    hide ParkedPieces;
    OpenThenReceive(lib, e0, key, preamble, t, ok, fib, late);
    OpenThenReceive(lib, e, key, preamble, u, go, fib, early + late);
    var s, s0 := Session(Consuming, RelayStrategy(lib, e, key, preamble, fib).value),
                 Session(Consuming, RelayStrategy(lib, e0, key, preamble, fib).value);
    EagerBody(lib, s, s0, cs);
    PaidBody(lib, s, Eager(lib, s, cs), s0, Eager(lib, s0, cs));
  }

  lemma NewRelayHoldsNothing(lib: Lib, e: Engine, key: Key, preamble: Bytes, fib: nat -> nat)
    requires RelayStrategy(lib, e, key, preamble, fib).Some?
    ensures var s := Session(Consuming, RelayStrategy(lib, e, key, preamble, fib).value);
            Relaying(s) && HeldIndices(s.strategy.chunks) == {}
  {
  }

  /** Whether a relay session ends complete does not depend on the order in which its chunks arrive after the open. */
  lemma ChunkOrderIsImmaterial(lib: Lib, e: Engine, key: Key, preamble: Bytes, t: Ticks, ok: Oracle, fib: nat -> nat,
                               xs: seq<Input>, ys: seq<Input>)
    requires Base(e) && Around(xs, key) && Around(ys, key)
    requires key !in e.sessions && key !in e.tombstones && RelayStrategy(lib, e, key, preamble, fib).Some?
    requires multiset(Pieces(xs, key)) == multiset(Pieces(ys, key))
    ensures var o := OnOpen(lib, e, key, preamble, t, ok, fib);
            var f, g := Receive(lib, o, xs), Receive(lib, o, ys);
            && key in f.sessions && key in g.sessions
            && (f.sessions[key].Terminal() <==> g.sessions[key].Terminal())
  {
    hide Base, RelayStrategy, Hungry, Payloads, Paid, OnOpen, Receive, Eager, ParkedPieces, Pieces, Relaying, HeldIndices;
    NewRelayHoldsNothing(lib, e, key, preamble, fib);
    OpenThenReceive(lib, e, key, preamble, t, ok, fib, xs);
    OpenThenReceive(lib, e, key, preamble, t, ok, fib, ys);
    var s := Session(Consuming, RelayStrategy(lib, e, key, preamble, fib).value);
    var cs := ParkedPieces(e.Buffer(key));
    assert multiset(cs + Pieces(xs, key)) == multiset(cs + Pieces(ys, key));
    CompletionIgnoresOrder(lib, s, cs + Pieces(xs, key), cs + Pieces(ys, key));
  }
}
