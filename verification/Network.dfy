/** Any number of engines over a network that drops, delays, duplicates, reorders and injects: end-to-end integrity. */
module Network {
  import opened Basics
  import opened Coding
  import opened Strategies
  import opened Sessions
  import opened Engines
  import opened EngineSteps
  import opened EngineBase
  import opened EngineRuns
  import opened EngineFacts
  import opened Arrivals
  import EngineArrivals

  // ---- Publications ----

  /** What was published under a key: the payload, the code parameters and the preamble's bytes. */
  datatype Publication = Publication(payload: Bytes, cfg: RsConfig, bytes: Bytes)

  type Book = map<Key, Publication>

  ghost predicate Encodable(lib: Lib, pub: Publication) {
    (pub.cfg.chunkLen > 0 || pub.cfg.dataShards > 0) && Encode(lib, pub.payload, pub.cfg).Ok?
  }

  ghost function Pre(lib: Lib, pub: Publication): Preamble
    requires Encodable(lib, pub)
  {
    Encode(lib, pub.payload, pub.cfg).value.0
  }

  ghost function Shards(lib: Lib, pub: Publication): seq<Bytes>
    requires Encodable(lib, pub)
  {
    Encode(lib, pub.payload, pub.cfg).value.1
  }

  /** Every publication encodes, and its preamble bytes parse back to the preamble they were made from. */
  ghost predicate GoodBook(lib: Lib, book: Book) {
    && HashIsFixedLength(lib) && RecoversFromAnyK(lib)
    && forall k | k in book :: Encodable(lib, book[k]) && lib.parse(book[k].bytes) == Some(Pre(lib, book[k]))
  }

  ghost predicate Unforgeable(lib: Lib, pub: Publication)
    requires Encodable(lib, pub)
  {
    AllUnforged(lib, Shards(lib, pub))
  }

  // ---- Faithful sessions, events and engines ----

  /**
   * The session carries the published preamble and only chunks that hash to its entries; it decodes only with enough
   * chunks, and never fails unless some other string has the hash of a published shard.
   */
  ghost predicate Faithful(lib: Lib, pub: Publication, s: Session)
    requires Encodable(lib, pub)
  {
    && s.strategy.preamble == Pre(lib, pub)
    && Hashed(lib, pub, s.strategy.chunks)
    && (s.phase.Decoding? ==> s.strategy.CanReconstruct())
    && (Unforgeable(lib, pub) ==> !s.phase.Failed?)
  }

  ghost predicate Hashed(lib: Lib, pub: Publication, chunks: seq<Option<Bytes>>)
    requires Encodable(lib, pub)
  {
    && |chunks| == |Shards(lib, pub)| == |Pre(lib, pub).hashes|
    && forall i | 0 <= i < |chunks| && chunks[i].Some? :: lib.sha(chunks[i].value) == Pre(lib, pub).hashes[i]
  }

  /** A delivered payload has the published length and hash, and is the published payload unless a shard is forged. */
  ghost predicate TruePayload(lib: Lib, pub: Publication, out: Bytes)
    requires Encodable(lib, pub)
  {
    && |out| == Pre(lib, pub).length && lib.sha(out) == Pre(lib, pub).hash
    && (Unforgeable(lib, pub) ==> out == pub.payload)
  }

  ghost predicate TrueChunk(lib: Lib, pub: Publication, i: nat, d: Bytes)
    requires Encodable(lib, pub)
  {
    i < |Shards(lib, pub)| == |Pre(lib, pub).hashes| && lib.sha(d) == Pre(lib, pub).hashes[i]
  }

  ghost predicate TrueEvent(lib: Lib, book: Book, x: Event)
    requires GoodBook(lib, book)
  {
    && (x.Delivered? ==> x.key in book && TruePayload(lib, book[x.key], x.payload))
    && (x.Sent? && x.msg.SessionOpen? ==> x.msg.key in book && x.msg.preamble == book[x.msg.key].bytes)
    && (x.Sent? && x.msg.Chunk? ==> x.msg.key in book && TrueChunk(lib, book[x.msg.key], x.msg.idx, x.msg.data))
  }

  ghost predicate TrueSession(lib: Lib, book: Book, e: Engine, k: Key)
    requires GoodBook(lib, book) && k in e.sessions
  {
    k in book && Faithful(lib, book[k], e.sessions[k]) && k in e.preambles && e.preambles[k] == book[k].bytes
  }

  ghost predicate TrueEngine(lib: Lib, book: Book, e: Engine)
    requires GoodBook(lib, book)
  {
    && Base(e)
    && (forall k | k in e.sessions :: TrueSession(lib, book, e, k))
    && (forall i | 0 <= i < |e.log| :: TrueEvent(lib, book, e.log[i]))
  }

  /** A strategy as the publisher's constructor builds it for this publication. */
  ghost predicate Publishes(lib: Lib, pub: Publication, s: Strategy)
    requires Encodable(lib, pub)
  {
    && Fresh(s) && s.preamble == Pre(lib, pub)
    && |s.chunks| == |Shards(lib, pub)|
    && forall i | 0 <= i < |s.chunks| :: s.chunks[i] == Some(Shards(lib, pub)[i])
  }

  /** Opens carry the published preamble, publishers publish what the book says; anything else is allowed. */
  ghost predicate Admissible(lib: Lib, book: Book, inp: Input)
    requires GoodBook(lib, book)
  {
    && (inp.Net? && inp.event.SessionOpenIn? ==>
          inp.event.key in book && inp.event.preamble == book[inp.event.key].bytes)
    && (inp.Publishing? ==>
          && inp.key in book && inp.preamble == book[inp.key].bytes
          && Publishes(lib, book[inp.key], inp.strategy))
  }

  // ---- Sessions ----

  lemma PublishedForm(lib: Lib, pub: Publication)
    requires HashIsFixedLength(lib) && RecoversFromAnyK(lib) && Encodable(lib, pub)
    ensures WellShaped(Pre(lib, pub))
    ensures |Shards(lib, pub)| == |Pre(lib, pub).hashes| == Pre(lib, pub).Total()
    ensures forall i | 0 <= i < |Shards(lib, pub)| :: Pre(lib, pub).hashes[i] == lib.sha(Shards(lib, pub)[i])
  {
    EncodeForm(lib, pub.payload, pub.cfg);
    EncodedShape(lib, pub.payload, ResolveShape(|pub.payload|, pub.cfg), Pre(lib, pub), Shards(lib, pub));
    hide Encode, RecoversFromAnyK;
  }

  lemma SameBodyFaithful(lib: Lib, pub: Publication, s: Session, t: Session)
    requires Encodable(lib, pub) && Faithful(lib, pub, s) && SameBody(s, t)
    ensures Faithful(lib, pub, t)
  {
    hide Encode, CountSome, Unforgeable;
  }

  lemma TakeFaithful(lib: Lib, pub: Publication, s: Session, idx: nat, data: Bytes)
    requires HashIsFixedLength(lib) && RecoversFromAnyK(lib) && Encodable(lib, pub) && Faithful(lib, pub, s)
    ensures Faithful(lib, pub, Take(lib, s, idx, data).0)
  {
    PublishedForm(lib, pub);
    hide Encode, CountSome, Unforgeable, RecoversFromAnyK, Pre, Shards, Encodable;
  }

  lemma {:induction false} PairsGenuine(chunks: seq<Option<Bytes>>, from: nat, shards: seq<Bytes>)
    requires from <= |chunks| && Agrees(chunks, shards)
    ensures var xs := ChunkPairs(chunks, from);
            && Genuine(xs, shards) && |xs| == CountSome(chunks[from..])
            && forall i | 0 <= i < |xs| :: xs[i].0 >= from
    decreases |chunks| - from
  {
    if from < |chunks| {
      PairsGenuine(chunks, from + 1, shards);
      CountStep(chunks, from);
      var rest := ChunkPairs(chunks, from + 1);
      if chunks[from].Some? {
        hide ChunkPairs, CountSome;
        GenuineCons((from, chunks[from].value), rest, shards);
        PairsStep(chunks, from);
      } else {
        PairsStep(chunks, from);
        hide ChunkPairs, CountSome, Genuine;
      }
    }
  }

  lemma CountStep(chunks: seq<Option<Bytes>>, from: nat)
    requires from < |chunks|
    ensures CountSome(chunks[from..]) == CountSome(chunks[from + 1..]) + if chunks[from].Some? then 1 else 0
  {
    assert chunks[from..][1..] == chunks[from + 1..];
  }

  lemma PairsStep(chunks: seq<Option<Bytes>>, from: nat)
    requires from < |chunks|
    ensures ChunkPairs(chunks, from) == if chunks[from].Some? then [(from, chunks[from].value)] + ChunkPairs(chunks, from + 1)
                                        else ChunkPairs(chunks, from + 1)
  {
  }

  lemma GenuineCons(x: IndexedShard, xs: seq<IndexedShard>, shards: seq<Bytes>)
    requires Genuine(xs, shards) && x.0 < |shards| && x.1 == shards[x.0] && forall i | 0 <= i < |xs| :: xs[i].0 > x.0
    ensures Genuine([x] + xs, shards)
  {
  }

  lemma HashedAgrees(lib: Lib, pub: Publication, chunks: seq<Option<Bytes>>)
    requires HashIsFixedLength(lib) && RecoversFromAnyK(lib) && Encodable(lib, pub)
    requires Hashed(lib, pub, chunks) && Unforgeable(lib, pub)
    ensures Agrees(chunks, Shards(lib, pub))
  {
    PublishedForm(lib, pub);
    hide Encode, RecoversFromAnyK, Encodable, Pre, Shards;
    forall i | 0 <= i < |chunks| && chunks[i].Some?
      ensures chunks[i].value == Shards(lib, pub)[i]
    {
      assert Unforged(lib, Shards(lib, pub)[i]);
    }
  }

  lemma ReconstructTrue(lib: Lib, pub: Publication, s: Session)
    requires HashIsFixedLength(lib) && RecoversFromAnyK(lib) && Encodable(lib, pub) && Faithful(lib, pub, s)
    requires s.phase.Decoding?
    ensures var r := Reconstruct(lib, s.strategy);
            && (Unforgeable(lib, pub) ==> r.Ok?)
            && (r.Ok? ==> TruePayload(lib, pub, r.value))
  {
    var r := Reconstruct(lib, s.strategy);
    if r.Ok? { DecodeIsSound(lib, s.strategy.preamble, ChunkPairs(s.strategy.chunks, 0)); }
    if Unforgeable(lib, pub) {
      HashedAgrees(lib, pub, s.strategy.chunks);
      PairsGenuine(s.strategy.chunks, 0, Shards(lib, pub));
      assert s.strategy.chunks[0..] == s.strategy.chunks;
      KOfNRoundTrip(lib, pub.payload, pub.cfg, ChunkPairs(s.strategy.chunks, 0));
    }
    hide Encode, Decode, ChunkPairs, RecoversFromAnyK, CountSome;
  }

  lemma FinishFaithful(lib: Lib, pub: Publication, s: Session)
    requires HashIsFixedLength(lib) && RecoversFromAnyK(lib) && Encodable(lib, pub) && Faithful(lib, pub, s)
    ensures var (t, r) := DecodeAndFinish(lib, s);
            Faithful(lib, pub, t) && (r.Ok? ==> TruePayload(lib, pub, r.value))
  {
    if s.phase.Decoding? { ReconstructTrue(lib, pub, s); }
    hide Encode, Reconstruct, CountSome, Unforgeable, RecoversFromAnyK, TruePayload, Hashed;
  }

  // ---- Updates ----

  lemma FaithfulOf(lib: Lib, pub: Publication, s: Session, c: Change)
    requires HashIsFixedLength(lib) && RecoversFromAnyK(lib) && Encodable(lib, pub) && Faithful(lib, pub, s)
    ensures Faithful(lib, pub, Changed(lib, s, c))
  {
    hide Faithful, Encodable, HashIsFixedLength, RecoversFromAnyK, Take, DecodeAndFinish, SameBody;
    if c.Fed? {
      TakeFaithful(lib, pub, s, c.idx, c.data);
    } else if c.Ended? {
      FinishFaithful(lib, pub, s);
    } else {
      hide Changed;
      EngineArrivals.ChangedBody(lib, s, c);
      SameBodyFaithful(lib, pub, s, Changed(lib, s, c));
    }
  }

  lemma NewFaithful(lib: Lib, book: Book, inp: Input, e: Engine, key: Key, s: Session, preamble: Bytes, at: nat)
    requires GoodBook(lib, book) && Admissible(lib, book, inp) && NewSession(lib, inp, e, key, s, preamble, at)
    ensures key in book && Faithful(lib, book[key], s) && preamble == book[key].bytes
  {
    hide Encode, RecoversFromAnyK, CountSome, Encodable, Pre, Shards, Fresh;
    PublishedForm(lib, book[key]);
  }

  lemma TrueChanged(lib: Lib, book: Book, e: Engine, a: Act, k: Key)
    requires GoodBook(lib, book) && k in e.sessions && TrueSession(lib, book, e, k)
    requires !a.Cleaning? && !(a.Creating? && a.key == k)
    ensures k in Do(lib, e, a).sessions && TrueSession(lib, book, Do(lib, e, a), k)
  {
    hide Do, Faithful, Encodable, HashIsFixedLength, RecoversFromAnyK, Changed, ChangeOf;
    SessionsOf(lib, e, a, k);
    FaithfulOf(lib, book[k], e.sessions[k], ChangeOf(e, a, k));
    PreamblesOf(lib, e, a, k);
  }

  lemma TrueCreated(lib: Lib, book: Book, inp: Input, m: Mode, e: Engine, a: Act)
    requires GoodBook(lib, book) && Admissible(lib, book, inp) && Allowed(lib, inp, m, e, a) && a.Creating?
    ensures a.key in Do(lib, e, a).sessions && TrueSession(lib, book, Do(lib, e, a), a.key)
  {
    hide Do, Faithful, Encodable, HashIsFixedLength, RecoversFromAnyK, Admissible, RelayStrategy;
    NewFaithful(lib, book, inp, e, a.key, a.session, a.preamble, a.at);
    DoIs(lib, e, a);
  }

  lemma TrueAfter(lib: Lib, book: Book, inp: Input, m: Mode, e: Engine, a: Act, k: Key)
    requires GoodBook(lib, book) && Admissible(lib, book, inp) && Allowed(lib, inp, m, e, a)
    requires TrueEngine(lib, book, e) && k in Do(lib, e, a).sessions
    ensures TrueSession(lib, book, Do(lib, e, a), k)
  {
    hide Do, Base, GoodBook, Faithful, TrueEvent, Admissible, Allowed, ExpiredKeys;
    if a.Cleaning? {
      CleaningOf(lib, e, a.at);
      assert TrueSession(lib, book, e, k);
    } else if a.Creating? && a.key == k {
      TrueCreated(lib, book, inp, m, e, a);
    } else if k in e.sessions {
      assert TrueSession(lib, book, e, k);
      TrueChanged(lib, book, e, a, k);
    } else {
      KeysOf(lib, e, a, k);
    }
  }

  lemma PreamblesOf(lib: Lib, e: Engine, a: Act, k: Key)
    requires k in e.preambles && !a.Cleaning? && (a.Creating? ==> a.key != k)
    ensures k in Do(lib, e, a).preambles && Do(lib, e, a).preambles[k] == e.preambles[k]
  {
    hide Do;
    if a.Creating? {
      DoIs(lib, e, a);
    } else {
      SteadyOf(lib, e, a);
    }
  }

  /** What a session shows: its preamble, its chunks, its payload. */
  lemma ShownTrue(lib: Lib, book: Book, e: Engine, k: Key, i: nat, d: Bytes)
    requires GoodBook(lib, book) && k in e.sessions && TrueSession(lib, book, e, k)
    ensures k in book && e.Preamble(k) == book[k].bytes
    ensures i < |e.sessions[k].strategy.chunks| && e.sessions[k].strategy.chunks[i] == Some(d) ==> TrueChunk(lib, book[k], i, d)
    ensures var r := DecodeAndFinish(lib, e.sessions[k]).1; r.Ok? ==> TruePayload(lib, book[k], r.value)
  {
    hide Encodable, HashIsFixedLength, RecoversFromAnyK, DecodeAndFinish, TruePayload, CountSome, Unforgeable, Pre, Shards;
    FinishFaithful(lib, book[k], e.sessions[k]);
  }

  lemma TrueEventOf(lib: Lib, book: Book, inp: Input, m: Mode, e: Engine, a: Act, x: Event)
    requires GoodBook(lib, book) && Allowed(lib, inp, m, e, a) && TrueEngine(lib, book, e)
    requires EventOf(lib, e, a) == Some(x)
    ensures TrueEvent(lib, book, x)
  {
    hide Base, GoodBook, TrueSession, TrueChunk, TruePayload, ExpiredKeys, DecodeAndFinish, NewSession, Engine.Preamble,
         Engine.Opened, Engine.Subscribers;
    if a.Opening? || a.Chunking? || a.Finishing? {
      assert TrueSession(lib, book, e, a.key);
      ShownTrue(lib, book, e, a.key, if a.Chunking? then a.d.idx else 0, if a.Chunking? then a.d.payload else []);
    }
  }

  lemma AdmissibleIsGood(lib: Lib, book: Book, inp: Input)
    requires GoodBook(lib, book) && Admissible(lib, book, inp)
    ensures GoodInput(inp)
  {
    hide GoodBook, Encode;
  }

  lemma TrueKept(lib: Lib, book: Book, inp: Input, m: Mode, e: Engine, a: Act)
    requires GoodBook(lib, book) && Admissible(lib, book, inp) && Allowed(lib, inp, m, e, a)
    requires TrueEngine(lib, book, e)
    ensures TrueEngine(lib, book, Do(lib, e, a))
  {
    hide Base, Do, Allowed, GoodInput, Admissible, GoodBook, EventOf, TrueEvent, TrueSession;
    AdmissibleIsGood(lib, book, inp);
    BaseKept(lib, inp, m, e, a);
    LogOf(lib, e, a);
    var f, x := Do(lib, e, a), EventOf(lib, e, a);
    if x.Some? { TrueEventOf(lib, book, inp, m, e, a, x.value); }
    forall k | k in f.sessions
      ensures TrueSession(lib, book, f, k)
    {
      TrueAfter(lib, book, inp, m, e, a, k);
    }
  }

  lemma StepTrue(lib: Lib, book: Book, e: Engine, inp: Input)
    requires GoodBook(lib, book) && Admissible(lib, book, inp) && TrueEngine(lib, book, e)
    ensures TrueEngine(lib, book, Step(lib, e, inp))
  {
    hide Base, Do, Allowed, Admissible, GoodBook, TrueEvent, TrueSession, Step;
    var I := (e: Engine) => TrueEngine(lib, book, e);
    forall e: Engine, a: Act | I(e) && Allowed(lib, inp, PLAIN, e, a)
      ensures I(Do(lib, e, a))
    {
      TrueKept(lib, book, inp, PLAIN, e, a);
    }
    assert Preserved(lib, inp, PLAIN, I);
    hide Preserved, TrueEngine;
    StepKeeps(lib, inp, PLAIN, I, e);
  }

  // ---- The network ----

  /** One engine handles one input. */
  datatype Move = Move(node: PeerId, input: Input)

  type Net = map<PeerId, Engine>

  function NetStep(lib: Lib, net: Net, mv: Move): Net {
    if mv.node in net then net[mv.node := Step(lib, net[mv.node], mv.input)] else net
  }

  function NetRun(lib: Lib, net: Net, moves: seq<Move>): Net
    decreases |moves|
  {
    if moves == [] then net else NetRun(lib, NetStep(lib, net, moves[0]), moves[1..])
  }

  /** Some engine sent this open, at any earlier time, to anyone. */
  ghost predicate WasOpened(net: Net, key: Key, preamble: Bytes) {
    exists q, i | q in net && 0 <= i < |net[q].log| ::
      var x := net[q].log[i];
      x.Sent? && x.ok && x.msg.SessionOpen? && x.msg.key == key && x.msg.preamble == preamble
  }

  /**
   * What the network and the applications may do: session opens are only ones engines sent, publishers follow the
   * book. Chunk bytes, send outcomes, membership events and losses are unconstrained.
   */
  ghost predicate Lawful(lib: Lib, book: Book, net: Net, mv: Move)
    requires GoodBook(lib, book)
  {
    && (mv.input.Net? && mv.input.event.SessionOpenIn? ==>
          WasOpened(net, mv.input.event.key, mv.input.event.preamble))
    && (mv.input.Publishing? ==>
          && mv.input.key in book && mv.input.preamble == book[mv.input.key].bytes
          && Publishes(lib, book[mv.input.key], mv.input.strategy))
  }

  ghost predicate LawfulRun(lib: Lib, book: Book, net: Net, moves: seq<Move>)
    requires GoodBook(lib, book)
    decreases |moves|
  {
    moves == [] ||
    (Lawful(lib, book, net, moves[0]) && LawfulRun(lib, book, NetStep(lib, net, moves[0]), moves[1..]))
  }

  ghost predicate TrueNet(lib: Lib, book: Book, net: Net)
    requires GoodBook(lib, book)
  {
    forall q | q in net :: TrueEngine(lib, book, net[q])
  }

  lemma LawfulIsAdmissible(lib: Lib, book: Book, net: Net, mv: Move)
    requires GoodBook(lib, book) && Lawful(lib, book, net, mv) && TrueNet(lib, book, net)
    ensures Admissible(lib, book, mv.input)
  {
    hide GoodBook, Publishes;
    if mv.input.Net? && mv.input.event.SessionOpenIn? {
      var key, preamble := mv.input.event.key, mv.input.event.preamble;
      var q, i :| q in net && 0 <= i < |net[q].log| &&
        var x := net[q].log[i];
        x.Sent? && x.ok && x.msg.SessionOpen? && x.msg.key == key && x.msg.preamble == preamble;
      OpenIsTrue(lib, book, net[q], i);
    }
  }

  lemma OpenIsTrue(lib: Lib, book: Book, e: Engine, i: nat)
    requires GoodBook(lib, book) && TrueEngine(lib, book, e)
    requires i < |e.log| && e.log[i].Sent? && e.log[i].msg.SessionOpen?
    ensures e.log[i].msg.key in book && e.log[i].msg.preamble == book[e.log[i].msg.key].bytes
  {
    hide GoodBook, Base, TrueSession;
    assert TrueEvent(lib, book, e.log[i]);
  }

  lemma NetStepTrue(lib: Lib, book: Book, net: Net, mv: Move)
    requires GoodBook(lib, book) && Lawful(lib, book, net, mv) && TrueNet(lib, book, net)
    ensures TrueNet(lib, book, NetStep(lib, net, mv))
  {
    LawfulIsAdmissible(lib, book, net, mv);
    hide GoodBook, Lawful, TrueEngine, Step, Admissible;
    if mv.node in net { StepTrue(lib, book, net[mv.node], mv.input); }
  }

  lemma {:induction false} NetRunTrue(lib: Lib, book: Book, net: Net, moves: seq<Move>)
    requires GoodBook(lib, book) && LawfulRun(lib, book, net, moves) && TrueNet(lib, book, net)
    ensures TrueNet(lib, book, NetRun(lib, net, moves))
    decreases |moves|
  {
    hide GoodBook, Lawful, TrueNet, NetStep;
    if moves != [] {
      NetStepTrue(lib, book, net, moves[0]);
      NetRunTrue(lib, book, NetStep(lib, net, moves[0]), moves[1..]);
    }
  }

  /** Engines that have done nothing yet. */
  ghost predicate NewNet(net: Net) {
    forall q | q in net :: exists cfg, now: nat :: net[q] == New(cfg, now)
  }

  lemma NewNetTrue(lib: Lib, book: Book, net: Net)
    requires GoodBook(lib, book) && NewNet(net)
    ensures TrueNet(lib, book, net)
  {
    hide GoodBook;
    forall q | q in net
      ensures TrueEngine(lib, book, net[q])
    {
      var cfg, now: nat :| net[q] == New(cfg, now);
      NewBase(cfg, now);
      hide Base;
    }
  }

  /**
   * End-to-end integrity: on every run of any number of engines, every preamble held or sent is the published one, every
   * chunk stored or forwarded hashes to its entry, every payload delivered has the published length and hash.
   */
  lemma EndToEndIntegrity(lib: Lib, book: Book, net: Net, moves: seq<Move>, q: PeerId)
    requires GoodBook(lib, book) && NewNet(net) && LawfulRun(lib, book, net, moves)
    requires q in NetRun(lib, net, moves)
    ensures TrueEngine(lib, book, NetRun(lib, net, moves)[q])
  {
    hide GoodBook, LawfulRun, NetRun, NewNet, TrueEngine;
    NewNetTrue(lib, book, net);
    NetRunTrue(lib, book, net, moves);
  }

  /** Unless a shard is forged, whatever any engine delivers is the published payload, and no session ever fails. */
  lemma DeliveredIsPublished(lib: Lib, book: Book, net: Net, moves: seq<Move>, q: PeerId, k: Key)
    requires GoodBook(lib, book) && NewNet(net) && LawfulRun(lib, book, net, moves)
    requires k in book && Unforgeable(lib, book[k]) && q in NetRun(lib, net, moves)
    ensures var e := NetRun(lib, net, moves)[q];
            && (forall i | 0 <= i < |e.log| && e.log[i].Delivered? && e.log[i].key == k ::
                  e.log[i].payload == book[k].payload)
            && (forall i | 0 <= i < |e.log| && e.log[i].Sent? && e.log[i].msg.Chunk? && e.log[i].msg.key == k ::
                  e.log[i].msg.idx < |Shards(lib, book[k])| && e.log[i].msg.data == Shards(lib, book[k])[e.log[i].msg.idx])
            && (k in e.sessions ==>
                  !e.sessions[k].phase.Failed? && Agrees(e.sessions[k].strategy.chunks, Shards(lib, book[k])))
  {
    EndToEndIntegrity(lib, book, net, moves, q);
    var e := NetRun(lib, net, moves)[q];
    hide LawfulRun, NetRun, NewNet, Base, RecoversFromAnyK, Encode;
    PublishedForm(lib, book[k]);
    if k in e.sessions {
      assert TrueSession(lib, book, e, k);
      HashedAgrees(lib, book[k], e.sessions[k].strategy.chunks);
    }
    hide TrueSession, Agrees;
    forall i | 0 <= i < |e.log| && e.log[i].Sent? && e.log[i].msg.Chunk? && e.log[i].msg.key == k
      ensures e.log[i].msg.idx < |Shards(lib, book[k])| && e.log[i].msg.data == Shards(lib, book[k])[e.log[i].msg.idx]
    {
      assert TrueEvent(lib, book, e.log[i]);
      assert Unforged(lib, Shards(lib, book[k])[e.log[i].msg.idx]);
    }
    forall i | 0 <= i < |e.log| && e.log[i].Delivered? && e.log[i].key == k
      ensures e.log[i].payload == book[k].payload
    {
      assert TrueEvent(lib, book, e.log[i]);
    }
  }
}
