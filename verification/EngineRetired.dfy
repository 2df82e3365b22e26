/** A peer that reported a session reconstructed gets no more of its chunks. */
module EngineRetired {
  import opened Basics
  import opened Coding
  import opened Strategies
  import opened Sessions
  import opened Engines
  import opened EngineSteps
  import opened EngineBase
  import opened EngineRuns
  import opened EngineFacts
  import P = Polling

  ghost predicate IsDone(x: Event, k: Key, p: PeerId) {
    x.PeerDone? && x.key == k && x.peer == p
  }

  /** The peer joins the session's channel anew, or the session is disposed. */
  ghost predicate IsRevival(x: Event, k: Key, p: PeerId) {
    (x.Joined? && x.channel == k.channel && x.peer == p) || (x.Disposed? && k in x.keys)
  }

  ghost predicate IsChunk(x: Event, k: Key, p: PeerId) {
    x.Sent? && x.msg.Chunk? && x.msg.key == k && x.msg.peer == p
  }

  ghost predicate Retired(log: seq<Event>, k: Key, p: PeerId) {
    log != [] &&
    var x := log[|log| - 1];
    !IsRevival(x, k, p) && (IsDone(x, k, p) || Retired(log[..|log| - 1], k, p))
  }

  ghost predicate Spares(log: seq<Event>, x: Event) {
    x.Sent? && x.msg.Chunk? ==> !Retired(log, x.msg.key, x.msg.peer)
  }

  ghost predicate Sparing(log: seq<Event>) {
    forall i | 0 <= i < |log| :: Spares(log[..i], log[i])
  }

  /** A retired peer is detached from the session. */
  ghost predicate Away(e: Engine, k: Key, p: PeerId) {
    k in e.sessions && p !in e.sessions[k].strategy.attached
  }

  ghost predicate RetiredInv(e: Engine) {
    && Sparing(e.log)
    && forall k: Key, p: PeerId :: Retired(e.log, k, p) ==> Away(e, k, p)
  }

  lemma SparingAppend(log: seq<Event>, x: Event)
    requires Sparing(log) && Spares(log, x)
    ensures Sparing(log + [x])
  {
    hide Spares;
    forall i | 0 <= i < |log + [x]|
      ensures Spares((log + [x])[..i], (log + [x])[i])
    {
      assert (log + [x])[..i] == log[..i];
      assert log[..|log|] == log;
    }
  }

  lemma RetiredAppend(log: seq<Event>, x: Event, k: Key, p: PeerId)
    ensures Retired(log + [x], k, p) <==> !IsRevival(x, k, p) && (IsDone(x, k, p) || Retired(log, k, p))
  {
    assert (log + [x])[..|log|] == log;
  }

  lemma FlightAttached(e: Engine, key: Key, d: Dispatch)
    requires Base(e) && Ready(e, key, d)
    ensures d.peer in e.sessions[key].strategy.attached
  {
    assert Live(e, key);
  }

  /** Chunks go to attached peers, and those are not retired. */
  lemma SparesAct(lib: Lib, inp: Input, m: Mode, e: Engine, a: Act, x: Event)
    requires Base(e) && RetiredInv(e) && Allowed(lib, inp, m, e, a) && EventOf(lib, e, a) == Some(x)
    ensures Spares(e.log, x)
  {
    hide Sparing, Retired, NewSession, ExpiredKeys, DecodeAndFinish, Base, Ready, Engine.Opened, Engine.Preamble;
    if a.Chunking? {
      FlightAttached(e, a.key, a.d);
      assert !Away(e, a.key, a.d.peer);
    }
  }

  lemma ChangedAttached(lib: Lib, s: Session, c: Change)
    ensures Changed(lib, s, c).strategy.attached ==
              match c
              case Gained(p) => s.strategy.attached + {p}
              case Lost(p) => s.strategy.attached - {p}
              case _ => s.strategy.attached
  {
    PollCore(s);
    hide Poll, Reconstruct;
  }

  /** Only joining its channel attaches a peer to a session; a completion report detaches it. */
  lemma AttachedOf(lib: Lib, e: Engine, a: Act, k: Key, p: PeerId)
    requires k in e.sessions && p in SessionOf(lib, e, a, k).strategy.attached
    ensures p in e.sessions[k].strategy.attached
         || (a == Joining(k.channel, p) && p !in e.Subscribers(k.channel) && k.channel in e.channels)
    ensures !(a.Detaching? && a.key == k && a.peer == p)
  {
    hide Changed;
    ChangedAttached(lib, e.sessions[k], ChangeOf(e, a, k));
  }

  lemma AwayKept(lib: Lib, e: Engine, a: Act, k: Key, p: PeerId)
    requires SameKeys(e) && (Retired(e.log, k, p) ==> Away(e, k, p))
    requires a.Creating? ==> a.key !in e.sessions
    ensures Retired(Do(lib, e, a).log, k, p) ==> Away(Do(lib, e, a), k, p)
  {
    hide Retired, Do, ExpiredKeys, DecodeAndFinish, Changed, ChangeOf;
    var x := EventOf(lib, e, a);
    LogOf(lib, e, a);
    if x.Some? { RetiredAppend(e.log, x.value, k, p); }
    if Retired(Do(lib, e, a).log, k, p) {
      if a.Cleaning? {
        CleaningOf(lib, e, a.at);
      } else {
        SessionsOf(lib, e, a, k);
        if p in SessionOf(lib, e, a, k).strategy.attached { AttachedOf(lib, e, a, k, p); }
      }
    }
  }

  lemma SparingKept(lib: Lib, inp: Input, m: Mode, e: Engine, a: Act)
    requires Base(e) && RetiredInv(e) && Allowed(lib, inp, m, e, a)
    ensures Sparing(Do(lib, e, a).log)
  {
    hide Base, Do, EventOf, Allowed, Retired, Away, Sparing;
    var x := EventOf(lib, e, a);
    LogOf(lib, e, a);
    if x.Some? {
      SparesAct(lib, inp, m, e, a, x.value);
      SparingAppend(e.log, x.value);
    }
  }

  lemma RetiredKept(lib: Lib, inp: Input, m: Mode, e: Engine, a: Act)
    requires Base(e) && RetiredInv(e) && Allowed(lib, inp, m, e, a)
    ensures RetiredInv(Do(lib, e, a))
  {
    hide AllLive, PendingOk, ParkedOk, SameKeys, Do, EventOf, Ready, Retired, Away, Sparing;
    var f := Do(lib, e, a);
    SparingKept(lib, inp, m, e, a);
    forall k: Key, p: PeerId
      ensures Retired(f.log, k, p) ==> Away(f, k, p)
    {
      AwayKept(lib, e, a, k, p);
    }
  }

  ghost predicate BaseRetired(e: Engine) {
    Base(e) && RetiredInv(e)
  }

  lemma RunRetired(lib: Lib, e: Engine, inputs: seq<Input>)
    requires BaseRetired(e) && GoodInputs(inputs)
    ensures BaseRetired(Run(lib, e, inputs))
  {
    hide Base, Do, Allowed, GoodInput, GoodInputs, Run, Drain, RetiredInv;
    var I := (e: Engine) => BaseRetired(e);
    forall inp: Input, e: Engine, a: Act | GoodInput(inp) && I(e) && Allowed(lib, inp, PLAIN, e, a)
      ensures I(Do(lib, e, a))
    {
      BaseKept(lib, inp, PLAIN, e, a);
      RetiredKept(lib, inp, PLAIN, e, a);
    }
    assert Kept(lib, PLAIN, I);
    hide Kept, BaseRetired;
    RunKeeps(lib, PLAIN, I, e, inputs);
  }

  lemma {:induction false} RetiredFrom(log: seq<Event>, k: Key, p: PeerId, j: nat)
    requires j < |log| && IsDone(log[j], k, p) && forall i: nat | j < i < |log| :: !IsRevival(log[i], k, p)
    ensures Retired(log, k, p)
    decreases |log|
  {
    if j < |log| - 1 {
      var rest := log[..|log| - 1];
      assert forall i: nat | j < i < |rest| :: rest[i] == log[i];
      RetiredFrom(rest, k, p, j);
    }
  }

  /**
   * No chunk of a session is handed to the transport for a peer that reported it reconstructed, unless the peer has
   * since joined the channel anew or the session has been disposed.
   */
  lemma NoChunkAfterDone(lib: Lib, cfg: Config, now: nat, inputs: seq<Input>, j: nat, i: nat, k: Key, p: PeerId)
    requires GoodInputs(inputs)
    requires j < i < |Run(lib, New(cfg, now), inputs).log|
    requires IsDone(Run(lib, New(cfg, now), inputs).log[j], k, p)
    requires IsChunk(Run(lib, New(cfg, now), inputs).log[i], k, p)
    ensures exists l: nat | j < l < i :: IsRevival(Run(lib, New(cfg, now), inputs).log[l], k, p)
  {
    NewBase(cfg, now);
    RunRetired(lib, New(cfg, now), inputs);
    var log := Run(lib, New(cfg, now), inputs).log;
    hide Base, Run, New;
    assert Spares(log[..i], log[i]);
    if forall l: nat | j < l < i :: !IsRevival(log[l], k, p) {
      assert forall l: nat | l < i :: log[..i][l] == log[l];
      RetiredFrom(log[..i], k, p, j);
    }
  }
}
