/** Open before data: what the log says about session opens, chunks and routing updates. */
module EngineOpens {
  import opened Basics
  import opened Coding
  import opened Sessions
  import opened Engines
  import opened EngineSteps
  import opened EngineBase
  import opened EngineRuns
  import opened EngineFacts

  ghost predicate IsOpen(x: Event, k: Key, p: PeerId) {
    x.Sent? && x.ok && x.msg.SessionOpen? && x.msg.key == k && x.msg.peer == p
  }

  /** A chunk or routing update handed to the transport, accepted or not. */
  ghost predicate IsData(x: Event, k: Key, p: PeerId) {
    x.Sent? && (x.msg.Chunk? || x.msg.RoutingUpdate?) && x.msg.key == k && x.msg.peer == p
  }

  /** The connection to the peer or the life of the session ends. */
  ghost predicate IsCut(x: Event, k: Key, p: PeerId) {
    (x.Disconnected? && x.peer == p) || (x.Disposed? && k in x.keys)
  }

  /** The session is open to the peer: a successful open with no cut after it. */
  ghost predicate OpenSince(log: seq<Event>, k: Key, p: PeerId) {
    log != [] &&
    var x := log[|log| - 1];
    !IsCut(x, k, p) && (IsOpen(x, k, p) || OpenSince(log[..|log| - 1], k, p))
  }

  /** Data goes out only on an open session, and no session is opened again while it is open. */
  ghost predicate Fits(log: seq<Event>, x: Event) {
    x.Sent? ==>
      && (x.msg.Chunk? || x.msg.RoutingUpdate? ==> OpenSince(log, x.msg.key, x.msg.peer))
      && (x.msg.SessionOpen? ==> !OpenSince(log, x.msg.key, x.msg.peer))
  }

  ghost predicate Ordered(log: seq<Event>) {
    forall i | 0 <= i < |log| :: Fits(log[..i], log[i])
  }

  ghost predicate OpenInv(e: Engine) {
    && Ordered(e.log)
    && forall k: Key, p: PeerId :: p in e.Opened(k) <==> OpenSince(e.log, k, p)
  }

  lemma OrderedAppend(log: seq<Event>, x: Event)
    requires Ordered(log) && Fits(log, x)
    ensures Ordered(log + [x])
  {
    hide Fits;
    forall i | 0 <= i < |log + [x]|
      ensures Fits((log + [x])[..i], (log + [x])[i])
    {
      assert (log + [x])[..i] == log[..i];
      assert log[..|log|] == log;
    }
  }

  lemma OpenSinceAppend(log: seq<Event>, x: Event, k: Key, p: PeerId)
    ensures OpenSince(log + [x], k, p) <==> !IsCut(x, k, p) && (IsOpen(x, k, p) || OpenSince(log, k, p))
  {
    assert (log + [x])[..|log|] == log;
  }

  lemma FitsAct(lib: Lib, inp: Input, m: Mode, e: Engine, a: Act, x: Event)
    requires OpenInv(e) && Allowed(lib, inp, m, e, a) && EventOf(lib, e, a) == Some(x)
    ensures Fits(e.log, x)
  {
    hide Ordered, OpenSince, Ready, NewSession, ExpiredKeys, DecodeAndFinish;
  }

  lemma OpenedKept(lib: Lib, e: Engine, a: Act, k: Key, p: PeerId)
    requires (p in e.Opened(k) <==> OpenSince(e.log, k, p)) && (a.Noting? ==> !a.msg.SessionOpen?)
    ensures p in Do(lib, e, a).Opened(k) <==> OpenSince(Do(lib, e, a).log, k, p)
  {
    hide OpenSince, Do, Engine.Opened, ExpiredKeys, DecodeAndFinish, Engine.Preamble, Engine.Subscribers;
    var x := EventOf(lib, e, a);
    LogOf(lib, e, a);
    OpenedOf(lib, e, a, k, p);
    if x.Some? { OpenSinceAppend(e.log, x.value, k, p); }
  }

  lemma OpenKept(lib: Lib, inp: Input, m: Mode, e: Engine, a: Act)
    requires OpenInv(e) && Allowed(lib, inp, m, e, a)
    ensures OpenInv(Do(lib, e, a))
  {
    var f, x := Do(lib, e, a), EventOf(lib, e, a);
    hide Do, EventOf, Ready, NewSession;
    LogOf(lib, e, a);
    assert a.Noting? ==> !a.msg.SessionOpen?;
    if x.Some? {
      FitsAct(lib, inp, m, e, a, x.value);
      OrderedAppend(e.log, x.value);
    }
    hide OpenSince, Ordered, Engine.Opened, Allowed;
    forall k: Key, p: PeerId
      ensures p in f.Opened(k) <==> OpenSince(f.log, k, p)
    {
      OpenedKept(lib, e, a, k, p);
    }
  }

  ghost predicate BaseOpen(e: Engine) {
    Base(e) && OpenInv(e)
  }

  lemma RunOpen(lib: Lib, e: Engine, inputs: seq<Input>)
    requires BaseOpen(e) && GoodInputs(inputs)
    ensures BaseOpen(Run(lib, e, inputs))
  {
    hide Base, Do, Allowed, GoodInput, GoodInputs, Run, Drain, OpenInv;
    var I := (e: Engine) => BaseOpen(e);
    forall inp: Input, e: Engine, a: Act | GoodInput(inp) && I(e) && Allowed(lib, inp, PLAIN, e, a)
      ensures I(Do(lib, e, a))
    {
      BaseKept(lib, inp, PLAIN, e, a);
      OpenKept(lib, inp, PLAIN, e, a);
    }
    assert Kept(lib, PLAIN, I);
    hide Kept, BaseOpen;
    RunKeeps(lib, PLAIN, I, e, inputs);
  }

  /** `OpenSince` in terms of positions. */
  lemma {:induction false} OpenSinceIs(log: seq<Event>, k: Key, p: PeerId)
    requires OpenSince(log, k, p)
    ensures exists j: nat | j < |log| :: IsOpen(log[j], k, p) && forall i: nat | j < i < |log| :: !IsCut(log[i], k, p)
    decreases |log|
  {
    var x := log[|log| - 1];
    if IsOpen(x, k, p) {
      assert IsOpen(log[|log| - 1], k, p);
    } else {
      var rest := log[..|log| - 1];
      OpenSinceIs(rest, k, p);
      var j: nat :| j < |rest| && IsOpen(rest[j], k, p) && forall i: nat | j < i < |rest| :: !IsCut(rest[i], k, p);
      assert IsOpen(log[j], k, p);
      forall i: nat | j < i < |log|
        ensures !IsCut(log[i], k, p)
      {
        if i < |rest| { assert log[i] == rest[i]; }
      }
    }
  }

  lemma {:induction false} UncutStaysOpen(log: seq<Event>, k: Key, p: PeerId, j: nat)
    requires j < |log| && IsOpen(log[j], k, p) && forall i: nat | j < i < |log| :: !IsCut(log[i], k, p)
    ensures OpenSince(log, k, p)
    decreases |log|
  {
    if j < |log| - 1 {
      var rest := log[..|log| - 1];
      assert forall i: nat | j < i < |rest| :: rest[i] == log[i];
      UncutStaysOpen(rest, k, p, j);
    }
  }

  /** A successful open at `j` that no disconnect or disposal undoes before `i`. */
  ghost predicate OpenedBy(log: seq<Event>, j: nat, i: nat, k: Key, p: PeerId)
    requires j < i < |log|
  {
    IsOpen(log[j], k, p) && forall l: nat | j < l < i :: !IsCut(log[l], k, p)
  }

  /**
   * Open before data: in the log of any run, every chunk or routing update for a session is preceded by an open of it
   * to the same peer, with no disconnect of the peer and no disposal of the session in between.
   */
  lemma OpenBeforeData(lib: Lib, cfg: Config, now: nat, inputs: seq<Input>, i: nat, k: Key, p: PeerId)
    requires GoodInputs(inputs)
    requires i < |Run(lib, New(cfg, now), inputs).log| && IsData(Run(lib, New(cfg, now), inputs).log[i], k, p)
    ensures exists j: nat | j < i :: OpenedBy(Run(lib, New(cfg, now), inputs).log, j, i, k, p)
  {
    NewBase(cfg, now);
    RunOpen(lib, New(cfg, now), inputs);
    var log := Run(lib, New(cfg, now), inputs).log;
    hide Base, Run, New;
    assert Fits(log[..i], log[i]);
    OpenSinceIs(log[..i], k, p);
    var j: nat :| j < i && IsOpen(log[..i][j], k, p) && forall l: nat | j < l < i :: !IsCut(log[..i][l], k, p);
    assert forall l: nat | l < i :: log[..i][l] == log[l];
    assert OpenedBy(log, j, i, k, p);
  }

  /** At most one open per session life, peer and connection: between two of them lies a cut. */
  lemma OpensAreCutApart(lib: Lib, cfg: Config, now: nat, inputs: seq<Input>, j: nat, i: nat, k: Key, p: PeerId)
    requires GoodInputs(inputs)
    requires j < i < |Run(lib, New(cfg, now), inputs).log|
    requires IsOpen(Run(lib, New(cfg, now), inputs).log[j], k, p)
    requires IsOpen(Run(lib, New(cfg, now), inputs).log[i], k, p)
    ensures exists l: nat | j < l < i :: IsCut(Run(lib, New(cfg, now), inputs).log[l], k, p)
  {
    NewBase(cfg, now);
    RunOpen(lib, New(cfg, now), inputs);
    var log := Run(lib, New(cfg, now), inputs).log;
    hide Base, Run, New;
    assert Fits(log[..i], log[i]);
    if forall l: nat | j < l < i :: !IsCut(log[l], k, p) {
      assert forall l: nat | l < i :: log[..i][l] == log[l];
      UncutStaysOpen(log[..i], k, p, j);
    }
  }
}
