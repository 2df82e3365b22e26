/** One session life makes at most one delivery. */
module EngineLives {
  import opened Basics
  import opened Coding
  import opened Strategies
  import opened Sessions
  import opened Engines
  import opened EngineSteps
  import opened EngineBase
  import opened EngineRuns
  import opened EngineFacts
  import opened EngineTimes

  ghost predicate IsDelivery(x: Event, k: Key) {
    x.Delivered? && x.key == k
  }

  ghost predicate IsEnd(x: Event, k: Key) {
    x.Disposed? && k in x.keys
  }

  /** The message was delivered and its session has not been disposed since. */
  ghost predicate Spent(log: seq<Event>, k: Key) {
    log != [] &&
    var x := log[|log| - 1];
    !IsEnd(x, k) && (IsDelivery(x, k) || Spent(log[..|log| - 1], k))
  }

  ghost predicate Once(log: seq<Event>) {
    forall i | 0 <= i < |log| && log[i].Delivered? :: !Spent(log[..i], log[i].key)
  }

  ghost predicate Over(e: Engine, k: Key) {
    k in e.sessions && e.sessions[k].Terminal()
  }

  ghost predicate LifeInv(e: Engine) {
    Base(e) && Once(e.log) && forall k: Key :: Spent(e.log, k) ==> Over(e, k)
  }

  lemma OnceAppend(log: seq<Event>, x: Event)
    requires Once(log) && (x.Delivered? ==> !Spent(log, x.key))
    ensures Once(log + [x])
  {
    hide Spent;
    forall i | 0 <= i < |log + [x]| && (log + [x])[i].Delivered?
      ensures !Spent((log + [x])[..i], (log + [x])[i].key)
    {
      assert (log + [x])[..i] == log[..i];
      assert log[..|log|] == log;
    }
  }

  lemma SpentAppend(log: seq<Event>, x: Event, k: Key)
    ensures Spent(log + [x], k) <==> !IsEnd(x, k) && (IsDelivery(x, k) || Spent(log, k))
  {
    assert (log + [x])[..|log|] == log;
  }

  lemma OverKept(lib: Lib, inp: Input, m: Mode, e: Engine, a: Act, k: Key)
    requires Allowed(lib, inp, m, e, a) && (Spent(e.log, k) ==> Over(e, k))
    ensures Spent(Do(lib, e, a).log, k) ==> Over(Do(lib, e, a), k)
  {
    var x := EventOf(lib, e, a);
    hide Do, Spent, Session.Terminal;
    LogOf(lib, e, a);
    if x.Some? { SpentAppend(e.log, x.value, k); }
    if x.Some? && IsDelivery(x.value, k) {
      hide EventOf, Allowed;
      DeliveryOf(lib, inp, m, e, a, x.value);
    } else if Spent(Do(lib, e, a).log, k) {
      assert a.Creating? ==> a.key != k by { hide EventOf, Ready; }
      hide Allowed, ExpiredKeys, DecodeAndFinish;
      if a.Cleaning? {
        CleaningOf(lib, e, a.at);
      } else {
        hide EventOf;
        TerminalStays(lib, e, a, k);
      }
    }
  }

  lemma TerminalStays(lib: Lib, e: Engine, a: Act, k: Key)
    requires Over(e, k) && !a.Cleaning? && (a.Creating? ==> a.key != k)
    ensures Over(Do(lib, e, a), k)
  {
    hide Do;
    SessionsOf(lib, e, a, k);
    PhasesOf(lib, e, a, k);
    hide SessionOf;
  }

  lemma LifeKept(lib: Lib, inp: Input, m: Mode, e: Engine, a: Act)
    requires LifeInv(e) && GoodInput(inp) && Allowed(lib, inp, m, e, a)
    ensures LifeInv(Do(lib, e, a))
  {
    hide Base, Allowed, Do, EventOf, Over, Spent, Once, GoodInput;
    BaseKept(lib, inp, m, e, a);
    LogOf(lib, e, a);
    var x := EventOf(lib, e, a);
    if x.Some? {
      if x.value.Delivered? {
        DeliveryOf(lib, inp, m, e, a, x.value);
        NotOver(e, x.value.key);
      }
      OnceAppend(e.log, x.value);
    }
    forall k: Key
      ensures Spent(Do(lib, e, a).log, k) ==> Over(Do(lib, e, a), k)
    {
      OverKept(lib, inp, m, e, a, k);
    }
  }

  lemma NotOver(e: Engine, k: Key)
    requires k in e.sessions && e.sessions[k].phase.Decoding?
    ensures !Over(e, k)
  {
  }

  lemma RunLives(lib: Lib, e: Engine, inputs: seq<Input>)
    requires LifeInv(e) && GoodInputs(inputs)
    ensures LifeInv(Run(lib, e, inputs))
  {
    hide Base, Do, Allowed, GoodInput, GoodInputs, Run, Drain, Once, Spent, Over;
    var I := (e: Engine) => LifeInv(e);
    forall inp: Input, e: Engine, a: Act | GoodInput(inp) && I(e) && Allowed(lib, inp, PLAIN, e, a)
      ensures I(Do(lib, e, a))
    {
      LifeKept(lib, inp, PLAIN, e, a);
    }
    assert Kept(lib, PLAIN, I);
    hide Kept, LifeInv;
    RunKeeps(lib, PLAIN, I, e, inputs);
  }

  lemma {:induction false} SpentFrom(log: seq<Event>, k: Key, j: nat)
    requires j < |log| && IsDelivery(log[j], k) && forall i: nat | j < i < |log| :: !IsEnd(log[i], k)
    ensures Spent(log, k)
    decreases |log|
  {
    if j < |log| - 1 {
      var rest := log[..|log| - 1];
      assert forall i: nat | j < i < |rest| :: rest[i] == log[i];
      SpentFrom(rest, k, j);
    }
  }

  /** Between two deliveries of the same message its session is disposed: one life, at most one delivery. */
  lemma OneDeliveryPerLife(lib: Lib, cfg: Config, now: nat, inputs: seq<Input>, j: nat, i: nat, k: Key)
    requires GoodInputs(inputs) && j < i < |Run(lib, New(cfg, now), inputs).log|
    requires IsDelivery(Run(lib, New(cfg, now), inputs).log[j], k)
    requires IsDelivery(Run(lib, New(cfg, now), inputs).log[i], k)
    ensures exists l: nat | j < l < i :: IsEnd(Run(lib, New(cfg, now), inputs).log[l], k)
  {
    NewBase(cfg, now);
    RunLives(lib, New(cfg, now), inputs);
    var log := Run(lib, New(cfg, now), inputs).log;
    hide Base, Run, New;
    assert !Spent(log[..i], k);
    if forall l: nat | j < l < i :: !IsEnd(log[l], k) {
      assert forall l: nat | l < i :: log[..i][l] == log[l];
      SpentFrom(log[..i], k, j);
    }
  }
}
