/** A session object: its phase changed in place around an owned strategy object, proved against `Sessions`. */
module SessionStates {
  import opened Basics
  import opened Havelists
  import opened Coding
  import opened Strategies
  import S = Sessions
  import opened StrategyStates

  class SessionState {
    var phase: S.Phase
    const strategy: RsStrategy

    ghost function View(): S.Session
      reads this, strategy, strategy.planner
    {
      S.Session(phase, strategy.View())
    }

    ghost predicate Valid()
      reads this, strategy, strategy.planner
    {
      strategy.Valid()
    }

    constructor (phase: S.Phase, strategy: RsStrategy)
      requires strategy.Valid()
      ensures Valid() && View() == S.Session(phase, strategy.View()) && this.strategy == strategy
    {
      this.phase, this.strategy := phase, strategy;
    }

    method TakeChunk(lib: Lib, idx: nat, data: Bytes) returns (r: Result<TakeOutcome, S.SessionError>)
      requires Valid()
      modifies this`phase, strategy`chunks
      ensures Valid() && (View(), r) == S.Take(lib, old(View()), idx, data)
    {
      match phase
      case Decoding => return Err(S.PostConsuming(Verdict.Decoding));
      case Reconstructed => return Err(S.PostConsuming(Surplus));
      case Origin => return Err(S.PostConsuming(Invalid));
      case Failed => return Err(S.PostConsuming(Invalid));
      case Consuming =>
        var taken := strategy.Take(lib, idx, data);
        if taken.Err? {
          return Err(S.TakeFailed(taken.error));
        }
        if taken.value.complete && taken.value.verdict == Accepted { phase := S.Decoding; }
        return Ok(taken.value);
    }

    method DecodeAndFinish(lib: Lib) returns (r: Result<Bytes, S.SessionError>)
      requires Valid()
      modifies this`phase
      ensures Valid() && (View(), r) == S.DecodeAndFinish(lib, old(View()))
    {
      if !phase.Decoding? { return Err(S.NotDecoding(phase)); }
      var decoded := strategy.Rebuild(lib);
      match decoded
      case Ok(payload) =>
        phase := S.Reconstructed;
        return Ok(payload);
      case Err(_) =>
        phase := S.Failed;
        return Err(S.NotDecoding(S.Failed));
    }

    method Poll() returns (routing: Option<Havelist>, ds: seq<Dispatch>)
      requires Valid()
      modifies strategy`lastCount, strategy`inFlight, strategy`nextHandle, strategy`burned, strategy.planner
      ensures Valid() && (View(), routing, ds) == S.Poll(old(View()))
    {
      hide PollChunks, PollRouting;
      routing := strategy.PollRoute();
      ds := strategy.Poll();
    }
  }
}
