/** The per-session state machine over a strategy. */
module Sessions {
  import opened Basics
  import opened Havelists
  import opened Coding
  import opened Strategies
  import Polling

  datatype Phase = Origin | Consuming | Decoding | Reconstructed | Failed

  datatype SessionError = PostConsuming(verdict: Verdict) | NotDecoding(phase: Phase) | TakeFailed(e: TakeError)

  datatype Session = Session(phase: Phase, strategy: Strategy)
  {
    predicate Terminal() { phase.Reconstructed? || phase.Failed? }
  }

  function Take(lib: Lib, s: Session, idx: nat, data: Bytes): (Session, Result<TakeOutcome, SessionError>) {
    match s.phase
    case Consuming =>
      (var (strategy, r) := TakeChunk(lib, s.strategy, idx, data);
       match r
       case Err(e) => (s, Err(TakeFailed(e)))
       case Ok(o) =>
         (Session(if o.complete && o.verdict == Accepted then Phase.Decoding else Consuming, strategy), Ok(o)))
    case Decoding => (s, Err(PostConsuming(Verdict.Decoding)))
    case Reconstructed => (s, Err(PostConsuming(Surplus)))
    case Origin => (s, Err(PostConsuming(Invalid)))
    case Failed => (s, Err(PostConsuming(Invalid)))
  }

  function DecodeAndFinish(lib: Lib, s: Session): (Session, Result<Bytes, SessionError>) {
    if !s.phase.Decoding? then (s, Err(NotDecoding(s.phase)))
    else match Reconstruct(lib, s.strategy)
      case Ok(payload) => (s.(phase := Reconstructed), Ok(payload))
      case Err(_) => (s.(phase := Failed), Err(NotDecoding(Failed)))
  }

  /** Both kinds of outbound work: a routing update, then chunk dispatches. */
  function Poll(s: Session): (Session, Option<Havelist>, seq<Dispatch>) {
    var (s1, routing) := PollRouting(s.strategy);
    var (s2, dispatches) := PollChunks(s1);
    (s.(strategy := s2), routing, dispatches)
  }
}
