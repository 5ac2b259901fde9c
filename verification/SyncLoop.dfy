/** The catch-up loop on the node's chain object, against any peer. */
module SyncLoop {
  import opened Prelude
  import opened Types
  import opened Store
  import opened ForkChoice
  import opened Sync
  import opened SyncFate
  import opened ChainStates

  datatype SyncError = NoCommonAncestor | BlockRefused(error: StateError) | FetchFailed

  /** Submits one batch; `forked` says that a block's parent was unknown. */
  method SubmitAll(w: World, p: Params, state: ChainState, bs: Chain, from: nat, clock: Clock, start: nat)
    returns (applied: nat, forked: bool, refused: Option<StateError>, tick: nat)
    requires state.Valid(w, p)
    modifies state
    ensures state.Valid(w, p)
    ensures SubmitBatch(w, p, old(state.View()), bs, from, clock, start, 0) ==
              if forked then Forked(state.View(), tick)
              else if refused.Some? then Failed(state.View())
              else Applied(state.View(), applied, tick)
  {
    hide Inv, Submit;
    applied, forked, refused, tick := 0, false, None, start;
    var i := 0;
    while i < |bs|
      invariant 0 <= i <= |bs|
      invariant state.Valid(w, p)
      invariant SubmitBatch(w, p, old(state.View()), bs, from, clock, start, 0)
             == SubmitBatch(w, p, state.View(), bs[i..], from, clock, tick, applied)
    {
      assert bs[i..][0] == bs[i] && bs[i..][1..] == bs[i + 1..];
      var r := state.SubmitBlock(w, p, bs[i], clock(tick));
      tick := tick + 1;
      if r.Ok? || r.error == AlreadyKnown {
        applied := applied + 1;
      } else if r.error == UnknownParent && from > 1 {
        forked := true;
        return;
      } else {
        refused := Some(r.error);
        return;
      }
      i := i + 1;
    }
  }

  datatype Verdict =
    | Again(from: nat, backtrack: nat, synced: nat, tick: nat)
    | Finished(synced: nat)
    | Stopped(error: SyncError)

  /** One turn of the loop on what was fetched: submit, then finish, step back, or move on from the new height. */
  method OneRound(w: World, p: Params, state: ChainState, blocks: Chain, remoteHeight: nat, clock: Clock,
                  fetchFrom: nat, backtrack: nat, synced: nat, start: nat)
    returns (v: Verdict)
    requires state.Valid(w, p)
    modifies state
    ensures state.Valid(w, p) && v != Stopped(FetchFailed)
    ensures RoundWith(w, p, Cursor(old(state.View()), fetchFrom, backtrack, synced, start), blocks, remoteHeight,
                      clock) ==
              match v
              case Again(from, back, total, tick) => Continue(Cursor(state.View(), from, back, total, tick))
              case Finished(total) => Done(state.View(), total)
              case Stopped(_) => Aborted(state.View())
  {
    hide Inv, SubmitBatch;
    if blocks == [] {
      return Finished(synced);
    }
    var applied, forked, refused, tick := SubmitAll(w, p, state, blocks, fetchFrom, clock, start);
    if forked {
      if backtrack + 1 > MAX_FORK_SEARCH_DEPTH || fetchFrom == 0 {
        return Stopped(NoCommonAncestor);
      }
      return Again(fetchFrom - 1, backtrack + 1, synced, tick);
    }
    if refused.Some? {
      return Stopped(BlockRefused(refused.value));
    }
    var currentHeight := if state.heightCache.Some? then state.heightCache.value else 0;
    if currentHeight >= remoteHeight {
      return Finished(synced + applied);
    }
    return Again(currentHeight + 1, 0, synced + applied, tick);
  }

  /** What a peer answers to each fetch: any blocks at all. */
  type Answers = (nat, nat) -> Chain

  /** The loop while the peer answers, from fetch number `i` to fetch number `n`. */
  ghost function Exchange(w: World, p: Params, c: Cursor, answer: Answers, i: nat, n: nat, remote: nat, clock: Clock)
    : Outcome
    requires p.WellFormed() && Inv(w, p, c.s) && i <= n
    decreases n - i
  {
    if i == n then Continue(c)
    else
      hide Inv, RoundWith;
      match RoundWith(w, p, c, answer(i, c.from), remote, clock)
      case Continue(c') => Exchange(w, p, c', answer, i + 1, n, remote, clock)
      case end => end
  }

  /** Fetches blocks and applies them, walking back past the fork when a parent is unknown, until it is done, gives up,
      or a fetch fails, as the one after the first `answered` does. */
  method SyncBlocks(w: World, p: Params, state: ChainState, answer: Answers, answered: nat, remoteHeight: nat,
                    clock: Clock)
    returns (r: Result<nat, SyncError>)
    requires state.Valid(w, p)
    modifies state
    ensures state.Valid(w, p)
    ensures match Exchange(w, p, Start(old(state.View())), answer, 0, answered, remoteHeight, clock)
            case Done(s', total) => r == Ok(total) && state.View() == s'
            case Aborted(s') => r.Err? && r.error != FetchFailed && state.View() == s'
            case Continue(c) => r == Err(FetchFailed) && state.View() == c.s
  {
    hide Inv, RoundWith;
    var synced: nat := 0;
    var fetchFrom: nat := (if state.heightCache.Some? then state.heightCache.value else 0) + 1;
    var backtrack: nat, tick: nat := 0, 0;
    LoopStart(state);
    var i := 0;
    while i < answered
      invariant i <= answered && state.Valid(w, p)
      invariant Exchange(w, p, Start(old(state.View())), answer, 0, answered, remoteHeight, clock)
             == Exchange(w, p, Cursor(state.View(), fetchFrom, backtrack, synced, tick), answer, i, answered,
                         remoteHeight, clock)
      decreases answered - i
    {
      var blocks := answer(i, fetchFrom);
      var v := OneRound(w, p, state, blocks, remoteHeight, clock, fetchFrom, backtrack, synced, tick);
      i := i + 1;
      match v {
        case Finished(total) => return Ok(total);
        case Stopped(e) => return Err(e);
        case Again(from, back, total, next) => fetchFrom, backtrack, synced, tick := from, back, total, next;
      }
    }
    return Err(FetchFailed);
  }

  lemma LoopStart(state: ChainState)
    ensures Start(state.View())
         == Cursor(state.View(), (if state.heightCache.Some? then state.heightCache.value else 0) + 1, 0, 0, 0)
  {
  }

  /** A peer that answers from one chain. */
  function From(peer: Chain): Answers { (call: nat, from: nat) => Fetch(peer, from) }

  /** It makes the loop the machine whose fate `SyncFate.SyncTheorem` decides. */
  lemma {:induction false} ExchangeIsRounds(w: World, p: Params, c: Cursor, peer: Chain, i: nat, n: nat, remote: nat,
                                            clock: Clock)
    requires p.WellFormed() && Inv(w, p, c.s) && i <= n
    ensures Exchange(w, p, c, From(peer), i, n, remote, clock) == Rounds(w, p, c, peer, remote, clock, n - i)
    decreases n - i
  {
    hide Inv, RoundWith;
    if i < n {
      var r := RoundWith(w, p, c, Fetch(peer, c.from), remote, clock);
      if r.Continue? { ExchangeIsRounds(w, p, r.cursor, peer, i + 1, n, remote, clock); }
    }
  }

  /** Against such a peer, honest and taller, the method returns what is decided there once enough fetches are answered,
      and fails by a fetch until then. */
  lemma EnoughAnswers(w: World, p: Params, s: State, peer: Chain, clock: Clock, k: nat) returns (m: nat)
    requires p.WellFormed() && Meets(w, p, s, peer, clock, k)
    ensures Inv(w, p, s) && peer != [] && Start(s).s == s
    ensures forall n: nat | n >= m :: Ended(w, p, s, peer, clock, n)
  {
    hide *;
    StartsHere(w, p, s, peer, clock, k);
    SyncTheorem(w, p, s, peer, clock, k);
    m := 0;
    if Completes(w, p, s, peer, clock) { m := CompletesWhen(w, p, s, peer, clock); }
    if Aborts(w, p, s, peer, clock) { m := AbortsWhen(w, p, s, peer, clock); }
    SyncAfterIs(w, p, s, peer, clock, m);
    forall n: nat | n >= m ensures Ended(w, p, s, peer, clock, n) {
      SyncAfterIs(w, p, s, peer, clock, n);
      ExchangeIsRounds(w, p, Start(s), peer, 0, n, |peer| - 1, clock);
      if !SyncAfter(w, p, s, peer, clock, m).Continue? {
        RoundsSettle(w, p, Start(s), peer, |peer| - 1, clock, m, n);
        EndsOnce(w, p, s, peer, clock, m);
      }
      EndedIs(w, p, s, peer, clock, n);
    }
  }

  /** After `n` answers the loop is where its fate says: on the peer's chain, given up, or still running. */
  ghost predicate Ended(w: World, p: Params, s: State, peer: Chain, clock: Clock, n: nat)
    requires p.WellFormed() && Inv(w, p, s) && peer != [] && Start(s).s == s
  {
    var r := Exchange(w, p, Start(s), From(peer), 0, n, |peer| - 1, clock);
    && (r.Done? <==> Completes(w, p, s, peer, clock))
    && (r.Aborted? <==> Aborts(w, p, s, peer, clock))
    && (r.Done? ==> Inv(w, p, r.s) && Best(w, r.s) == peer)
  }

  lemma EndedIs(w: World, p: Params, s: State, peer: Chain, clock: Clock, n: nat)
    requires p.WellFormed() && Inv(w, p, s) && peer != [] && Start(s).s == s
    ensures Ended(w, p, s, peer, clock, n) <==>
              var r := Exchange(w, p, Start(s), From(peer), 0, n, |peer| - 1, clock);
              && (r.Done? <==> Completes(w, p, s, peer, clock))
              && (r.Aborted? <==> Aborts(w, p, s, peer, clock))
              && (r.Done? ==> Inv(w, p, r.s) && Best(w, r.s) == peer)
  {
    hide Inv, Exchange, Completes, Aborts, Best;
  }
}
