/**
 What a resettable timer is for: it fires once a full period has passed since it was last
 restarted. A period of zero means never.
 */
module Deadlines {

  datatype Deadline = Deadline(now: nat, period: nat, restart: nat, frozen: bool, fires: nat)

  datatype Move =
    | Stay
    | Pass(ms: nat)
    | Restart
    | Change(period: nat)  // which restarts too
    | Freeze               // no restart or change after this one
    | Fire
    | Stop                 // never fires again

  predicate Allowed(d: Deadline, move: Move) {
    match move
    case Fire => d.period > 0 && d.restart + d.period <= d.now
    case Restart => !d.frozen
    case Change(_) => !d.frozen
    case Freeze => !d.frozen
    case _ => true
  }

  function Moved(d: Deadline, move: Move): Deadline {
    match move
    case Stay => d
    case Pass(ms) => d.(now := d.now + ms)
    case Restart => d.(restart := d.now)
    case Change(period) => d.(period := period, restart := d.now)
    case Freeze => d.(frozen := true, restart := d.now)
    case Fire => d.(restart := d.now, fires := d.fires + 1)
    case Stop => d.(period := 0, frozen := true)
  }

  ghost predicate AreMoves(d: Deadline, moves: seq<Move>)
    decreases |moves|
  {
    moves == [] || (Allowed(d, moves[0]) && AreMoves(Moved(d, moves[0]), moves[1..]))
  }

  function AfterMoves(d: Deadline, moves: seq<Move>): Deadline
    decreases |moves|
  {
    if moves == [] then d else AfterMoves(Moved(d, moves[0]), moves[1..])
  }

  ghost predicate KeepsPeriod(moves: seq<Move>) {
    forall move <- moves :: !move.Change?
  }

  /**
   With a fixed period, fires are a period apart: between two moments, the fires times the
   period fit in the time between the last restarts before them.
   */
  lemma {:induction false} RateBound(d: Deadline, moves: seq<Move>)
    requires AreMoves(d, moves) && KeepsPeriod(moves) && d.restart <= d.now
    ensures var d' := AfterMoves(d, moves);
      && (d'.fires - d.fires) * d.period <= d'.restart - d.restart
      && d.fires <= d'.fires && d'.restart <= d'.now
    decreases |moves|
  {
    if moves != [] {
      var d1, rest := Moved(d, moves[0]), moves[1..];
      RateBound(d1, rest);
      var d' := AfterMoves(d, moves);
      assert moves[0] in moves && forall move <- rest :: move in moves;
      match moves[0]
      case Fire =>
        assert (d'.fires - d.fires) * d.period == (d'.fires - d1.fires) * d.period + d.period;
      case Stop =>
        NeverFires(d1, rest);
      case _ =>
    }
  }

  /** A timer whose period is zero does not fire until the period is changed. */
  lemma {:induction false} NeverFires(d: Deadline, moves: seq<Move>)
    requires AreMoves(d, moves) && KeepsPeriod(moves) && d.period == 0
    ensures AfterMoves(d, moves).fires == d.fires && AfterMoves(d, moves).period == 0
    decreases |moves|
  {
    if moves != [] {
      assert moves[0] in moves && forall move <- moves[1..] :: move in moves;
      NeverFires(Moved(d, moves[0]), moves[1..]);
    }
  }

  /** Once frozen, a timer keeps its period and only its own fires restart it, unless it is stopped. */
  lemma {:induction false} FrozenKeepsPeriod(d: Deadline, moves: seq<Move>)
    requires AreMoves(d, moves) && d.frozen
    ensures var d' := AfterMoves(d, moves);
      && d'.frozen
      && (Stop !in moves ==> d'.period == d.period)
      && (Stop !in moves && d'.fires == d.fires ==> d'.restart == d.restart)
      && d.fires <= d'.fires
    decreases |moves|
  {
    if moves != [] {
      assert moves[0] in moves && forall move <- moves[1..] :: move in moves;
      FrozenKeepsPeriod(Moved(d, moves[0]), moves[1..]);
    }
  }
}
