/** The stage manager of the LDEO furnace: a linear feeder that carries the
    sample holes past the furnace. Moving to a hole approaches it from below
    (hysteresis), and each move waits until the feeder has settled. */
module FurnaceStage {
  import opened Wrappers

  /** A command given to the feeder axis. */
  datatype FeederCommand = MoveAbsolute(x: real) | Slew(distance: real)

  /** Python truthiness of a position: None and 0 are false. */
  predicate Truthy(p: Option<real>)
  {
    p.Some? && p.value != 0.0
  }

  /** How far below a hole the feeder is sent first when it must back up. */
  const HysteresisOffset: real := 5.0

  /** The calibrated positions the feeder is sent to, in order, when moving
      to a hole at `pos` (calibrated to `x`) after the hole at `prev`: a
      detour to x - 5 first exactly when the previous position is truthy
      and above the new one, then x itself. */
  function Approach(prev: Option<real>, pos: real, x: real): (moves: seq<real>)
    ensures |moves| == (if Truthy(prev) && prev.value > pos then 2 else 1)
    ensures moves[|moves| - 1] == x
    ensures |moves| == 2 ==> moves[0] == x - HysteresisOffset
  {
    if Truthy(prev) && prev.value > pos then [x - HysteresisOffset, x] else [x]
  }

  /** A calibration that keeps the order of positions. */
  ghost predicate Monotone(calibrate: real -> real)
  {
    forall a: real, b: real :: a <= b ==> calibrate(a) <= calibrate(b)
  }

  /** The point of the hysteresis: with an order-keeping calibration, and
      the feeder at the previous hole, the last move into a hole never runs
      downwards. */
  lemma ApproachFromBelow(prev: real, pos: real, calibrate: real -> real)
    requires prev != 0.0 && Monotone(calibrate)
    ensures var moves := Approach(Some(prev), pos, calibrate(pos));
      var start := if |moves| == 2 then moves[0] else calibrate(prev);
      start <= calibrate(pos)
  {
    if prev <= pos {
      assert calibrate(prev) <= calibrate(pos);
    }
  }

  /** The feeder commands of a sequence of absolute moves. */
  function MoveCommands(moves: seq<real>): (r: seq<FeederCommand>)
    ensures |r| == |moves|
    ensures forall k :: 0 <= k < |moves| ==> r[k] == MoveAbsolute(moves[k])
  {
    seq(|moves|, k requires 0 <= k < |moves| => MoveAbsolute(moves[k]))
  }

  /** Whether the `i`-th poll completes three consecutive polls of a feeder
      that is not moving. */
  predicate SettledAt(polls: seq<bool>, i: int)
  {
    2 <= i < |polls| && !polls[i - 2] && !polls[i - 1] && !polls[i]
  }

  /** The furnace stage manager. The hole positions of the stage map, the
      calibration and the feeder's replies are outside it and are given to
      it; the canvas is kept as the list of desired positions it was sent. */
  class LdeoFurnaceStageManager {
    /** Whether a feeder is configured. */
    const hasFeeder: bool
    /** The x of `get_calibrated_position`. */
    const calibrate: real -> real
    var tempHole: Option<string>
    var tempPosition: Option<real>
    /** The feeder's `_position`. */
    var feederPosition: real
    /** Every command given to the feeder, in order. */
    var commands: seq<FeederCommand>
    /** Every x sent to the canvas's `set_desired_position`, in order. */
    var desired: seq<real>

    constructor (hasFeeder: bool, calibrate: real -> real)
      ensures this.hasFeeder == hasFeeder && this.calibrate == calibrate
      ensures tempHole == None && tempPosition == None && feederPosition == 0.0
      ensures commands == [] && desired == []
    {
      this.hasFeeder := hasFeeder;
      this.calibrate := calibrate;
      tempHole := None;
      tempPosition := None;
      feederPosition := 0.0;
      commands := [];
      desired := [];
    }

    /** `get_current_position`: the feeder's position `reading` and 0, or
        None without a feeder. */
    method GetCurrentPosition(reading: real) returns (r: Option<(real, real)>)
      ensures r.Some? <==> hasFeeder
      ensures r.Some? ==> r.value == (reading, 0.0)
    {
      if hasFeeder {
        return Some((reading, 0.0));
      }
      return None;
    }

    /** `relative_move`: the feeder slews by direction times distance;
        without a feeder the call raises AttributeError. */
    method RelativeMove(direction: real, distance: real) returns (err: Option<PyException>)
      modifies this`commands
      ensures hasFeeder ==> err == None && commands == old(commands) + [Slew(direction * distance)]
      ensures !hasFeeder ==> err == Some(AttributeError) && commands == old(commands)
    {
      if !hasFeeder {
        return Some(AttributeError);
      }
      commands := commands + [Slew(direction * distance)];
      err := None;
    }

    /** One absolute move: the canvas shows it, the feeder's `_position` is
        set and the feeder is commanded. */
    method MoveFeeder(x: real) returns (err: Option<PyException>)
      modifies this`feederPosition, this`commands, this`desired
      ensures desired == old(desired) + [x]
      ensures hasFeeder ==> err == None && feederPosition == x && commands == old(commands) + [MoveAbsolute(x)]
      ensures !hasFeeder ==> err == Some(AttributeError) && feederPosition == old(feederPosition) && commands == old(commands)
    {
      desired := desired + [x];
      if !hasFeeder {
        return Some(AttributeError);
      }
      feederPosition := x;
      commands := commands + [MoveAbsolute(x)];
      err := None;
    }

    /** `_move_to_hole(key)` with the stage map's position `holePos` of the
        hole. A falsy position moves nothing. Otherwise the hole and its
        position are remembered, and the feeder is sent to the moves of
        `Approach` from the previously remembered position, ending at the
        calibrated position of the hole. */
    method MoveToHole(key: string, holePos: Option<real>) returns (err: Option<PyException>)
      modifies this`tempHole, this`tempPosition, this`feederPosition, this`commands, this`desired
      ensures !Truthy(holePos) ==> err == None
      ensures !Truthy(holePos) ==> unchanged(this`tempHole, this`tempPosition, this`feederPosition, this`commands, this`desired)
      ensures Truthy(holePos) ==> tempHole == Some(key) && tempPosition == holePos
      ensures Truthy(holePos) && hasFeeder ==>
        var moves := Approach(old(tempPosition), holePos.value, calibrate(holePos.value));
        && err == None && feederPosition == calibrate(holePos.value)
        && desired == old(desired) + moves && commands == old(commands) + MoveCommands(moves)
      ensures Truthy(holePos) && !hasFeeder ==>
        var moves := Approach(old(tempPosition), holePos.value, calibrate(holePos.value));
        && err == Some(AttributeError) && desired == old(desired) + [moves[0]]
        && feederPosition == old(feederPosition) && commands == old(commands)
    {
      if !Truthy(holePos) {
        return None;
      }
      var pos := holePos.value;
      var doHysteresis := Truthy(tempPosition) && tempPosition.value > pos;
      tempHole := Some(key);
      tempPosition := holePos;
      var x := calibrate(pos);
      if doHysteresis {
        var hx := x - HysteresisOffset;
        err := MoveFeeder(hx);
        if err.Some? {
          return;
        }
      }
      err := MoveFeeder(x);
    }

    /** `_inprogress`, over the replies of `moving()` to the polls made
        before the timeout: polling stops after three consecutive polls of
        a feeder that is not moving, and a moving poll starts the count
        again. Returns how many polls were made and whether the feeder
        settled. */
    method InProgress(polls: seq<bool>) returns (n: nat, settled: bool)
      ensures n <= |polls|
      ensures settled ==> n >= 3 && SettledAt(polls, n - 1)
      ensures !settled ==> n == |polls|
      ensures forall j :: 0 <= j < n - 1 ==> !SettledAt(polls, j)
      ensures !settled ==> !SettledAt(polls, |polls| - 1)
    {
      var cnt := 0;
      var i := 0;
      while i < |polls|
        invariant 0 <= i <= |polls|
        invariant 0 <= cnt <= 2 && cnt <= i
        invariant forall j :: i - cnt <= j < i ==> !polls[j]
        invariant i - cnt > 0 ==> polls[i - cnt - 1]
        invariant forall j :: 0 <= j < i ==> !SettledAt(polls, j)
      {
        if !polls[i] {
          cnt := cnt + 1;
          if cnt > 2 {
            return i + 1, true;
          }
        } else {
          cnt := 0;
        }
        i := i + 1;
      }
      return i, false;
    }
  }
}
