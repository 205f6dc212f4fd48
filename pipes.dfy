/**
 * What the two Flappy engines (src/flappy_rl/flappy/flappy.h and
 * variations/flappy/flappy.h) share word for word: the geometry constants,
 * the Pipe record, clampf, and the loops over the pipe array (next-pipe search,
 * collision test, scoring scan, scrolling, leftmost/rightmost search).
 *
 * Positions are `real`: the engines' `float` rounding is not modelled.
 * A loop over `pipes[0 .. num_pipes)` is a method over the array, proved equal
 * to a function over the array's contents; the functions are what the step
 * specifications of the two engines are written with.
 */
module Pipes {

  const MaxPipes := 5
  const BirdXRatio: real := 0.2
  const PipeWidthRatio: real := 0.15
  const BirdRadiusRatio: real := 0.025
  const GapHeightRatio: real := 0.28
  const PipeSpeedRatio: real := 0.006
  const FlapVel: real := 0.02
  const Gravity: real := 0.0018
  const PipeSpacingRatio: real := 0.45
  const DefaultMaxSteps := 5000
  /** The initial `best_x` of the next-pipe search: a pipe at or beyond it is never "next". */
  const NoPipeX: real := 1000000000.0

  datatype Pipe = Pipe(x: real, gapCenterY: real, gapHeight: real, scored: int)

  /** The `unsigned char` terminal flag. */
  type Byte = b: int | 0 <= b < 256

  /** clampf: the value itself when it is in range, otherwise the bound it crossed. */
  function Clamp(v: real, lo: real, hi: real): (r: real)
    ensures lo <= hi ==> lo <= r <= hi
    ensures lo <= v <= hi ==> r == v
    ensures r == v || r == lo || r == hi
    ensures v < lo ==> r == lo
    ensures lo <= hi && v > hi ==> r == hi
  {
    if v < lo then lo else if v > hi then hi else v
  }

  /** Horizontal pixel positions derived from the viewport width. */
  function BirdX(width: int): real { width as real * BirdXRatio }
  function PipeWidth(width: int): real { width as real * PipeWidthRatio }

  /** A pipe whose right edge is still ahead of the bird. */
  predicate Ahead(p: Pipe, birdX: real, pw: real) { p.x + pw > birdX }

  /** A pipe the next-pipe search can pick: ahead, and below the initial `best_x`. */
  predicate Candidate(p: Pipe, birdX: real, pw: real) { Ahead(p, birdX, pw) && p.x < NoPipeX }

  // ---------------------------------------------------------------------------
  // Next pipe: the loop of compute_observations (and of the in-gap bonus).
  // ---------------------------------------------------------------------------

  /** The index the next-pipe loop holds after scanning ps[0 .. n), or -1. */
  function NextIndex(ps: seq<Pipe>, n: nat, birdX: real, pw: real): (k: int)
    requires n <= |ps|
    ensures -1 <= k < n
  {
    if n == 0 then -1
    else
      var k := NextIndex(ps, n - 1, birdX, pw);
      var bestX := if k < 0 then NoPipeX else ps[k].x;
      if Ahead(ps[n - 1], birdX, pw) && ps[n - 1].x < bestX then n - 1 else k
  }

  /** The search finds the leftmost pipe ahead of the bird (the first one on ties), or -1 when there is none. */
  lemma {:induction false} NextIndexIsLeftmostAhead(ps: seq<Pipe>, n: nat, birdX: real, pw: real)
    requires n <= |ps|
    ensures var k := NextIndex(ps, n, birdX, pw);
      && (k == -1 <==> forall i :: 0 <= i < n ==> !Candidate(ps[i], birdX, pw))
      && (k >= 0 ==> Candidate(ps[k], birdX, pw))
      && (k >= 0 ==> forall i :: 0 <= i < n && Ahead(ps[i], birdX, pw) ==> ps[k].x <= ps[i].x)
      && (k >= 0 ==> forall i :: 0 <= i < k && Ahead(ps[i], birdX, pw) ==> ps[k].x < ps[i].x)
  {
    if n > 0 {
      NextIndexIsLeftmostAhead(ps, n - 1, birdX, pw);
    }
  }

  method NextPipe(pipes: array<Pipe>, n: int, birdX: real, pw: real) returns (next: int)
    requires 0 <= n <= pipes.Length
    ensures next == NextIndex(pipes[..], n, birdX, pw)
  {
    next := -1;
    var bestX := NoPipeX;
    var i := 0;
    while i < n
      invariant 0 <= i <= n
      invariant next == NextIndex(pipes[..], i, birdX, pw)
      invariant bestX == if next < 0 then NoPipeX else pipes[next].x
    {
      if pipes[i].x + pw > birdX && pipes[i].x < bestX {
        bestX := pipes[i].x;
        next := i;
      }
      i := i + 1;
    }
  }

  // ---------------------------------------------------------------------------
  // Collision with a pipe (collides).
  // ---------------------------------------------------------------------------

  /**
   * Pipe p overlaps the bird's column [bxPx - br, bxPx + br] and the bird's
   * vertical extent [byPx - br, byPx + br] leaves the gap (all in pixels).
   */
  predicate Blocks(p: Pipe, bxPx: real, byPx: real, br: real, width: int, height: int)
  {
    var pw := PipeWidth(width);
    var gapC := p.gapCenterY * height as real;
    var gapH := p.gapHeight * height as real;
    && !(p.x + pw < bxPx - br || p.x > bxPx + br)
    && (byPx - br < gapC - gapH * 0.5 || byPx + br > gapC + gapH * 0.5)
  }

  /** The bird's extent [byPx - br, byPx + br] reaches the ceiling or the floor (pixels). */
  predicate OutOfBounds(byPx: real, br: real, height: int)
  {
    byPx - br <= 0.0 || byPx + br >= height as real
  }

  /** Some pipe among the first n blocks the bird. */
  predicate AnyBlocks(ps: seq<Pipe>, n: int, bxPx: real, byPx: real, br: real, width: int, height: int)
    requires n <= |ps|
  {
    exists i :: 0 <= i < n && Blocks(ps[i], bxPx, byPx, br, width, height)
  }

  method Collides(pipes: array<Pipe>, n: int, bxPx: real, byPx: real, br: real, width: int, height: int)
    returns (hit: bool)
    requires 0 <= n <= pipes.Length
    ensures hit <==> AnyBlocks(pipes[..], n, bxPx, byPx, br, width, height)
  {
    var pw := width as real * PipeWidthRatio;
    var i := 0;
    while i < n
      invariant 0 <= i <= n
      invariant forall j :: 0 <= j < i ==> !Blocks(pipes[j], bxPx, byPx, br, width, height)
    {
      var px := pipes[i].x;
      if !(px + pw < bxPx - br || px > bxPx + br) {
        var gapC := pipes[i].gapCenterY * height as real;
        var gapH := pipes[i].gapHeight * height as real;
        if byPx - br < gapC - gapH * 0.5 || byPx + br > gapC + gapH * 0.5 {
          return true;
        }
      }
      i := i + 1;
    }
    assert forall j :: 0 <= j < n ==> pipes[..][j] == pipes[j];
    return false;
  }

  // ---------------------------------------------------------------------------
  // Scoring scan: a pipe not yet scored whose right edge is behind the bird.
  // ---------------------------------------------------------------------------

  predicate Passes(p: Pipe, birdX: real, pw: real) { p.scored == 0 && p.x + pw < birdX }

  function MarkPassed(p: Pipe, birdX: real, pw: real): Pipe
  {
    if Passes(p, birdX, pw) then p.(scored := 1) else p
  }

  /** The pipe array after the scoring loop over its first n entries. */
  function Marked(ps: seq<Pipe>, n: nat, birdX: real, pw: real): (r: seq<Pipe>)
    requires n <= |ps|
    ensures |r| == |ps|
  {
    seq(|ps|, i requires 0 <= i < |ps| => if i < n then MarkPassed(ps[i], birdX, pw) else ps[i])
  }

  /** How many of ps[0 .. n) the scoring loop scores. */
  function NumPassed(ps: seq<Pipe>, n: nat, birdX: real, pw: real): (c: nat)
    requires n <= |ps|
    ensures c <= n
  {
    if n == 0 then 0
    else NumPassed(ps, n - 1, birdX, pw) + (if Passes(ps[n - 1], birdX, pw) then 1 else 0)
  }

  lemma {:induction false} NumPassedZero(ps: seq<Pipe>, n: nat, birdX: real, pw: real)
    requires n <= |ps|
    requires forall i :: 0 <= i < n ==> !Passes(ps[i], birdX, pw)
    ensures NumPassed(ps, n, birdX, pw) == 0
  {
    if n > 0 {
      NumPassedZero(ps, n - 1, birdX, pw);
    }
  }

  /**
   * Every pipe is scored at most once: the scan sets `scored` on each pipe it
   * counts, so a second scan over the marked pipes counts none of them.
   */
  lemma ScoredPipesDoNotScoreAgain(ps: seq<Pipe>, n: nat, birdX: real, pw: real)
    requires n <= |ps|
    ensures NumPassed(Marked(ps, n, birdX, pw), n, birdX, pw) == 0
    ensures forall i :: 0 <= i < n && Passes(ps[i], birdX, pw) ==> Marked(ps, n, birdX, pw)[i].scored == 1
  {
    NumPassedZero(Marked(ps, n, birdX, pw), n, birdX, pw);
  }

  // ---------------------------------------------------------------------------
  // Scrolling: every live pipe moves left by pipe_speed.
  // ---------------------------------------------------------------------------

  function Scrolled(ps: seq<Pipe>, n: nat, speed: real): (r: seq<Pipe>)
    requires n <= |ps|
    ensures |r| == |ps|
  {
    seq(|ps|, i requires 0 <= i < |ps| => if i < n then ps[i].(x := ps[i].x - speed) else ps[i])
  }

  method Scroll(pipes: array<Pipe>, n: int, speed: real)
    requires 0 <= n <= pipes.Length
    modifies pipes
    ensures pipes[..] == Scrolled(old(pipes[..]), n, speed)
  {
    var i := 0;
    while i < n
      invariant 0 <= i <= n
      invariant forall j :: 0 <= j < i ==> pipes[j] == old(pipes[j]).(x := old(pipes[j]).x - speed)
      invariant forall j :: i <= j < pipes.Length ==> pipes[j] == old(pipes[j])
    {
      pipes[i] := pipes[i].(x := pipes[i].x - speed);
      i := i + 1;
    }
  }

  // ---------------------------------------------------------------------------
  // Leftmost and rightmost pipe (recycling).
  // ---------------------------------------------------------------------------

  /** The index the leftmost loop holds: starts at 0, moves to i when pipe i is strictly further left. */
  function LeftmostIndex(ps: seq<Pipe>, n: nat): (k: nat)
    requires 1 <= |ps| && n <= |ps|
    ensures k < |ps| && (n >= 1 ==> k < n)
  {
    if n <= 1 then 0
    else
      var k := LeftmostIndex(ps, n - 1);
      if ps[n - 1].x < ps[k].x then n - 1 else k
  }

  /** Leftmost is a minimum of the live pipes' x, and the first one on ties. */
  lemma {:induction false} LeftmostIsFirstMinimum(ps: seq<Pipe>, n: nat)
    requires 1 <= n <= |ps|
    ensures var k := LeftmostIndex(ps, n);
      && (forall i :: 0 <= i < n ==> ps[k].x <= ps[i].x)
      && (forall i :: 0 <= i < k ==> ps[k].x < ps[i].x)
  {
    if n > 1 {
      LeftmostIsFirstMinimum(ps, n - 1);
    }
  }

  method Leftmost(pipes: array<Pipe>, n: int) returns (k: int)
    requires 1 <= pipes.Length && 0 <= n <= pipes.Length
    ensures k == LeftmostIndex(pipes[..], n)
  {
    k := 0;
    var i := 1;
    while i < n
      invariant 1 <= i <= pipes.Length && (i == 1 || i <= n)
      invariant k == LeftmostIndex(pipes[..], i)
    {
      if pipes[i].x < pipes[k].x {
        k := i;
      }
      i := i + 1;
    }
    assert n == 0 ==> LeftmostIndex(pipes[..], i) == LeftmostIndex(pipes[..], n);
  }

  /** The value the rightmost loop holds: starts at pipes[0].x and keeps the largest x seen. */
  function RightmostX(ps: seq<Pipe>, n: nat): real
    requires 1 <= |ps| && n <= |ps|
  {
    if n <= 1 then ps[0].x
    else
      var r := RightmostX(ps, n - 1);
      if ps[n - 1].x > r then ps[n - 1].x else r
  }

  /** The rightmost x is the largest x of pipe 0 and the live pipes, and is one of them. */
  lemma {:induction false} RightmostIsMaximum(ps: seq<Pipe>, n: nat)
    requires 1 <= |ps| && n <= |ps|
    ensures var r := RightmostX(ps, n);
      && ps[0].x <= r
      && (forall i :: 0 <= i < n ==> ps[i].x <= r)
      && (r == ps[0].x || exists i :: 0 <= i < n && r == ps[i].x)
  {
    if n > 1 {
      RightmostIsMaximum(ps, n - 1);
    }
  }

  method Rightmost(pipes: array<Pipe>, n: int) returns (r: real)
    requires 1 <= pipes.Length && 0 <= n <= pipes.Length
    ensures r == RightmostX(pipes[..], n)
  {
    r := pipes[0].x;
    var i := 1;
    while i < n
      invariant 1 <= i <= pipes.Length && (i == 1 || i <= n)
      invariant r == RightmostX(pipes[..], i)
    {
      if pipes[i].x > r {
        r := pipes[i].x;
      }
      i := i + 1;
    }
    assert n == 0 ==> RightmostX(pipes[..], i) == RightmostX(pipes[..], n);
  }
}
