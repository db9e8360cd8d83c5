/** Match scoring over a sequence of round winners: how many rounds each
    side took. The binary's match loop adds to exactly these counts, one
    round at a time. */
module Scoring {
  import opened Choices

  /** How many entries of `ws` are `w`. */
  function Count(ws: seq<Winner>, w: Winner): (n: nat)
    ensures n <= |ws|
  {
    if ws == [] then 0
    else Count(ws[..|ws| - 1], w) + (if ws[|ws| - 1] == w then 1 else 0)
  }

  /** Each round goes to exactly one of Human, Computer or Draw. */
  lemma {:induction false} CountPartition(ws: seq<Winner>)
    ensures Count(ws, Human) + Count(ws, Computer) + Count(ws, Draw) == |ws|
  {
    if ws != [] {
      CountPartition(ws[..|ws| - 1]);
    }
  }

  /** Count of a sequence extended by one entry. */
  lemma CountSnoc(ws: seq<Winner>, x: Winner, w: Winner)
    ensures Count(ws + [x], w) == Count(ws, w) + (if x == w then 1 else 0)
  {
  }

  /** Points grow one at a time, so a count that reaches `t` passes through
      exactly `t` after some prefix of the rounds. */
  lemma {:induction false} CountPassesThrough(ws: seq<Winner>, w: Winner, t: nat)
    requires t <= Count(ws, w)
    ensures exists k :: 0 <= k <= |ws| && Count(ws[..k], w) == t
  {
    assert ws[..|ws|] == ws;
    if t < Count(ws, w) {
      var p := ws[..|ws| - 1];
      CountPassesThrough(p, w, t);
      var k :| 0 <= k <= |p| && Count(p[..k], w) == t;
      assert p[..k] == ws[..k];
    }
  }
}
