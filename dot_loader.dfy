/**
 * The dot loader: a 5 by 5 grid where a 2 by 2 block of active dots walks
 * around the border, one frame per interval tick, optionally stopping after
 * a number of rounds.
 */
module DotLoader {

  const GridSide: int := 5
  const DotCount: int := 25
  const FrameCount: int := 12

  /** `DEFAULT_FRAMES`: the dot indices of each frame, row by row. */
  const Frames: seq<seq<int>> := [
    [0, 1, 5, 6], [5, 6, 10, 11], [10, 11, 15, 16],
    [15, 16, 20, 21], [16, 17, 21, 22], [17, 18, 22, 23],
    [18, 19, 23, 24], [13, 14, 18, 19], [8, 9, 13, 14],
    [3, 4, 8, 9], [2, 3, 7, 8], [1, 2, 6, 7]]

  /** The top-left (row, column) of each frame's block, as the frame comments name them. */
  const Corners: seq<(int, int)> := [
    (0, 0), (1, 0), (2, 0),
    (3, 0), (3, 1), (3, 2),
    (3, 3), (2, 3), (1, 3),
    (0, 3), (0, 2), (0, 1)]

  /** The indices of the 2 by 2 block whose top-left dot is at (row, col). */
  function Block(row: int, col: int): seq<int> {
    [row * GridSide + col, row * GridSide + col + 1, (row + 1) * GridSide + col, (row + 1) * GridSide + col + 1]
  }

  /** Each frame is the block its comment names, and every block lies inside the grid. */
  lemma FramesAreBlocks()
    ensures |Frames| == FrameCount && |Corners| == FrameCount
    ensures forall f :: 0 <= f < FrameCount ==> Frames[f] == Block(Corners[f].0, Corners[f].1)
    ensures forall f :: 0 <= f < FrameCount ==>
      0 <= Corners[f].0 < GridSide - 1 && 0 <= Corners[f].1 < GridSide - 1
  {
  }

  /** The dots after `applyFrameToDots`: a missing frame returns early and changes nothing. */
  function Applied(dots: seq<bool>, frameIndex: int): (r: seq<bool>)
    ensures |r| == |dots|
  {
    if 0 <= frameIndex < FrameCount then seq(|dots|, i requires 0 <= i < |dots| => i in Frames[frameIndex])
    else dots
  }

  /** A frame turns on exactly its four dots of the grid. */
  lemma AppliedFrame(dots: seq<bool>, frameIndex: int)
    requires 0 <= frameIndex < FrameCount
    ensures forall i :: 0 <= i < |dots| ==> (Applied(dots, frameIndex)[i] <==> i in Frames[frameIndex])
    ensures |Frames[frameIndex]| == 4
    ensures forall j, k :: 0 <= j < k < 4 ==> Frames[frameIndex][j] != Frames[frameIndex][k]
    ensures forall j :: 0 <= j < 4 ==> 0 <= Frames[frameIndex][j] < DotCount
  {
    FramesAreBlocks();
  }

  /** `applyFrameToDots`: every dot's `data-active` flag set from the frame (`true` when active). */
  method ApplyFrameToDots(dots: array<bool>, frameIndex: int)
    modifies dots
    ensures dots[..] == Applied(old(dots[..]), frameIndex)
  {
    if !(0 <= frameIndex < FrameCount) {
      return;
    }
    var frame := Frames[frameIndex];
    var i := 0;
    while i < dots.Length
      invariant 0 <= i <= dots.Length
      invariant forall j :: 0 <= j < i ==> dots[j] == (j in frame)
    {
      dots[i] := i in frame;
      i := i + 1;
    }
  }

  /** The refs the interval reads and writes, whether the interval is cleared, and how often `onComplete` ran. */
  datatype LoaderState = LoaderState(index: int, repeats: int, cleared: bool, completions: nat)

  predicate ValidState(s: LoaderState) {
    0 <= s.index < FrameCount && s.repeats >= 0
  }

  /** The state right after mounting. */
  const Initial := LoaderState(0, 0, false, 0)

  /** One tick of the interval; a cleared interval does not tick. */
  function Step(s: LoaderState, repeatCount: int): (r: LoaderState)
    requires ValidState(s)
    ensures ValidState(r)
    ensures !s.cleared ==> r.index == (s.index + 1) % FrameCount
    ensures !s.cleared ==> (r.repeats == s.repeats + 1 <==> s.index == FrameCount - 1)
    ensures !s.cleared && s.index != FrameCount - 1 ==> r.repeats == s.repeats && r.cleared == s.cleared
    ensures s.cleared ==> r == s
  {
    if s.cleared then s
    else if s.index + 1 >= FrameCount then
      var stop := repeatCount != -1 && s.repeats + 1 >= repeatCount;
      LoaderState((s.index + 1) % FrameCount, s.repeats + 1, stop,
        if stop then s.completions + 1 else s.completions)
    else LoaderState((s.index + 1) % FrameCount, s.repeats, false, s.completions)
  }

  /** The state after `n` ticks from mounting. */
  function Run(repeatCount: int, n: nat): (s: LoaderState)
    ensures ValidState(s)
  {
    if n == 0 then Initial else Step(Run(repeatCount, n - 1), repeatCount)
  }

  /** How the frame index and the round count of tick `n` follow from those of tick `n - 1`. */
  lemma TickDivMod(n: nat)
    requires n > 0
    ensures (n - 1) % FrameCount == FrameCount - 1 ==> n % FrameCount == 0 && n / FrameCount == (n - 1) / FrameCount + 1
    ensures (n - 1) % FrameCount != FrameCount - 1 ==>
      n % FrameCount == (n - 1) % FrameCount + 1 && n / FrameCount == (n - 1) / FrameCount
  {
    var q := (n - 1) / FrameCount;
    assert n - 1 == FrameCount * q + (n - 1) % FrameCount;
    if (n - 1) % FrameCount == FrameCount - 1 {
      assert n == FrameCount * (q + 1);
    } else {
      assert n == FrameCount * q + ((n - 1) % FrameCount + 1);
    }
  }

  /** With the default repeat count of -1 the loader never stops and never completes. */
  lemma {:induction false} DefaultNeverStops(n: nat)
    ensures Run(-1, n) == LoaderState(n % FrameCount, n / FrameCount, false, 0)
  {
    if n > 0 {
      DefaultNeverStops(n - 1);
      TickDivMod(n);
    }
  }

  /** The number of ticks after which a loader with repeat count `k` stops. */
  function StopTick(k: int): nat {
    FrameCount * (if k > 1 then k else 1)
  }

  /** Before the stopping tick, the loader cycles through the frames and counts finished rounds. */
  lemma {:induction false} RunBeforeStop(k: int, n: nat)
    requires k != -1 && n < StopTick(k)
    ensures Run(k, n) == LoaderState(n % FrameCount, n / FrameCount, false, 0)
  {
    if n > 0 {
      RunBeforeStop(k, n - 1);
      TickDivMod(n);
      if (n - 1) % FrameCount == FrameCount - 1 {
        var m := if k > 1 then k else 1;
        assert n == FrameCount * (n / FrameCount);
        assert n / FrameCount < m;
      }
    }
  }

  /** The tick before round `m` ends shows the last frame, with `m - 1` rounds finished. */
  lemma LastTickOfRound(m: int)
    requires m >= 1
    ensures (FrameCount * m - 1) % FrameCount == FrameCount - 1
    ensures (FrameCount * m - 1) / FrameCount == m - 1
  {
    assert FrameCount * m - 1 == FrameCount * (m - 1) + (FrameCount - 1);
  }

  /**
   * With a repeat count `k` other than -1 the interval is cleared, and
   * `onComplete` has run once, exactly from tick 12 * max(k, 1) on.
   */
  lemma {:induction false} StopsAfterRounds(k: int, n: nat)
    requires k != -1
    ensures Run(k, n).cleared <==> n >= StopTick(k)
    ensures Run(k, n).completions == if n >= StopTick(k) then 1 else 0
  {
    var t := StopTick(k);
    if n < t {
      RunBeforeStop(k, n);
    } else if n == t {
      RunBeforeStop(k, n - 1);
      LastTickOfRound(if k > 1 then k else 1);
    } else {
      StopsAfterRounds(k, n - 1);
    }
  }

  /** The loader of one grid: the interval's refs and the grid's dots. */
  class Loader {
    var currentIndex: int
    var repeats: int
    var cleared: bool
    var completions: nat
    const repeatCount: int
    const dots: array<bool>

    function State(): LoaderState
      reads this
    {
      LoaderState(currentIndex, repeats, cleared, completions)
    }

    ghost predicate Valid()
      reads this
    {
      ValidState(State())
    }

    /** Mounting: both refs start at 0, so the range check of the interval effect leaves the index alone. */
    constructor(repeatCount: int, dots: array<bool>)
      ensures Valid() && State() == Initial
      ensures this.repeatCount == repeatCount && this.dots == dots
    {
      currentIndex := 0;
      repeats := 0;
      cleared := false;
      completions := 0;
      this.repeatCount := repeatCount;
      this.dots := dots;
    }

    /** The interval callback: apply the current frame, count a finished round, maybe stop, advance. */
    method Tick()
      requires Valid()
      modifies this, dots
      ensures Valid()
      ensures State() == Step(old(State()), repeatCount)
      ensures old(cleared) ==> dots[..] == old(dots[..])
      ensures !old(cleared) ==> dots[..] == Applied(old(dots[..]), old(currentIndex))
    {
      if cleared {
        return;
      }
      ApplyFrameToDots(dots, currentIndex);
      if currentIndex + 1 >= FrameCount {
        if repeatCount != -1 && repeats + 1 >= repeatCount {
          cleared := true;
          completions := completions + 1;
        }
        repeats := repeats + 1;
      }
      currentIndex := (currentIndex + 1) % FrameCount;
    }
  }
}
