/** The bounded trail buffers of the scenes: a point is pushed at the end and
    the oldest points are shifted off the front while the trail is too long.
    The early cyclotron and the two-body scene also pad a one-point trail to
    two points, offset by 0.1 along x, so that a curve can be drawn through it. */
module Trails {
  import opened Vectors

  /** The newest n entries of s: all of s when it is no longer than n. */
  function KeepNewest<T>(s: seq<T>, n: nat): seq<T> {
    if |s| <= n then s else s[|s| - n..]
  }

  /** `while (trail.length > n) trail.shift();` */
  method ShiftWhileLonger<T>(s: seq<T>, n: nat) returns (r: seq<T>)
    ensures r == KeepNewest(s, n)
  {
    r := s;
    while |r| > n
      invariant |r| <= |s| && r == s[|s| - |r|..]
      invariant |s| > n ==> |r| >= n
      invariant |s| <= n ==> r == s
      decreases |r|
    {
      r := r[1..];
    }
  }

  /** Keeping the newest n entries leaves at most n, as a suffix, and drops nothing when there is room. */
  lemma KeepNewestBounded<T>(s: seq<T>, n: nat)
    ensures |KeepNewest(s, n)| <= n && |KeepNewest(s, n)| <= |s|
    ensures KeepNewest(s, n) == s[|s| - |KeepNewest(s, n)|..]
    ensures |s| <= n <==> KeepNewest(s, n) == s
    ensures |s| >= n ==> |KeepNewest(s, n)| == n
  {
  }

  /** Pushing onto a trail and trimming it to n >= 1: the pushed entry is the
      newest; a trail with room just grows; a trail already holding n entries
      (or more) loses its oldest ones first. */
  lemma PushThenKeep<T>(s: seq<T>, x: T, n: nat)
    requires n >= 1
    ensures var r := KeepNewest(s + [x], n);
      && |r| >= 1 && r[|r| - 1] == x
      && (|s| < n ==> r == s + [x])
      && (|s| >= n ==> r == s[|s| - n + 1..] + [x])
  {
    var t := s + [x];
    var r := KeepNewest(t, n);
    if |s| >= n {
      assert r == t[|t| - n..];
      assert t[|t| - n..] == s[|s| - n + 1..] + [x];
    }
  }

  /** The offset of the second point added to a one-point trail. */
  const PadOffset: Vec3 := Vec3(0.1, 0.0, 0.0)

  /** `if (trail.length < 2) trail.push(trail[0].clone().add(offset))` */
  function PadToTwo(s: seq<Vec3>): seq<Vec3>
    requires |s| >= 1
  {
    if |s| < 2 then s + [Add(s[0], PadOffset)] else s
  }

  /** The trail kept by a recording frame: push, trim to cap, pad to two. */
  function Recorded(s: seq<Vec3>, p: Vec3, cap: nat): seq<Vec3>
    requires cap >= 1
  {
    PushThenKeep(s, p, cap);
    PadToTwo(KeepNewest(s + [p], cap))
  }

  /** push, shift while longer than cap, pad to two points */
  method Record(s: seq<Vec3>, p: Vec3, cap: nat) returns (r: seq<Vec3>)
    requires cap >= 1
    ensures r == Recorded(s, p, cap)
  {
    r := s + [p];
    r := ShiftWhileLonger(r, cap);
    PushThenKeep(s, p, cap);
    if |r| < 2 {
      r := r + [Add(r[0], PadOffset)];
    }
  }

  /** A recording frame with cap >= 2 leaves between 2 and cap points. When
      the trimmed trail already has two points the new point is the newest one;
      otherwise the new point is the only one kept, and it is followed by its
      offset copy. */
  lemma RecordedBounds(s: seq<Vec3>, p: Vec3, cap: nat)
    requires cap >= 2
    ensures 2 <= |Recorded(s, p, cap)| <= cap
    ensures var k := KeepNewest(s + [p], cap);
      if |k| >= 2 then Recorded(s, p, cap) == k && k[|k| - 1] == p
      else Recorded(s, p, cap) == [p, Add(p, PadOffset)]
  {
    var t := s + [p];
    var k := KeepNewest(t, cap);
    PushThenKeep(s, p, cap);
    KeepNewestBounded(t, cap);
    assert Recorded(s, p, cap) == PadToTwo(k);
    if |k| >= 2 {
      assert PadToTwo(k) == k;
    } else {
      assert |k| == 1 && k[0] == p;
      assert k == [p];
      assert PadToTwo(k) == [p, Add(p, PadOffset)];
    }
  }

  /** The trail after frame number frameCount + 1 when every n-th frame
      records a point and the trail is capped at cap points. */
  function RecordEveryNth(trail: seq<Vec3>, frameCount: nat, p: Vec3, n: nat, cap: nat): seq<Vec3>
    requires n >= 1 && cap >= 1
  {
    if (frameCount + 1) % n == 0 then Recorded(trail, p, cap) else trail
  }

  /** A trail of 2 to cap points keeps between 2 and cap points; on a
      recording frame the current position becomes its newest point, and on
      any other frame nothing changes. */
  lemma RecordEveryNthBounded(trail: seq<Vec3>, frameCount: nat, p: Vec3, n: nat, cap: nat)
    requires n >= 1 && 2 <= |trail| <= cap
    ensures var t := RecordEveryNth(trail, frameCount, p, n, cap);
      && 2 <= |t| <= cap
      && ((frameCount + 1) % n == 0 ==> t[|t| - 1] == p)
      && ((frameCount + 1) % n != 0 ==> t == trail)
  {
    if (frameCount + 1) % n == 0 {
      RecordedBounds(trail, p, cap);
      KeepNewestBounded(trail + [p], cap);
    }
  }
}
