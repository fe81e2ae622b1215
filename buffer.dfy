/** The bounded history buffers of the simulation: an array that receives
    `push(x)` followed by one `shift()` whenever its length exceeds a cap.
    The house keeps its last 50 usage records this way and the market its
    last 100 prices. */
module Buffer {

  /** Appends `x`; if the buffer is then longer than `cap`, drops its oldest element. */
  function PushCapped<T>(s: seq<T>, x: T, cap: nat): (r: seq<T>)
    ensures |s| <= cap ==> |r| <= cap
    ensures |r| == if |s| + 1 > cap then |s| else |s| + 1
    ensures |s| < cap ==> r == s + [x]
    ensures 0 < |s| && cap <= |s| ==> r == s[1..] + [x]
    ensures |s| <= cap ==> r == Latest(s + [x], cap)
    ensures cap > 0 ==> r != [] && r[|r| - 1] == x
  {
    var pushed := s + [x];
    if |pushed| > cap then
      assert 0 < |s| ==> pushed[1..] == s[1..] + [x];
      pushed[1..]
    else pushed
  }

  /** The most recent `cap` elements of `s`, oldest first. */
  function Latest<T>(s: seq<T>, cap: nat): (r: seq<T>)
    ensures |r| <= cap && |r| <= |s|
  {
    if |s| <= cap then s else s[|s| - cap..]
  }

  /** Pushes every element of `xs`, in order, into the capped buffer `s`. */
  function PushAll<T>(s: seq<T>, xs: seq<T>, cap: nat): seq<T>
    decreases |xs|
  {
    if xs == [] then s else PushAll(PushCapped(s, xs[0], cap), xs[1..], cap)
  }

  lemma LatestOfLatest<T>(u: seq<T>, v: seq<T>, cap: nat)
    ensures Latest(Latest(u, cap) + v, cap) == Latest(u + v, cap)
  {
    if |u| > cap {
      var w := u + v;
      var k := |u| - cap;
      var tail := u[k..] + v;
      assert tail == w[k..];
      if v != [] {
        assert Latest(tail, cap) == tail[|v|..];
        assert Latest(w, cap) == w[k + |v|..];
        forall i | 0 <= i < cap
          ensures tail[|v|..][i] == w[k + |v|..][i]
        {
          assert tail[|v| + i] == w[k + |v| + i];
        }
      }
    }
  }

  /** However many records were pushed, a buffer that started within its cap
      holds exactly the latest `cap` of everything it has seen, in arrival
      order: the oldest entry is the first evicted. */
  lemma {:induction false} PushAllKeepsLatest<T>(s: seq<T>, xs: seq<T>, cap: nat)
    requires cap > 0 && |s| <= cap
    ensures PushAll(s, xs, cap) == Latest(s + xs, cap)
    decreases |xs|
  {
    if xs == [] {
      assert s + xs == s;
    } else {
      var x, rest := xs[0], xs[1..];
      assert xs == [x] + rest;
      assert s + xs == (s + [x]) + rest;
      PushAllKeepsLatest(PushCapped(s, x, cap), rest, cap);
      LatestOfLatest(s + [x], rest, cap);
    }
  }
}
