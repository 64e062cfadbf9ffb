/** The per-connection fixed window of the game server: at most `RATE_LIMIT_MAX` messages
    are let through per window, and a window is replaced by the first message that comes
    more than `RATE_WINDOW_MS` after it opened. */
module SocketLimiter {
  const RATE_LIMIT_MAX := 10
  const RATE_WINDOW_MS := 1000

  /** `start` is the time the window opened, `count` the messages seen since. */
  datatype Window = Window(start: int, count: nat)

  /** A connection starts with a window opened at time 0. */
  const FreshWindow := Window(0, 0)

  function Roll(w: Window, now: int): Window {
    if now - w.start > RATE_WINDOW_MS then Window(now, 1) else Window(w.start, w.count + 1)
  }

  predicate Passes(w: Window, now: int) {
    Roll(w, now).count <= RATE_LIMIT_MAX
  }

  /** The window after a series of messages. */
  function After(w: Window, times: seq<int>): Window {
    if times == [] then w else Roll(After(w, times[..|times| - 1]), times[|times| - 1])
  }

  ghost predicate Monotone(times: seq<int>) {
    forall i, j :: 0 <= i < j < |times| ==> times[i] <= times[j]
  }

  /** How many of the messages pass and arrive within [lo, hi]. */
  function Passed(w: Window, times: seq<int>, lo: int, hi: int): nat
    decreases |times|
  {
    if times == [] then 0
    else
      (if Passes(w, times[0]) && lo <= times[0] <= hi then 1 else 0)
      + Passed(Roll(w, times[0]), times[1..], lo, hi)
  }

  // ---------------------------------------------------------------- upper bound

  function Room(w: Window): nat {
    if w.count <= RATE_LIMIT_MAX then RATE_LIMIT_MAX - w.count else 0
  }

  /** How many further windows can open up to time hi. */
  function WindowsLeft(w: Window, hi: int): nat {
    if hi < w.start then 0 else (hi - w.start) / (RATE_WINDOW_MS + 1)
  }

  lemma {:induction false} PassedAfterHigh(w: Window, times: seq<int>, lo: int, hi: int)
    requires forall i :: 0 <= i < |times| ==> hi < times[i]
    ensures Passed(w, times, lo, hi) == 0
    decreases |times|
  {
    if times != [] {
      PassedAfterHigh(Roll(w, times[0]), times[1..], lo, hi);
    }
  }

  /** What is left of the current window, and ten for each window that can still open. */
  lemma {:induction false} PassedFromWindow(w: Window, times: seq<int>, lo: int, hi: int)
    requires Monotone(times)
    ensures Passed(w, times, lo, hi) <= Room(w) + RATE_LIMIT_MAX * WindowsLeft(w, hi)
    decreases |times|
  {
    if times != [] {
      var t := times[0];
      if hi < t {
        PassedAfterHigh(w, times, lo, hi);
      } else {
        PassedFromWindow(Roll(w, t), times[1..], lo, hi);
        if t - w.start > RATE_WINDOW_MS {
          assert WindowsLeft(w, hi) >= WindowsLeft(Roll(w, t), hi) + 1;
        }
      }
    }
  }

  /** The messages let through in any closed interval of length `hi - lo` number at most
      ten for each 1001 ms it touches, rounded up, and ten more. */
  lemma {:induction false} UpperBound(w: Window, times: seq<int>, lo: int, hi: int)
    requires Monotone(times)
    requires lo <= hi
    ensures Passed(w, times, lo, hi) <= RATE_LIMIT_MAX * ((hi - lo + RATE_WINDOW_MS) / (RATE_WINDOW_MS + 1) + 1)
    decreases |times|
  {
    if times != [] {
      var t := times[0];
      if hi < t {
        PassedAfterHigh(w, times, lo, hi);
      } else if t < lo {
        UpperBound(Roll(w, t), times[1..], lo, hi);
      } else {
        PassedFromWindow(Roll(w, t), times[1..], lo, hi);
        var v := Roll(w, t);
        assert hi - v.start <= hi - lo + RATE_WINDOW_MS;
        assert WindowsLeft(v, hi) <= (hi - lo + RATE_WINDOW_MS) / (RATE_WINDOW_MS + 1);
        assert Passed(w, times, lo, hi) <= 1 + Room(v) + RATE_LIMIT_MAX * WindowsLeft(v, hi);
      }
    }
  }

  function Repeat(t: int, n: nat): (s: seq<int>)
    ensures |s| == n && forall i :: 0 <= i < n ==> s[i] == t
  {
    seq(n, i => t)
  }

  lemma {:induction false} RepeatPasses(w: Window, t: int, n: nat, rest: seq<int>, lo: int, hi: int)
    requires t - w.start <= RATE_WINDOW_MS && w.count + n <= RATE_LIMIT_MAX && lo <= t <= hi
    ensures Passed(w, Repeat(t, n) + rest, lo, hi) == n + Passed(Window(w.start, w.count + n), rest, lo, hi)
    decreases n
  {
    if n == 0 {
      assert Repeat(t, 0) + rest == rest;
    } else {
      var all := Repeat(t, n) + rest;
      assert all[1..] == Repeat(t, n - 1) + rest;
      RepeatPasses(Roll(w, t), t, n - 1, rest, lo, hi);
    }
  }

  /** Ten messages at 1000 ms, ten one millisecond later, and ten every 1001 ms from then on. */
  function Bursts(n: nat): (s: seq<int>)
    ensures n == 0 ==> s == Repeat(1000, 10)
  {
    if n == 0 then Repeat(1000, 10) else Bursts(n - 1) + Repeat(BurstAt(n), 10)
  }

  function BurstAt(n: nat): int {
    if n == 0 then 1000 else 1001 * n
  }

  lemma {:induction false} BurstsOrdered(n: nat)
    ensures |Bursts(n)| > 0 && Monotone(Bursts(n))
    ensures forall i :: 0 <= i < |Bursts(n)| ==> 1000 <= Bursts(n)[i] <= BurstAt(n)
  {
    if n > 0 {
      BurstsOrdered(n - 1);
    }
  }

  lemma {:induction false} PassedConcat(w: Window, a: seq<int>, b: seq<int>, lo: int, hi: int)
    ensures Passed(w, a + b, lo, hi) == Passed(w, a, lo, hi) + Passed(After(w, a), b, lo, hi)
    decreases |a|
  {
    if a == [] {
      assert a + b == b;
    } else {
      assert (a + b)[1..] == a[1..] + b;
      PassedConcat(Roll(w, a[0]), a[1..], b, lo, hi);
      AfterFront(w, a);
    }
  }

  lemma {:induction false} AfterFront(w: Window, times: seq<int>)
    requires times != []
    ensures After(w, times) == After(Roll(w, times[0]), times[1..])
    decreases |times|
  {
    var n := |times| - 1;
    if n > 0 {
      AfterFront(w, times[..n]);
      assert times[..n][1..] == times[1..][..n - 1];
    }
  }

  lemma {:induction false} AfterConcat(w: Window, a: seq<int>, b: seq<int>)
    ensures After(w, a + b) == After(After(w, a), b)
    decreases |b|
  {
    if b == [] {
      assert a + b == a;
    } else {
      var n := |b| - 1;
      assert (a + b)[..|a| + n] == a + b[..n];
      AfterConcat(w, a, b[..n]);
    }
  }

  lemma {:induction false} AfterRepeat(w: Window, t: int, n: nat)
    requires t - w.start <= RATE_WINDOW_MS
    ensures After(w, Repeat(t, n)) == Window(w.start, w.count + n)
  {
    if n > 0 {
      assert Repeat(t, n)[..n - 1] == Repeat(t, n - 1);
      AfterRepeat(w, t, n - 1);
    }
  }

  /** A burst that comes when the window is over passes whole, and fills the next one. */
  lemma BurstPasses(w: Window, t: int, lo: int, hi: int)
    requires t - w.start > RATE_WINDOW_MS && lo <= t <= hi
    ensures Passed(w, Repeat(t, 10), lo, hi) == 10 && After(w, Repeat(t, 10)) == Window(t, 10)
  {
    var burst := Repeat(t, 10);
    assert burst[1..] == Repeat(t, 9) && Repeat(t, 9) + [] == Repeat(t, 9);
    RepeatPasses(Window(t, 1), t, 9, [], lo, hi);
    AfterFront(w, burst);
    AfterRepeat(Window(t, 1), t, 9);
  }

  lemma {:induction false} BurstsPass(n: nat, hi: int)
    requires BurstAt(n) <= hi
    ensures Passed(FreshWindow, Bursts(n), 1000, hi) == 10 * (n + 1)
    ensures After(FreshWindow, Bursts(n)) == Window(if n == 0 then 0 else BurstAt(n), 10)
  {
    if n == 0 {
      assert Repeat(1000, 10) + [] == Repeat(1000, 10);
      RepeatPasses(FreshWindow, 1000, 10, [], 1000, hi);
      AfterRepeat(FreshWindow, 1000, 10);
    } else {
      BurstsPass(n - 1, hi);
      var w := After(FreshWindow, Bursts(n - 1));
      BurstPasses(w, BurstAt(n), 1000, hi);
      PassedConcat(FreshWindow, Bursts(n - 1), Repeat(BurstAt(n), 10), 1000, hi);
      AfterConcat(FreshWindow, Bursts(n - 1), Repeat(BurstAt(n), 10));
    }
  }

  /** The bound is met by intervals of every length, on a new connection. */
  lemma UpperBoundIsTight(length: nat) returns (times: seq<int>)
    ensures Monotone(times)
    ensures Passed(FreshWindow, times, 1000, 1000 + length)
            == RATE_LIMIT_MAX * ((length + RATE_WINDOW_MS) / (RATE_WINDOW_MS + 1) + 1)
  {
    var n := (length + RATE_WINDOW_MS) / (RATE_WINDOW_MS + 1);
    times := Bursts(n);
    BurstsOrdered(n);
    BurstsPass(n, 1000 + length);
  }

  /** So twenty messages can pass within two milliseconds. */
  lemma OneSecondIsTight() returns (times: seq<int>)
    ensures Monotone(times) && Passed(FreshWindow, times, 1000, 1001) == 20
  {
    times := UpperBoundIsTight(1);
  }

  // ---------------------------------------------------------------- no false rejection

  ghost predicate Spaced(times: seq<int>, gap: nat) {
    forall i :: 0 < i < |times| ==> times[i - 1] + gap <= times[i]
  }

  ghost predicate AllPass(w: Window, times: seq<int>) {
    forall i :: 0 <= i < |times| ==> Passes(After(w, times[..i]), times[i])
  }

  /** The window never outruns the clock: `count` messages take `101 * (count - 1)` ms. */
  ghost predicate Unhurried(w: Window, last: int) {
    1 <= w.count <= RATE_LIMIT_MAX && w.start + 101 * (w.count - 1) <= last
  }

  lemma {:induction false} SlowWindow(times: seq<int>)
    requires times != [] && times[0] >= 0 && Spaced(times, 101)
    ensures Unhurried(After(FreshWindow, times), times[|times| - 1])
    ensures Passes(After(FreshWindow, times[..|times| - 1]), times[|times| - 1])
  {
    var n := |times| - 1;
    if n > 0 {
      assert forall i :: 0 < i < n ==> times[..n][i - 1] + 101 <= times[..n][i];
      SlowWindow(times[..n]);
      assert times[n - 1] + 101 <= times[n];
    }
  }

  lemma NeverLimited(times: seq<int>)
    requires times == [] || times[0] >= 0
    requires Spaced(times, 101)
    ensures AllPass(FreshWindow, times)
  {
    forall i | 0 <= i < |times|
      ensures Passes(After(FreshWindow, times[..i]), times[i])
    {
      var pre := times[..i + 1];
      assert forall k :: 0 < k < |pre| ==> pre[k - 1] + 101 <= pre[k];
      SlowWindow(pre);
      assert pre[..i] == times[..i];
    }
  }

  /** Eleven messages exactly `gap` apart, the first of which opens a window. */
  function Steady(gap: nat, n: nat): (s: seq<int>)
    ensures |s| == n && forall i :: 0 <= i < n ==> s[i] == 2000 + gap * i
  {
    seq(n, i => 2000 + gap * i)
  }

  lemma {:induction false} SteadyWindow(gap: nat, n: nat)
    requires gap <= 100 && 1 <= n <= 11
    ensures After(FreshWindow, Steady(gap, n)) == Window(2000, n)
  {
    if n == 1 {
      assert Steady(gap, 1)[..0] == [];
    } else {
      assert Steady(gap, n)[..n - 1] == Steady(gap, n - 1);
      SteadyWindow(gap, n - 1);
      assert gap * (n - 1) <= 1000;
    }
  }

  /** Clients that leave `gap` ms between messages are never limited, whatever the
      length of the run, exactly when the gap is at least 101 ms. */
  lemma NoFalseRejection(gap: nat)
    ensures (forall times: seq<int> ::
               (times == [] || times[0] >= 0) && Spaced(times, gap) ==> AllPass(FreshWindow, times))
            <==> gap >= 101
  {
    if gap >= 101 {
      forall times: seq<int> | (times == [] || times[0] >= 0) && Spaced(times, gap)
        ensures AllPass(FreshWindow, times)
      {
        NeverLimited(times);
      }
    } else {
      var times := Steady(gap, 11);
      assert Spaced(times, gap);
      SteadyWindow(gap, 10);
      assert times[..10] == Steady(gap, 10);
      assert gap * 10 <= 1000;
      assert !Passes(After(FreshWindow, times[..10]), times[10]);
    }
  }
}
