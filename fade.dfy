/** The fade-in ramp of a resident chunk (anim.js:266): each tick that
    keeps a chunk raises its `fadeState` by 0.02, capped at 1. The value is
    modelled as an exact real. */
module Fade {

  const FadeStep: real := 0.02

  /** `Math.min(fadeState + 0.02, 1)`: never above 1, never lower than a
      value in [0, 1] it starts from, strictly above 0 from any start at or
      above 0, and fixed at 1. */
  function NextFade(f: real): (g: real)
    ensures g <= 1.0
    ensures f <= 1.0 ==> f <= g
    ensures 0.0 <= f ==> 0.0 < g
    ensures f == 1.0 ==> g == 1.0
  {
    if f + FadeStep < 1.0 then f + FadeStep else 1.0
  }

  /** The fade after n ticks that keep the chunk, starting from f. */
  function FadeAfter(f: real, n: nat): real
  {
    if n == 0 then f else NextFade(FadeAfter(f, n - 1))
  }

  /** A chunk inserted with fadeState 0 has fade min(n * 0.02, 1) after n
      ticks: 0.02 after its first, 1 from its fiftieth on. */
  lemma {:induction false} FadeFromZero(n: nat)
    ensures FadeAfter(0.0, n) == if n < 50 then n as real * FadeStep else 1.0
  {
    if n > 0 {
      FadeFromZero(n - 1);
    }
  }

  /** Over any number of ticks the fade stays in [0, 1] and never decreases. */
  lemma {:induction false} FadeMonotone(f: real, m: nat, n: nat)
    requires 0.0 <= f <= 1.0
    requires m <= n
    ensures 0.0 <= FadeAfter(f, m) <= FadeAfter(f, n) <= 1.0
    decreases n
  {
    if n > 0 {
      FadeMonotone(f, if m < n then m else n - 1, n - 1);
    }
  }

  /** Once the fade reaches 1 it stays 1. */
  lemma {:induction false} FadeStaysOne(n: nat)
    ensures FadeAfter(1.0, n) == 1.0
  {
    if n > 0 {
      FadeStaysOne(n - 1);
    }
  }
}
