/**
 * `useDebounce(value, delay)` (src/hooks/useSearch.ts) over discrete time.
 *
 * Each time the hook's input changes, the effect clears the pending timer and
 * arms a new one that will copy the input to the debounced value after
 * `delay`. Setting the input to the value it already has does not re-run the
 * effect, so the pending timer keeps running. A timer that falls due at the
 * same instant as a new input fires first.
 */
module Debounce {
  import opened Wrappers

  /** An armed `setTimeout`: when it fires, and the value it will publish. */
  datatype Timer<T> = Timer(due: int, value: T)

  /** The hook's state: its current input, its output, and the armed timer. */
  datatype Debouncer<T> = Debouncer(value: T, debounced: T, pending: Option<Timer<T>>)

  /** One assignment of the input at a point in time. */
  datatype Input<T> = Input(time: int, value: T)

  /**
   * Just mounted: the output starts as the input (`useState(value)`); the
   * mount effect's timer would publish that same value, so it is not kept.
   */
  function Start<T>(initial: T): (d: Debouncer<T>)
    ensures d.value == initial && d.debounced == initial && d.pending.None?
  {
    Debouncer(initial, initial, None)
  }

  /** Lets time run until `now`: a timer due by then fires and is gone. */
  function Advance<T>(d: Debouncer<T>, now: int): (d': Debouncer<T>)
    ensures d'.value == d.value
    ensures d'.pending.None? || (d'.pending == d.pending && d.pending.value.due > now)
    ensures d'.debounced == d.debounced || (d.pending.Some? && d'.debounced == d.pending.value.value)
  {
    match d.pending
    case Some(timer) =>
      if timer.due <= now then Debouncer(d.value, timer.value, None) else d
    case None => d
  }

  /** Sets the input at time `t`; a changed input re-arms the timer. */
  function Set<T(==)>(d: Debouncer<T>, t: int, v: T, delay: nat): (d': Debouncer<T>)
    ensures d'.value == v
  {
    var d1 := Advance(d, t);
    if v == d1.value then d1 else Debouncer(v, d1.debounced, Some(Timer(t + delay, v)))
  }

  /** The state after the given inputs, from a freshly mounted hook. */
  function Run<T(==)>(initial: T, delay: nat, inputs: seq<Input<T>>): (d: Debouncer<T>)
    ensures d.value == if |inputs| == 0 then initial else inputs[|inputs| - 1].value
  {
    if |inputs| == 0 then Start(initial)
    else
      var last := inputs[|inputs| - 1];
      Set(Run(initial, delay, inputs[..|inputs| - 1]), last.time, last.value, delay)
  }

  /** The hook's output at time `now`. */
  function DebouncedAt<T(==)>(initial: T, delay: nat, inputs: seq<Input<T>>, now: int): T {
    Advance(Run(initial, delay, inputs), now).debounced
  }

  // ---------------------------------------------------------------------
  // A reference description of trailing-edge debouncing, by inputs alone.

  predicate Sorted<T>(inputs: seq<Input<T>>) {
    forall i, j :: 0 <= i < j < |inputs| ==> inputs[i].time <= inputs[j].time
  }

  /** The input's value just before input `i`. */
  function Previous<T>(initial: T, inputs: seq<Input<T>>, i: nat): T
    requires i < |inputs|
  {
    if i == 0 then initial else inputs[i - 1].value
  }

  /** Input `i` changed the value. */
  predicate IsChange<T(==)>(initial: T, inputs: seq<Input<T>>, i: nat)
    requires i < |inputs|
  {
    inputs[i].value != Previous(initial, inputs, i)
  }

  /**
   * Input `i` gets published by `now`: it changed the value, `delay` has
   * passed since, and no later change came before its timer fell due.
   */
  predicate Fires<T(==)>(initial: T, delay: nat, inputs: seq<Input<T>>, i: nat, now: int)
    requires i < |inputs|
  {
    && IsChange(initial, inputs, i)
    && inputs[i].time + delay <= now
    && forall j :: i < j < |inputs| && IsChange(initial, inputs, j) ==> inputs[i].time + delay <= inputs[j].time
  }

  /** The value of the latest input among the first `n` that fires by `now`, else `initial`. */
  function LatestFired<T(==)>(initial: T, delay: nat, inputs: seq<Input<T>>, now: int, n: nat): T
    requires n <= |inputs|
  {
    if n == 0 then initial
    else if Fires(initial, delay, inputs, n - 1, now) then inputs[n - 1].value
    else LatestFired(initial, delay, inputs, now, n - 1)
  }

  lemma AdvanceTwice<T>(d: Debouncer<T>, t: int, now: int)
    requires t <= now
    ensures Advance(Advance(d, t), now) == Advance(d, now)
  {
  }

  /** `LatestFired` only looks at which inputs fire and what they carry. */
  lemma {:induction false} LatestFiredCongruent<T>(
    initial: T, delay: nat, a: seq<Input<T>>, nowA: int, b: seq<Input<T>>, nowB: int, n: nat)
    requires n <= |a| && n <= |b|
    requires forall i :: 0 <= i < n ==> a[i] == b[i]
    requires forall i :: 0 <= i < n ==> Fires(initial, delay, a, i, nowA) == Fires(initial, delay, b, i, nowB)
    ensures LatestFired(initial, delay, a, nowA, n) == LatestFired(initial, delay, b, nowB, n)
  {
    if n > 0 {
      LatestFiredCongruent(initial, delay, a, nowA, b, nowB, n - 1);
    }
  }

  /** Appending an input that repeats the current value changes no input's firing. */
  lemma FiresAfterRepeat<T>(initial: T, delay: nat, es: seq<Input<T>>, e: Input<T>, now: int, i: nat)
    requires i < |es|
    requires !IsChange(initial, es + [e], |es|)
    ensures Fires(initial, delay, es + [e], i, now) == Fires(initial, delay, es, i, now)
  {
    var inputs := es + [e];
    assert Previous(initial, inputs, i) == Previous(initial, es, i);
    forall j | i < j < |es| ensures inputs[j] == es[j] && IsChange(initial, inputs, j) == IsChange(initial, es, j) {
      assert Previous(initial, inputs, j) == Previous(initial, es, j);
    }
  }

  /**
   * Appending a change at time `t` that has not fired by `now >= t`: an
   * earlier input fires by `now` exactly when it had fired by `t`.
   */
  lemma FiresBeforeChange<T>(initial: T, delay: nat, es: seq<Input<T>>, e: Input<T>, now: int, i: nat)
    requires i < |es| && Sorted(es + [e]) && e.time <= now
    requires IsChange(initial, es + [e], |es|)
    ensures Fires(initial, delay, es + [e], i, now) == Fires(initial, delay, es, i, e.time)
  {
    var inputs := es + [e];
    assert inputs[i] == es[i] && inputs[|es|] == e;
    assert inputs[i].time <= e.time;
    assert Previous(initial, inputs, i) == Previous(initial, es, i);
    forall j | i < j < |es| ensures inputs[j] == es[j] && IsChange(initial, inputs, j) == IsChange(initial, es, j) {
      assert Previous(initial, inputs, j) == Previous(initial, es, j);
    }
  }

  /**
   * The hook is a trailing-edge debouncer: at any time no earlier than the
   * last input, its output is the latest value that stayed unchanged for
   * `delay`, or the initial value if none did.
   */
  lemma {:induction false} DebounceMatchesReference<T>(initial: T, delay: nat, inputs: seq<Input<T>>, now: int)
    requires Sorted(inputs)
    requires |inputs| > 0 ==> inputs[|inputs| - 1].time <= now
    ensures DebouncedAt(initial, delay, inputs, now) == LatestFired(initial, delay, inputs, now, |inputs|)
    decreases |inputs|
  {
    if |inputs| > 0 {
      var n := |inputs| - 1;
      var es := inputs[..n];
      var e := inputs[n];
      assert inputs == es + [e];
      assert Sorted(es);
      var d := Run(initial, delay, es);
      var d1 := Advance(d, e.time);
      assert Previous(initial, inputs, n) == d1.value;
      if e.value == d1.value {
        // Not a change: the pending timer, if any, keeps running.
        AdvanceTwice(d, e.time, now);
        DebounceMatchesReference(initial, delay, es, now);
        forall i | 0 <= i < n
          ensures Fires(initial, delay, inputs, i, now) == Fires(initial, delay, es, i, now)
        {
          FiresAfterRepeat(initial, delay, es, e, now, i);
        }
        LatestFiredCongruent(initial, delay, inputs, now, es, now, n);
      } else if e.time + delay > now {
        // A change still waiting: the output is what it was at time `e.time`.
        DebounceMatchesReference(initial, delay, es, e.time);
        forall i | 0 <= i < n
          ensures Fires(initial, delay, inputs, i, now) == Fires(initial, delay, es, i, e.time)
        {
          FiresBeforeChange(initial, delay, es, e, now, i);
        }
        LatestFiredCongruent(initial, delay, inputs, now, es, e.time, n);
      }
    }
  }

  /**
   * Once the input has been left alone for `delay`, the output has caught up
   * with it.
   */
  lemma {:induction false} CatchesUp<T>(initial: T, delay: nat, inputs: seq<Input<T>>, now: int)
    requires Sorted(inputs)
    requires |inputs| > 0 ==> inputs[|inputs| - 1].time + delay <= now
    ensures DebouncedAt(initial, delay, inputs, now) == Run(initial, delay, inputs).value
  {
    PendingTracksInput(initial, delay, inputs);
  }

  /**
   * Between inputs the armed timer, if any, carries the current input and
   * falls due at most `delay` after the last input; with no timer armed the
   * output already equals the input.
   */
  lemma {:induction false} PendingTracksInput<T>(initial: T, delay: nat, inputs: seq<Input<T>>)
    requires Sorted(inputs)
    ensures var d := Run(initial, delay, inputs);
      && (d.pending.None? ==> d.debounced == d.value)
      && (d.pending.Some? ==> d.pending.value.value == d.value && |inputs| > 0
                              && d.pending.value.due <= inputs[|inputs| - 1].time + delay)
    decreases |inputs|
  {
    if |inputs| > 0 {
      var es := inputs[..|inputs| - 1];
      assert Sorted(es);
      PendingTracksInput(initial, delay, es);
    }
  }
}

/** Keystrokes "a", "ab", "abc" at 0, 50 and 100 ms and "abcd" at 500 ms, with the hook's 300 ms delay. */
module DebounceExample {
  import opened Wrappers
  import opened Debounce

  function Keystrokes(): seq<Input<string>> {
    [Input(0, "a"), Input(50, "ab"), Input(100, "abc"), Input(500, "abcd")]
  }

  /**
   * The output changes twice: to "abc" at 400 ms (100 + 300, before the
   * fourth keystroke) and to "abcd" at 800 ms.
   */
  lemma TwoPublications()
    ensures DebouncedAt("", 300, Keystrokes()[..3], 399) == ""
    ensures DebouncedAt("", 300, Keystrokes()[..3], 400) == "abc"
    ensures DebouncedAt("", 300, Keystrokes(), 799) == "abc"
    ensures DebouncedAt("", 300, Keystrokes(), 800) == "abcd"
  {
    var ks := Keystrokes();
    assert ks[..0] == [] && ks[..1] == [ks[0]] && ks[..2] == [ks[0], ks[1]] && ks[..3][..2] == ks[..2];
    assert ks[..3] == [ks[0], ks[1], ks[2]] && ks[..4] == ks;
    assert Run("", 300, ks[..1]) == Debouncer("a", "", Some(Timer(300, "a")));
    assert Run("", 300, ks[..2]) == Debouncer("ab", "", Some(Timer(350, "ab")));
    assert Run("", 300, ks[..3]) == Debouncer("abc", "", Some(Timer(400, "abc")));
    assert Run("", 300, ks) == Debouncer("abcd", "abc", Some(Timer(800, "abcd")));
  }
}
