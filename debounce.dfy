/** `useDebouncedValue(value, 400)`, which both overview screens define
    (src/features/projects/components/projects-overview.tsx and
    src/features/tasks/components/tasks-overview.tsx): every change of the
    input restarts a 400 ms timer, and only when the timer runs out does the
    debounced value take the input. Time is counted in ticks of 1 ms. */
module Debounce {
  import opened Wrappers

  const Delay: nat := 400

  /** The input, the debounced value, and the ticks left on the pending
      timer (none once it has fired). */
  datatype DebounceState<T> = DebounceState(value: T, debounced: T, remaining: Option<nat>)

  /** Mounting: the debounced value starts as the input, and the effect's
      first timer is already running. */
  function Mount<T>(v: T): (s: DebounceState<T>)
    ensures s.value == v && s.debounced == v && s.remaining == Some(Delay)
  {
    DebounceState(v, v, Some(Delay))
  }

  /** A new input. The effect reruns only when the value changes; it clears
      the pending timer and starts a new one. */
  function AfterInput<T(==)>(s: DebounceState<T>, v: T): (r: DebounceState<T>)
    ensures v == s.value ==> r == s
    ensures v != s.value ==> r.value == v && r.debounced == s.debounced && r.remaining == Some(Delay)
  {
    if v == s.value then s else DebounceState(v, s.debounced, Some(Delay))
  }

  /** One tick: the timer counts down, and when it runs out the debounced
      value becomes the input. */
  function AfterTick<T>(s: DebounceState<T>): (r: DebounceState<T>)
    ensures r.value == s.value
    ensures s.remaining.None? ==> r == s
    ensures s.remaining.Some? && s.remaining.value <= 1 ==> r.debounced == s.value && r.remaining.None?
    ensures s.remaining.Some? && s.remaining.value > 1 ==> r.debounced == s.debounced && r.remaining == Some(s.remaining.value - 1)
  {
    match s.remaining
    case None => s
    case Some(n) => if n <= 1 then DebounceState(s.value, s.value, None) else DebounceState(s.value, s.debounced, Some(n - 1))
  }

  function Ticks<T>(s: DebounceState<T>, n: nat): DebounceState<T>
    decreases n
  {
    if n == 0 then s else Ticks(AfterTick(s), n - 1)
  }

  /** Before the timer runs out the debounced value does not move; when it
      runs out the debounced value is the input and no timer is left. */
  lemma {:induction false} Countdown<T>(s: DebounceState<T>, k: nat)
    requires s.remaining.Some? && k <= s.remaining.value
    decreases k
    ensures Ticks(s, k).value == s.value
    ensures k < s.remaining.value ==> Ticks(s, k).debounced == s.debounced && Ticks(s, k).remaining == Some(s.remaining.value - k)
    ensures 0 < k == s.remaining.value ==> Ticks(s, k).debounced == s.value && Ticks(s, k).remaining.None?
  {
    if k > 0 {
      if s.remaining.value == 1 {
        assert Ticks(AfterTick(s), 0) == AfterTick(s);
      } else {
        Countdown(AfterTick(s), k - 1);
      }
    }
  }

  /** A new value shows after exactly `Delay` quiet ticks, and not before. */
  lemma Settles<T>(s: DebounceState<T>, v: T, k: nat)
    requires v != s.value && k <= Delay
    ensures k < Delay ==> Ticks(AfterInput(s, v), k).debounced == s.debounced
    ensures k == Delay ==> Ticks(AfterInput(s, v), k).debounced == v
  {
    Countdown(AfterInput(s, v), k);
  }

  /** A value replaced before its delay has passed never shows: the ticks it
      waited leave the debounced value alone, and the replacement starts a
      full new delay. */
  lemma CancelledNeverShown<T>(s: DebounceState<T>, k: nat, b: T)
    requires s.remaining.Some? && k < s.remaining.value && b != s.value
    ensures forall j :: 0 <= j <= k ==> Ticks(s, j).debounced == s.debounced
    ensures AfterInput(Ticks(s, k), b) == DebounceState(b, s.debounced, Some(Delay))
  {
    forall j | 0 <= j <= k
      ensures Ticks(s, j).debounced == s.debounced
    {
      Countdown(s, j);
    }
    Countdown(s, k);
  }

  /** The debouncer a screen holds, tied to the state above. */
  class Debouncer<T(==)> {
    var value: T
    var debounced: T
    var remaining: Option<nat>

    function Snapshot(): DebounceState<T>
      reads this
    {
      DebounceState(value, debounced, remaining)
    }

    constructor (v: T)
      ensures Snapshot() == Mount(v)
    {
      value := v;
      debounced := v;
      remaining := Some(Delay);
    }

    method Input(v: T)
      modifies this
      ensures Snapshot() == AfterInput(old(Snapshot()), v)
    {
      if v != value {
        value := v;
        remaining := Some(Delay);
      }
    }

    method Tick()
      modifies this
      ensures Snapshot() == AfterTick(old(Snapshot()))
    {
      if remaining.Some? {
        if remaining.value <= 1 {
          debounced := value;
          remaining := None;
        } else {
          remaining := Some(remaining.value - 1);
        }
      }
    }
  }
}
