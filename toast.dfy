/**
 * The notification queue of frontend/src/components/Toast.tsx: the provider's
 * list of toasts, `addToast` (append with defaults, and a scheduled removal
 * for a positive duration), `removeToast` (drop every toast with an id) and
 * the `useToast` guard.
 *
 * A toast's id is the caller's clock reading (`Date.now()`), given as a
 * parameter; the pending `setTimeout` callbacks are the list `timers`, and a
 * timer firing is the method `FireTimer`.
 */
module Toasts {
  import opened Wrappers

  datatype Variant = Success | Error | Warning | Info

  datatype Toast = Toast(id: int, message: string, variant: Variant, duration: int)

  /** A scheduled `removeToast(id)`, due `delay` milliseconds after it was set. */
  datatype Timer = Timer(id: int, delay: int)

  const DEFAULT_VARIANT: Variant := Info
  const DEFAULT_DURATION: int := 5000
  const OUTSIDE_PROVIDER: string := "useToast must be used within a ToastProvider"

  /** `toasts.filter((toast) => toast.id !== id)`: exactly the toasts with another id. */
  function Without(toasts: seq<Toast>, id: int): (r: seq<Toast>)
    ensures |r| <= |toasts|
    ensures forall t :: t in r <==> t in toasts && t.id != id
  {
    if toasts == [] then []
    else (if toasts[0].id != id then [toasts[0]] else []) + Without(toasts[1..], id)
  }

  /** Removing distributes over concatenation, so the kept toasts stay in their relative order. */
  lemma {:induction false} WithoutConcat(a: seq<Toast>, b: seq<Toast>, id: int)
    ensures Without(a + b, id) == Without(a, id) + Without(b, id)
  {
    if a == [] {
      assert a + b == b;
    } else {
      assert (a + b)[0] == a[0];
      assert (a + b)[1..] == a[1..] + b;
      WithoutConcat(a[1..], b, id);
    }
  }

  /** Removing an id that no toast carries changes nothing. */
  lemma {:induction false} WithoutAbsent(toasts: seq<Toast>, id: int)
    requires forall i :: 0 <= i < |toasts| ==> toasts[i].id != id
    ensures Without(toasts, id) == toasts
  {
    if toasts != [] {
      WithoutAbsent(toasts[1..], id);
      assert [toasts[0]] + toasts[1..] == toasts;
    }
  }

  /** Removing the same id twice is removing it once. */
  lemma WithoutIdempotent(toasts: seq<Toast>, id: int)
    ensures Without(Without(toasts, id), id) == Without(toasts, id)
  {
    var once := Without(toasts, id);
    forall i | 0 <= i < |once| ensures once[i].id != id {
      assert once[i] in once;
    }
    WithoutAbsent(once, id);
  }

  /** Adding a toast with a fresh id and then removing that id gives back the original list. */
  lemma AddThenRemove(toasts: seq<Toast>, t: Toast)
    requires forall i :: 0 <= i < |toasts| ==> toasts[i].id != t.id
    ensures Without(toasts + [t], t.id) == toasts
  {
    WithoutConcat(toasts, [t], t.id);
    WithoutAbsent(toasts, t.id);
    assert Without([t], t.id) == [];
  }

  /**
   * Two toasts added in the same millisecond share an id, so the first one's
   * timer (or close button) dismisses both.
   */
  lemma SameMillisecondToastsDismissedTogether(toasts: seq<Toast>, first: Toast, second: Toast)
    requires first.id == second.id
    ensures Without(toasts + [first] + [second], first.id) == Without(toasts, first.id)
  {
    WithoutConcat(toasts + [first], [second], first.id);
    WithoutConcat(toasts, [first], first.id);
    assert Without([first], first.id) == [] && Without([second], first.id) == [];
  }

  /** The timer `addToast` schedules, if any: one only for a positive duration. */
  function Scheduled(t: Toast): (timers: seq<Timer>)
    ensures |timers| <= 1
    ensures timers != [] <==> t.duration > 0
    ensures forall i :: 0 <= i < |timers| ==> timers[i] == Timer(t.id, t.duration)
  {
    if t.duration > 0 then [Timer(t.id, t.duration)] else []
  }

  /** `useToast`: the provider's context, or the error thrown outside one. */
  function UseToast<C>(context: Option<C>): (r: Result<C, string>)
    ensures r.Success? <==> context.Some?
    ensures r.Success? ==> r.value == context.value
    ensures r.Failure? ==> r.error == OUTSIDE_PROVIDER
  {
    match context
    case None => Failure(OUTSIDE_PROVIDER)
    case Some(c) => Result.Success(c)
  }

  class ToastProvider {
    /** The `toasts` state, in display order. */
    var toasts: seq<Toast>
    /** The removals scheduled with `setTimeout` and not yet run. */
    var timers: seq<Timer>

    constructor ()
      ensures toasts == [] && timers == []
    {
      toasts := [];
      timers := [];
    }

    /**
     * `addToast(message, variant = 'info', duration = 5000)` at clock
     * reading `now`: appends one toast and schedules its removal when the
     * duration is positive.
     */
    method AddToast(now: int, message: string, variant: Option<Variant>, duration: Option<int>)
      modifies this
      ensures var t := Toast(now, message, variant.GetOr(DEFAULT_VARIANT), duration.GetOr(DEFAULT_DURATION));
        toasts == old(toasts) + [t] && timers == old(timers) + Scheduled(t)
    {
      var t := Toast(now, message, variant.GetOr(DEFAULT_VARIANT), duration.GetOr(DEFAULT_DURATION));
      toasts := toasts + [t];
      if t.duration > 0 {
        timers := timers + [Timer(t.id, t.duration)];
      }
    }

    /** `removeToast(id)`. */
    method RemoveToast(id: int)
      modifies this
      ensures toasts == Without(old(toasts), id) && timers == old(timers)
    {
      toasts := Without(toasts, id);
    }

    /** The i-th pending timer fires: it is no longer pending and its removal runs. */
    method FireTimer(i: nat)
      requires i < |timers|
      modifies this
      ensures toasts == Without(old(toasts), old(timers)[i].id)
      ensures timers == old(timers)[..i] + old(timers)[i + 1..]
    {
      var timer := timers[i];
      timers := timers[..i] + timers[i + 1..];
      RemoveToast(timer.id);
    }
  }
}
