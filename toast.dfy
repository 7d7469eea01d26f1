/** The toast queue: notices appended at the end of a list and each removed,
    together with every notice sharing its id, when its timer fires.  Timers are
    deadlines on a logical clock; the ids are the creation times in ms. */
module ToastQueue {
  import opened JsText

  datatype Toast = Toast(id: int, message: string, kind: string)

  /** A pending removal: at time `due`, drop the toasts with id `id`. */
  datatype Timer = Timer(due: int, id: int)

  const DefaultDurationMs: int := 3000

  /** `type = 'info'`: the default applies only when no type is passed. */
  function KindOf(kind: Option<string>): (r: string)
    ensures kind.None? ==> r == "info"
    ensures kind.Some? ==> r == kind.value
  {
    if kind.None? then "info" else kind.value
  }

  /** The delay of the removal timer: 3000 ms by default; a negative delay
      behaves as 0. */
  function Delay(duration: Option<int>): (r: int)
    ensures r >= 0
    ensures duration.None? ==> r == DefaultDurationMs
    ensures duration.Some? && duration.value >= 0 ==> r == duration.value
  {
    if duration.None? then DefaultDurationMs
    else if duration.value < 0 then 0
    else duration.value
  }

  datatype Style = SuccessStyle | ErrorStyle | InfoStyle

  /** `colors[t.type] || colors.info`. */
  function StyleOf(kind: string): (r: Style)
    ensures r == SuccessStyle <==> kind == "success"
    ensures r == ErrorStyle <==> kind == "error"
    ensures r == InfoStyle <==> kind != "success" && kind != "error"
  {
    if kind == "success" then SuccessStyle
    else if kind == "error" then ErrorStyle
    else InfoStyle
  }

  // ---------------------------------------------------------------------------
  // Removal

  /** `prev.filter(t => t.id !== id)`. */
  function WithoutId(ts: seq<Toast>, id: int): (r: seq<Toast>)
    ensures |r| <= |ts|
    ensures forall t {:trigger t in r} :: t in r <==> t in ts && t.id != id
  {
    if ts == [] then []
    else (if ts[0].id != id then [ts[0]] else []) + WithoutId(ts[1..], id)
  }

  /** The filter keeps the queue's order: filtering a concatenation filters each part. */
  lemma {:induction false} WithoutIdAppend(a: seq<Toast>, b: seq<Toast>, id: int)
    ensures WithoutId(a + b, id) == WithoutId(a, id) + WithoutId(b, id)
  {
    if a != [] {
      WithoutIdAppend(a[1..], b, id);
      assert (a + b)[0] == a[0] && (a + b)[1..] == a[1..] + b;
      var h := if a[0].id == id then [] else [a[0]];
      assert WithoutId(a + b, id) == h + (WithoutId(a[1..], id) + WithoutId(b, id));
      assert WithoutId(a, id) == h + WithoutId(a[1..], id);
    } else {
      assert a + b == b;
    }
  }

  /** The toasts whose id is not among `ids`, in order. */
  function Survivors(ts: seq<Toast>, ids: set<int>): (r: seq<Toast>)
    ensures |r| <= |ts|
    ensures forall t {:trigger t in r} :: t in r <==> t in ts && t.id !in ids
  {
    if ts == [] then []
    else (if ts[0].id !in ids then [ts[0]] else []) + Survivors(ts[1..], ids)
  }

  /** Survivors keeps the queue's order: filtering a concatenation filters each part. */
  lemma {:induction false} SurvivorsAppend(a: seq<Toast>, b: seq<Toast>, ids: set<int>)
    ensures Survivors(a + b, ids) == Survivors(a, ids) + Survivors(b, ids)
  {
    if a != [] {
      SurvivorsAppend(a[1..], b, ids);
      assert (a + b)[0] == a[0] && (a + b)[1..] == a[1..] + b;
      var h := if a[0].id in ids then [] else [a[0]];
      assert Survivors(a + b, ids) == h + (Survivors(a[1..], ids) + Survivors(b, ids));
      assert Survivors(a, ids) == h + Survivors(a[1..], ids);
    } else {
      assert a + b == b;
    }
  }

  /** One more removal extends the set of removed ids. */
  lemma {:induction false} WithoutIdOfSurvivors(ts: seq<Toast>, ids: set<int>, id: int)
    ensures WithoutId(Survivors(ts, ids), id) == Survivors(ts, ids + {id})
  {
    if ts != [] {
      WithoutIdOfSurvivors(ts[1..], ids, id);
      var rest := Survivors(ts[1..], ids);
      if ts[0].id !in ids {
        assert Survivors(ts, ids) == [ts[0]] + rest;
        assert ([ts[0]] + rest)[1..] == rest;
      } else {
        assert Survivors(ts, ids) == rest;
      }
    }
  }

  lemma {:induction false} SurvivorsOfNothing(ts: seq<Toast>)
    ensures Survivors(ts, {}) == ts
  {
    if ts != [] {
      SurvivorsOfNothing(ts[1..]);
    }
  }

  /** Two timers firing in either order leave the same list. */
  lemma RemovalOrderIrrelevant(ts: seq<Toast>, a: int, b: int)
    ensures WithoutId(WithoutId(ts, a), b) == WithoutId(WithoutId(ts, b), a)
  {
    SurvivorsOfNothing(ts);
    var none: set<int> := {};
    WithoutIdOfSurvivors(ts, none, a);
    WithoutIdOfSurvivors(ts, none, b);
    assert none + {a} == {a} && none + {b} == {b};
    WithoutIdOfSurvivors(ts, {a}, b);
    WithoutIdOfSurvivors(ts, {b}, a);
    assert {a} + {b} == {b} + {a};
  }

  /** The ids whose timers are due by `now`. */
  function DueIds(timers: seq<Timer>, now: int): (r: set<int>)
    ensures forall id :: id in r <==> exists x :: x in timers && x.due <= now && x.id == id
  {
    set x | x in timers && x.due <= now :: x.id
  }

  /** The timers still pending after `now`, in order. */
  function Pending(timers: seq<Timer>, now: int): (r: seq<Timer>)
    ensures forall x {:trigger x in r} :: x in r <==> x in timers && x.due > now
  {
    if timers == [] then []
    else (if timers[0].due > now then [timers[0]] else []) + Pending(timers[1..], now)
  }

  /** The pending timers keep their order: filtering a concatenation filters each part. */
  lemma {:induction false} PendingAppend(a: seq<Timer>, b: seq<Timer>, now: int)
    ensures Pending(a + b, now) == Pending(a, now) + Pending(b, now)
  {
    if a != [] {
      PendingAppend(a[1..], b, now);
      assert (a + b)[0] == a[0] && (a + b)[1..] == a[1..] + b;
      var h := if a[0].due <= now then [] else [a[0]];
      assert Pending(a + b, now) == h + (Pending(a[1..], now) + Pending(b, now));
      assert Pending(a, now) == h + Pending(a[1..], now);
    } else {
      assert a + b == b;
    }
  }

  /** Every toast shown has a removal timer for its id. */
  ghost predicate Timed(toasts: seq<Toast>, timers: seq<Timer>) {
    forall t :: t in toasts ==> exists x :: x in timers && x.id == t.id
  }

  /** Once every timer is due, every toast is gone. */
  lemma AllDueClearsAll(toasts: seq<Toast>, timers: seq<Timer>, now: int)
    requires Timed(toasts, timers)
    requires forall x :: x in timers ==> x.due <= now
    ensures Survivors(toasts, DueIds(timers, now)) == []
  {
  }

  class ToastProvider {
    var toasts: seq<Toast>
    /** The removal timers not yet fired. */
    var timers: seq<Timer>
    /** The time of the last event handled. */
    var clock: int

    ghost predicate Valid()
      reads this
    {
      Timed(toasts, timers) && forall x :: x in timers ==> x.due >= clock
    }

    constructor (now: int)
      ensures Valid() && toasts == [] && timers == [] && clock == now
    {
      toasts := [];
      timers := [];
      clock := now;
    }

    /** Fire, in the order they were set, the timers due by `now`. */
    method Advance(now: int)
      requires Valid() && now >= clock
      modifies this`toasts, this`timers, this`clock
      ensures Valid() && clock == now
      ensures toasts == Survivors(old(toasts), DueIds(old(timers), now))
      ensures timers == Pending(old(timers), now)
    {
      var shown := toasts;
      SurvivorsOfNothing(toasts);
      assert DueIds(timers[..0], now) == {};
      var i := 0;
      while i < |timers|
        invariant 0 <= i <= |timers|
        invariant toasts == old(toasts) && timers == old(timers)
        invariant shown == Survivors(toasts, DueIds(timers[..i], now))
      {
        var x := timers[i];
        assert timers[..i + 1] == timers[..i] + [x];
        if x.due <= now {
          WithoutIdOfSurvivors(toasts, DueIds(timers[..i], now), x.id);
          shown := WithoutId(shown, x.id);
          assert DueIds(timers[..i + 1], now) == DueIds(timers[..i], now) + {x.id};
        } else {
          assert DueIds(timers[..i + 1], now) == DueIds(timers[..i], now);
        }
        i := i + 1;
      }
      assert timers[..i] == timers;
      ghost var before := toasts;
      ghost var earlier := timers;
      toasts := shown;
      timers := Pending(timers, now);
      clock := now;
      forall t | t in toasts ensures exists x :: x in timers && x.id == t.id {
        assert t in before && t.id !in DueIds(earlier, now);
        var x :| x in earlier && x.id == t.id;
        assert x.due > now;
        assert x in timers;
      }
    }

    /** `addToast(message, type, duration)` at time `now`, after the timers due
        by then have fired: the toast goes to the end of the list, with its id
        and removal timer taken from `now`. */
    method Add(message: string, kind: Option<string>, duration: Option<int>, now: int)
      requires Valid() && now >= clock
      modifies this`toasts, this`timers, this`clock
      ensures Valid() && clock == now
      ensures toasts == Survivors(old(toasts), DueIds(old(timers), now)) + [Toast(now, message, KindOf(kind))]
      ensures timers == Pending(old(timers), now) + [Timer(now + Delay(duration), now)]
    {
      Advance(now);
      toasts := toasts + [Toast(now, message, KindOf(kind))];
      timers := timers + [Timer(now + Delay(duration), now)];
    }

    /** `toast.success`, `toast.error` and `toast.info`. */
    method Success(message: string, now: int)
      requires Valid() && now >= clock
      modifies this`toasts, this`timers, this`clock
      ensures Valid() && clock == now
      ensures toasts == Survivors(old(toasts), DueIds(old(timers), now)) + [Toast(now, message, "success")]
      ensures timers == Pending(old(timers), now) + [Timer(now + DefaultDurationMs, now)]
    {
      Add(message, Some("success"), None, now);
    }

    method Error(message: string, now: int)
      requires Valid() && now >= clock
      modifies this`toasts, this`timers, this`clock
      ensures Valid() && clock == now
      ensures toasts == Survivors(old(toasts), DueIds(old(timers), now)) + [Toast(now, message, "error")]
      ensures timers == Pending(old(timers), now) + [Timer(now + DefaultDurationMs, now)]
    {
      Add(message, Some("error"), None, now);
    }

    method Info(message: string, now: int)
      requires Valid() && now >= clock
      modifies this`toasts, this`timers, this`clock
      ensures Valid() && clock == now
      ensures toasts == Survivors(old(toasts), DueIds(old(timers), now)) + [Toast(now, message, "info")]
      ensures timers == Pending(old(timers), now) + [Timer(now + DefaultDurationMs, now)]
    {
      Add(message, Some("info"), None, now);
    }
  }

  /** Two toasts raised in the same millisecond share an id and leave together:
      the first of their timers to fire removes both. */
  lemma SameMillisecondToastsLeaveTogether(ts: seq<Toast>, a: Toast, b: Toast)
    requires a in ts && b in ts && a.id == b.id
    ensures a !in WithoutId(ts, a.id) && b !in WithoutId(ts, a.id)
  {
  }
}
