/**
 * The expectation tracker as a value: the list of outstanding expected events,
 * the API completion flag and the two repair flags, with one function per
 * operation of the listener. The listener class is specified by these
 * functions; the lemmas here state what several operations in a row achieve.
 */
module Expectations {
  import opened Events

  /** The list without its first (lowest-index) occurrence of `e`. */
  function RemoveFirst(s: seq<NextEvent>, e: NextEvent): (r: seq<NextEvent>)
    ensures e !in s ==> r == s
    ensures e in s ==> |r| == |s| - 1
  {
    if s == [] then []
    else if s[0] == e then s[1..]
    else [s[0]] + RemoveFirst(s[1..], e)
  }

  /** RemoveFirst takes away exactly one copy of `e` when there is one, and nothing else. */
  lemma {:induction false} RemoveFirstMultiset(s: seq<NextEvent>, e: NextEvent)
    ensures multiset(RemoveFirst(s, e)) == multiset(s) - multiset{e}
  {
    if s != [] {
      assert s == [s[0]] + s[1..];
      if s[0] != e {
        RemoveFirstMultiset(s[1..], e);
      }
    }
  }

  /**
   * Positional reading of RemoveFirst: when `i` is the first index holding `e`,
   * exactly that element goes and the others keep their relative order.
   */
  lemma {:induction false} RemoveFirstAt(s: seq<NextEvent>, e: NextEvent, i: nat)
    requires i < |s| && s[i] == e && e !in s[..i]
    ensures RemoveFirst(s, e) == s[..i] + s[i + 1..]
  {
    if i > 0 {
      var tail := s[1..];
      assert s[..i] == [s[0]] + tail[..i - 1];
      RemoveFirstAt(tail, e, i - 1);
      assert tail[i..] == s[i + 1..];
    }
  }

  /** Why a delivered event was refused. */
  datatype Failure =
    | UnexpectedEvent(wanted: NextEvent, outstanding: seq<NextEvent>)
    | UnsupportedTransition(tag: TransitionType)

  datatype Result<T> = Ok(value: T) | Err(error: Failure)

  /** The listener's four fields. */
  datatype Tracker = Tracker(
    expected: seq<NextEvent>,
    apiCompleted: bool,
    repairExpected: bool,
    repairCompleted: bool)

  /**
   * The invariant every operation keeps: the API is completed only when nothing
   * is outstanding, and a repair is completed only when one was expected.
   */
  ghost predicate Valid(t: Tracker) {
    (t.apiCompleted ==> t.expected == []) &&
    (t.repairCompleted ==> t.repairExpected)
  }

  /** The state after construction or reset. */
  const Fresh := Tracker([], false, false, false)

  /** Announce one more expected event. */
  function Push(t: Tracker, n: NextEvent): Tracker {
    t.(expected := t.expected + [n], apiCompleted := false)
  }

  /** Mark the API completed once nothing is outstanding. */
  function NotifyIfEmpty(t: Tracker): Tracker {
    if t.expected == [] then t.(apiCompleted := true) else t
  }

  /** A handler for an expected event: match-and-remove, then the completion check. */
  function Receive(t: Tracker, n: NextEvent): Result<Tracker> {
    if n in t.expected then Ok(NotifyIfEmpty(t.(expected := RemoveFirst(t.expected, n))))
    else Err(UnexpectedEvent(n, t.expected))
  }

  /** The dispatcher for a subscription event carrying `tag`. */
  function Handle(t: Tracker, tag: TransitionType): Result<Tracker> {
    match RouteOf(tag)
    case Expect(n) => Receive(t, n)
    case Ignore => Ok(t)
    case Reject => Err(UnsupportedTransition(tag))
  }

  /** Announce that a repair event is expected. */
  function ExpectRepair(t: Tracker): Tracker {
    t.(repairExpected := true, repairCompleted := false)
  }

  /** A repair event arrives: it completes the repair only if one was expected. */
  function RepairEvent(t: Tracker): Tracker {
    if t.repairExpected then t.(repairCompleted := true) else t
  }

  /** Several pushes in a row. */
  function PushAll(t: Tracker, ns: seq<NextEvent>): Tracker
    decreases |ns|
  {
    if ns == [] then t else PushAll(Push(t, ns[0]), ns[1..])
  }

  /** Several events delivered one at a time; the first refusal ends the run. */
  function HandleAll(t: Tracker, tags: seq<TransitionType>): Result<Tracker>
    decreases |tags|
  {
    if tags == [] then Ok(t)
    else match Handle(t, tags[0])
      case Ok(t') => HandleAll(t', tags[1..])
      case Err(f) => Err(f)
  }

  /** The tags of the same names as a list of expected events. */
  function Tags(ns: seq<NextEvent>): (tags: seq<TransitionType>)
    ensures |tags| == |ns|
    ensures forall i :: 0 <= i < |ns| ==> RouteOf(tags[i]) == Expect(ns[i])
  {
    if ns == [] then [] else [TagOf(ns[0])] + Tags(ns[1..])
  }

  /**
   * One delivered expected event: it is accepted exactly when it is outstanding;
   * then its first occurrence goes, the API is completed exactly when the list
   * became empty, and the repair flags do not move. A refusal names the event
   * and the outstanding list.
   */
  lemma ReceiveEffect(t: Tracker, n: NextEvent)
    requires Valid(t)
    ensures Receive(t, n).Ok? <==> n in t.expected
    ensures Receive(t, n).Err? ==> Receive(t, n).error == UnexpectedEvent(n, t.expected)
    ensures Receive(t, n).Ok? ==>
      var r := Receive(t, n).value;
      r.expected == RemoveFirst(t.expected, n) &&
      |r.expected| == |t.expected| - 1 &&
      (r.apiCompleted <==> r.expected == []) &&
      r.repairExpected == t.repairExpected && r.repairCompleted == t.repairCompleted &&
      Valid(r)
  {
  }

  /**
   * The dispatcher: a named tag other than Uncancel is the handler of the event
   * of that name, Uncancel changes nothing, any other tag is an error.
   */
  lemma HandleDispatch(t: Tracker, tag: TransitionType, n: NextEvent)
    ensures Handle(t, TagOf(n)) == Receive(t, n)
    ensures Handle(t, TransitionType.Uncancel) == Ok(t)
    ensures Handle(t, TransitionType.Unlisted) == Err(UnsupportedTransition(TransitionType.Unlisted))
  {
    RouteOfTagOf(n, tag);
  }

  /** Repair tracking and the expected list do not touch each other's state. */
  lemma RepairTrackingIsSeparate(t: Tracker, tag: TransitionType)
    requires Valid(t)
    ensures Valid(ExpectRepair(t)) && Valid(RepairEvent(t))
    ensures ExpectRepair(t).expected == t.expected && ExpectRepair(t).apiCompleted == t.apiCompleted
    ensures RepairEvent(t).expected == t.expected && RepairEvent(t).apiCompleted == t.apiCompleted
    ensures RepairEvent(t).repairCompleted <==> t.repairExpected || t.repairCompleted
    ensures Handle(t, tag).Ok? ==>
      Handle(t, tag).value.repairExpected == t.repairExpected &&
      Handle(t, tag).value.repairCompleted == t.repairCompleted
  {
  }

  /** Pushing a list of events appends it, and leaves the API not completed. */
  lemma {:induction false} PushAllEffect(t: Tracker, ns: seq<NextEvent>)
    requires Valid(t)
    ensures ns != [] ==> PushAll(t, ns) == t.(expected := t.expected + ns, apiCompleted := false)
    ensures Valid(PushAll(t, ns))
    decreases |ns|
  {
    if ns != [] {
      PushAllEffect(Push(t, ns[0]), ns[1..]);
      assert t.expected + [ns[0]] + ns[1..] == t.expected + ns;
    }
  }

  /** Delivering a non-empty run is the handler of its first event, then the rest. */
  lemma HandleAllFirst(t: Tracker, ns: seq<NextEvent>)
    requires ns != []
    ensures HandleAll(t, Tags(ns)) ==
      match Receive(t, ns[0])
      case Ok(t') => HandleAll(t', Tags(ns[1..]))
      case Err(f) => Err(f)
  {
    var tags := Tags(ns);
    assert tags[0] == TagOf(ns[0]) && tags[1..] == Tags(ns[1..]);
    HandleDispatch(t, tags[0], ns[0]);
  }

  /** Multiset bookkeeping for taking one element `x` of `a` before a run `b`. */
  lemma MultisetPeel(a: multiset<NextEvent>, x: NextEvent, b: multiset<NextEvent>)
    requires x in a
    ensures (b <= a - multiset{x}) <==> (multiset{x} + b <= a)
    ensures (a - multiset{x}) - b == a - (multiset{x} + b)
  {
  }

  /**
   * Delivering events one at a time succeeds exactly when each is still
   * outstanding, i.e. when they form a sub-multiset of the expected list; the
   * list then holds what remains, and once at least one event was delivered
   * the API is completed exactly when nothing remains.
   */
  lemma {:induction false} HandleAllEffect(t: Tracker, ns: seq<NextEvent>)
    requires Valid(t)
    ensures HandleAll(t, Tags(ns)).Ok? <==> multiset(ns) <= multiset(t.expected)
    ensures HandleAll(t, Tags(ns)).Ok? ==>
      var r := HandleAll(t, Tags(ns)).value;
      Valid(r) &&
      multiset(r.expected) == multiset(t.expected) - multiset(ns) &&
      |r.expected| == |t.expected| - |ns| &&
      (ns != [] ==> (r.apiCompleted <==> r.expected == [])) &&
      (ns == [] ==> r == t) &&
      r.repairExpected == t.repairExpected && r.repairCompleted == t.repairCompleted
    decreases |ns|
  {
    if ns == [] {
      assert Tags(ns) == [];
    } else {
      var x, rest := ns[0], ns[1..];
      HandleAllFirst(t, ns);
      ReceiveEffect(t, x);
      assert ns == [x] + rest;
      assert multiset(ns) == multiset{x} + multiset(rest);
      if x in t.expected {
        var t' := Receive(t, x).value;
        RemoveFirstMultiset(t.expected, x);
        HandleAllEffect(t', rest);
        MultisetPeel(multiset(t.expected), x, multiset(rest));
      } else {
        assert x !in multiset(t.expected);
        assert x in multiset(ns);
      }
    }
  }

  /**
   * Delivering events that are a permutation of the outstanding list (at least
   * one) empties it and completes the API, and touches nothing else.
   */
  lemma DeliveringAllExpectedCompletes(t: Tracker, ns: seq<NextEvent>)
    requires Valid(t) && ns != [] && multiset(ns) == multiset(t.expected)
    ensures HandleAll(t, Tags(ns)) == Ok(t.(expected := [], apiCompleted := true))
  {
    HandleAllEffect(t, ns);
    var r := HandleAll(t, Tags(ns)).value;
    assert |r.expected| == 0;
    assert r == t.(expected := [], apiCompleted := true);
  }

  /**
   * Before the last event of such a permutation is delivered, every delivery
   * has been accepted and the API is not completed: it completes exactly once.
   */
  lemma NotCompletedBeforeLast(t: Tracker, ns: seq<NextEvent>, k: nat)
    requires Valid(t) && multiset(ns) == multiset(t.expected)
    requires 0 < k < |ns|
    ensures HandleAll(t, Tags(ns[..k])).Ok? && !HandleAll(t, Tags(ns[..k])).value.apiCompleted
  {
    var prefix := ns[..k];
    assert ns == prefix + ns[k..];
    assert multiset(ns) == multiset(prefix) + multiset(ns[k..]);
    assert |multiset(t.expected)| == |ns|;
    HandleAllEffect(t, prefix);
  }

  /**
   * From a fresh tracker: push any non-empty list of events, then deliver any
   * permutation of it; every delivery is accepted and the tracker ends with an
   * empty list and the API completed.
   */
  lemma PushThenDeliverCompletes(pushed: seq<NextEvent>, delivered: seq<NextEvent>)
    requires pushed != [] && multiset(delivered) == multiset(pushed)
    ensures HandleAll(PushAll(Fresh, pushed), Tags(delivered)) == Ok(Fresh.(apiCompleted := true))
  {
    PushAllEffect(Fresh, pushed);
    assert multiset(delivered) != multiset{};
    DeliveringAllExpectedCompletes(PushAll(Fresh, pushed), delivered);
  }
}
