/**
 * The listener a test registers on the event bus to learn when the events it
 * announced have all been emitted. It keeps a list of expected events and
 * three flags, updated in place by its methods; each method is specified by
 * the function of the same purpose in module Expectations.
 */
module Listener {
  import opened Events
  import opened Expectations

  /** What a handler call ends with: normally, or with the error it raises. */
  datatype Outcome = Pass | Fail(error: Failure)

  /**
   * A method call agrees with a step function: on success the new state is
   * the one it computes, on failure the error is the one it gives and the
   * state has not changed.
   */
  ghost predicate Follows(r: Result<Tracker>, outcome: Outcome, before: Tracker, after: Tracker) {
    match r
    case Ok(s) => outcome == Pass && after == s
    case Err(f) => outcome == Fail(f) && after == before
  }

  class ApiTestListener {
    var expected: seq<NextEvent>   // appended at the end, searched from the front
    var apiCompleted: bool
    var repairExpected: bool
    var repairCompleted: bool

    ghost function State(): Tracker
      reads this
    {
      Tracker(expected, apiCompleted, repairExpected, repairCompleted)
    }

    ghost predicate Valid()
      reads this
    {
      Expectations.Valid(State())
    }

    /** A new listener starts from a reset state. */
    constructor ()
      ensures Valid()
      ensures expected == [] && !apiCompleted && !repairExpected && !repairCompleted
    {
      expected, apiCompleted, repairExpected, repairCompleted := [], false, false, false;
    }

    /** Forget every expectation and clear all three flags. */
    method Reset()
      modifies this
      ensures Valid()
      ensures State() == Fresh
    {
      expected := [];
      apiCompleted := false;
      repairExpected := false;
      repairCompleted := false;
    }

    /** Announce one more expected event, at the end of the list. */
    method PushNextApiExpectedEvent(next: NextEvent)
      requires Valid()
      modifies this
      ensures Valid()
      ensures expected == old(expected) + [next] && !apiCompleted
      ensures repairExpected == old(repairExpected) && repairCompleted == old(repairCompleted)
      ensures State() == Push(old(State()), next)
    {
      expected := expected + [next];
      apiCompleted := false;
    }

    /** Announce that a repair event is expected. */
    method ExpectRepairCompletion()
      requires Valid()
      modifies this
      ensures Valid()
      ensures repairExpected && !repairCompleted
      ensures expected == old(expected) && apiCompleted == old(apiCompleted)
      ensures State() == ExpectRepair(old(State()))
    {
      repairExpected := true;
      repairCompleted := false;
    }

    /** Whether the expected repair event has arrived. */
    method IsRepairCompleted() returns (done: bool)
      requires Valid()
      ensures done == repairCompleted
      ensures done ==> repairExpected
    {
      done := repairCompleted;
    }

    /** Whether every announced event has arrived. */
    method IsApiCompleted() returns (done: bool)
      requires Valid()
      ensures done == apiCompleted
      ensures done ==> expected == []
    {
      done := apiCompleted;
    }

    /** Mark the API completed when nothing is outstanding any more. */
    method NotifyIfStackEmpty()
      modifies this`apiCompleted
      ensures expected == [] ==> apiCompleted
      ensures expected != [] ==> apiCompleted == old(apiCompleted)
      ensures State() == NotifyIfEmpty(old(State()))
    {
      if expected == [] {
        apiCompleted := true;
      }
    }

    /**
     * Search the list from the front for `wanted` and remove its first
     * occurrence; report whether there was one. The list is unchanged when
     * there was none.
     */
    method AssertEqualsNicely(wanted: NextEvent) returns (found: bool)
      modifies this`expected
      ensures found <==> wanted in old(expected)
      ensures expected == RemoveFirst(old(expected), wanted)
      ensures found ==>
        exists i :: 0 <= i < |old(expected)| && old(expected)[i] == wanted &&
          wanted !in old(expected)[..i] &&
          expected == old(expected)[..i] + old(expected)[i + 1..]
    {
      found := false;
      var i := 0;
      while i < |expected|
        invariant 0 <= i <= |expected|
        invariant expected == old(expected)
        invariant wanted !in expected[..i]
      {
        if expected[i] == wanted {
          RemoveFirstAt(expected, wanted, i);
          expected := expected[..i] + expected[i + 1..];
          found := true;
          break;
        }
        assert expected[..i + 1] == expected[..i] + [expected[i]];
        i := i + 1;
      }
      if !found {
        assert expected[..i] == expected;
      }
    }

    /** Handler for a MigrateEntitlement transition. */
    method SubscriptionMigrated() returns (outcome: Outcome)
      requires Valid()
      modifies this
      ensures Valid()
      ensures outcome.Pass? <==> NextEvent.MigrateEntitlement in old(expected)
      ensures Follows(Receive(old(State()), NextEvent.MigrateEntitlement), outcome, old(State()), State())
    {
      var found := AssertEqualsNicely(NextEvent.MigrateEntitlement);
      if !found {
        return Fail(UnexpectedEvent(NextEvent.MigrateEntitlement, expected));
      }
      NotifyIfStackEmpty();
      outcome := Pass;
    }

    /** Handler for a Create transition. */
    method SubscriptionCreated() returns (outcome: Outcome)
      requires Valid()
      modifies this
      ensures Valid()
      ensures outcome.Pass? <==> NextEvent.Create in old(expected)
      ensures Follows(Receive(old(State()), NextEvent.Create), outcome, old(State()), State())
    {
      var found := AssertEqualsNicely(NextEvent.Create);
      if !found {
        return Fail(UnexpectedEvent(NextEvent.Create, expected));
      }
      NotifyIfStackEmpty();
      outcome := Pass;
    }

    /** Handler for a ReCreate transition. */
    method SubscriptionReCreated() returns (outcome: Outcome)
      requires Valid()
      modifies this
      ensures Valid()
      ensures outcome.Pass? <==> NextEvent.ReCreate in old(expected)
      ensures Follows(Receive(old(State()), NextEvent.ReCreate), outcome, old(State()), State())
    {
      var found := AssertEqualsNicely(NextEvent.ReCreate);
      if !found {
        return Fail(UnexpectedEvent(NextEvent.ReCreate, expected));
      }
      NotifyIfStackEmpty();
      outcome := Pass;
    }

    /** Handler for a Cancel transition. */
    method SubscriptionCancelled() returns (outcome: Outcome)
      requires Valid()
      modifies this
      ensures Valid()
      ensures outcome.Pass? <==> NextEvent.Cancel in old(expected)
      ensures Follows(Receive(old(State()), NextEvent.Cancel), outcome, old(State()), State())
    {
      var found := AssertEqualsNicely(NextEvent.Cancel);
      if !found {
        return Fail(UnexpectedEvent(NextEvent.Cancel, expected));
      }
      NotifyIfStackEmpty();
      outcome := Pass;
    }

    /** Handler for a Change transition. */
    method SubscriptionChanged() returns (outcome: Outcome)
      requires Valid()
      modifies this
      ensures Valid()
      ensures outcome.Pass? <==> NextEvent.Change in old(expected)
      ensures Follows(Receive(old(State()), NextEvent.Change), outcome, old(State()), State())
    {
      var found := AssertEqualsNicely(NextEvent.Change);
      if !found {
        return Fail(UnexpectedEvent(NextEvent.Change, expected));
      }
      NotifyIfStackEmpty();
      outcome := Pass;
    }

    /** Handler for a Phase transition. */
    method SubscriptionPhaseChanged() returns (outcome: Outcome)
      requires Valid()
      modifies this
      ensures Valid()
      ensures outcome.Pass? <==> NextEvent.Phase in old(expected)
      ensures Follows(Receive(old(State()), NextEvent.Phase), outcome, old(State()), State())
    {
      var found := AssertEqualsNicely(NextEvent.Phase);
      if !found {
        return Fail(UnexpectedEvent(NextEvent.Phase, expected));
      }
      NotifyIfStackEmpty();
      outcome := Pass;
    }

    /** Handler for a MigrateBilling transition. */
    method SubscriptionMigratedBilling() returns (outcome: Outcome)
      requires Valid()
      modifies this
      ensures Valid()
      ensures outcome.Pass? <==> NextEvent.MigrateBilling in old(expected)
      ensures Follows(Receive(old(State()), NextEvent.MigrateBilling), outcome, old(State()), State())
    {
      var found := AssertEqualsNicely(NextEvent.MigrateBilling);
      if !found {
        return Fail(UnexpectedEvent(NextEvent.MigrateBilling, expected));
      }
      NotifyIfStackEmpty();
      outcome := Pass;
    }

    /**
     * Dispatch a subscription event by its transition tag: each named tag but
     * Uncancel goes to the handler of the same name, Uncancel is dropped, any
     * other tag is an error.
     */
    method HandleEntitlementEvent(tag: TransitionType) returns (outcome: Outcome)
      requires Valid()
      modifies this
      ensures Valid()
      ensures tag == TransitionType.Uncancel ==> outcome == Pass && State() == old(State())
      ensures tag == TransitionType.Unlisted ==>
        outcome == Fail(UnsupportedTransition(tag)) && State() == old(State())
      ensures Follows(Handle(old(State()), tag), outcome, old(State()), State())
    {
      match tag
      case MigrateEntitlement => outcome := SubscriptionMigrated();
      case Create => outcome := SubscriptionCreated();
      case ReCreate => outcome := SubscriptionReCreated();
      case Cancel => outcome := SubscriptionCancelled();
      case Change => outcome := SubscriptionChanged();
      case Uncancel => outcome := Pass;
      case Phase => outcome := SubscriptionPhaseChanged();
      case MigrateBilling => outcome := SubscriptionMigratedBilling();
      case Unlisted => outcome := Fail(UnsupportedTransition(tag));
    }

    /** A repair event: it completes the repair only if one was expected. */
    method HandleRepairEvent()
      requires Valid()
      modifies this
      ensures Valid()
      ensures repairCompleted == (old(repairExpected) || old(repairCompleted))
      ensures expected == old(expected) && apiCompleted == old(apiCompleted)
      ensures repairExpected == old(repairExpected)
      ensures State() == RepairEvent(old(State()))
    {
      if repairExpected {
        repairCompleted := true;
      }
    }
  }
}
