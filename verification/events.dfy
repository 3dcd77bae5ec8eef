/**
 * The two closed enumerations the expectation tracker works with: the events a
 * test says it is waiting for, and the transition tag carried by a subscription
 * event; plus the routing rule the dispatcher applies to a tag.
 */
module Events {

  /** An event a test announces it expects the subscription layer to emit. */
  datatype NextEvent =
    | MigrateEntitlement
    | MigrateBilling
    | Create
    | ReCreate
    | Change
    | Cancel
    | Phase

  /**
   * The transition tag of a subscription event. The eight tags the dispatcher
   * names, and Unlisted for any tag it does not name (its `default` branch).
   */
  datatype TransitionType =
    | MigrateEntitlement
    | MigrateBilling
    | Create
    | ReCreate
    | Change
    | Cancel
    | Uncancel
    | Phase
    | Unlisted

  /** What the dispatcher does with a tag. */
  datatype Route =
    | Expect(event: NextEvent)  // match-and-remove this expected event
    | Ignore                    // recognised, silently dropped
    | Reject                    // not recognised: raise an error

  /** The transition tag of the same name as an expected event. */
  function TagOf(n: NextEvent): (tag: TransitionType)
    ensures tag != Uncancel && tag != Unlisted
  {
    match n
    case MigrateEntitlement => TransitionType.MigrateEntitlement
    case MigrateBilling => TransitionType.MigrateBilling
    case Create => TransitionType.Create
    case ReCreate => TransitionType.ReCreate
    case Change => TransitionType.Change
    case Cancel => TransitionType.Cancel
    case Phase => TransitionType.Phase
  }

  /**
   * The dispatcher's switch: every named tag but Uncancel is matched against
   * the expected event of the same name, Uncancel is dropped, anything else
   * is rejected.
   */
  function RouteOf(tag: TransitionType): (r: Route)
    ensures r.Expect? ==> TagOf(r.event) == tag
    ensures r.Ignore? <==> tag == Uncancel
    ensures r.Reject? <==> tag == Unlisted
  {
    match tag
    case MigrateEntitlement => Expect(NextEvent.MigrateEntitlement)
    case Create => Expect(NextEvent.Create)
    case ReCreate => Expect(NextEvent.ReCreate)
    case Cancel => Expect(NextEvent.Cancel)
    case Change => Expect(NextEvent.Change)
    case Uncancel => Ignore
    case Phase => Expect(NextEvent.Phase)
    case MigrateBilling => Expect(NextEvent.MigrateBilling)
    case Unlisted => Reject
  }

  /** Every expected event is reached by exactly one tag: the one of its own name. */
  lemma RouteOfTagOf(n: NextEvent, tag: TransitionType)
    ensures RouteOf(TagOf(n)) == Expect(n)
    ensures RouteOf(tag) == Expect(n) <==> tag == TagOf(n)
  {
  }
}
