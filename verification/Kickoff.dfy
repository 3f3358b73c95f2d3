/** The kick-off conditions: which armed condition lets an idle loop start work. */
module Kickoff {

  datatype KickoffCondition =
    | NewEligibleWork | UnblockedPromotion | SlotReleased | BudgetWindowReset | ExternalEvent

  datatype KickoffSettings = KickoffSettings(
    newEligibleWork: bool, unblockedPromotion: bool, slotReleased: bool,
    budgetWindowReset: bool, externalEvent: bool)

  /** Task ids and event ids only; events are numbered in arrival order. */
  datatype KickoffObservation = KickoffObservation(
    readyIds: set<string>, previousReadyIds: set<string>, previousBlockedIds: set<string>,
    slotReleased: bool, budgetWindowReset: bool, externalEvents: set<nat>)

  predicate Armed(settings: KickoffSettings, condition: KickoffCondition)
  {
    match condition
    case NewEligibleWork => settings.newEligibleWork
    case UnblockedPromotion => settings.unblockedPromotion
    case SlotReleased => settings.slotReleased
    case BudgetWindowReset => settings.budgetWindowReset
    case ExternalEvent => settings.externalEvent
  }

  /** What each condition claims about the board and the loop. */
  predicate Holds(observation: KickoffObservation, condition: KickoffCondition)
  {
    match condition
    case NewEligibleWork => exists id :: id in observation.readyIds && id !in observation.previousReadyIds
    case UnblockedPromotion => exists id :: id in observation.readyIds && id in observation.previousBlockedIds
    case SlotReleased => observation.slotReleased
    case BudgetWindowReset => observation.budgetWindowReset
    case ExternalEvent => observation.externalEvents != {}
  }

  predicate KicksOff(settings: KickoffSettings, observation: KickoffObservation)
  {
    exists condition :: Fires(settings, observation, condition)
  }

  predicate AllDisarmed(settings: KickoffSettings)
  {
    forall condition :: !Armed(settings, condition)
  }

  /** Position of a condition in the fixed order of the set. */
  function Order(condition: KickoffCondition): nat
  {
    match condition
    case NewEligibleWork => 0
    case UnblockedPromotion => 1
    case SlotReleased => 2
    case BudgetWindowReset => 3
    case ExternalEvent => 4
  }

  predicate Fires(settings: KickoffSettings, observation: KickoffObservation, condition: KickoffCondition)
  {
    Armed(settings, condition) && Holds(observation, condition)
  }

  /** The first `k` conditions of the set have been decided. */
  ghost predicate Decided(settings: KickoffSettings, observation: KickoffObservation, fired: seq<KickoffCondition>,
                          k: nat)
  {
    && (forall c :: c in fired <==> Order(c) < k && Fires(settings, observation, c))
    && (forall i, j :: 0 <= i < j < |fired| ==> Order(fired[i]) < Order(fired[j]))
  }

  /** Appends the condition when it fires. */
  method PushWhen(settings: KickoffSettings, observation: KickoffObservation, fired: seq<KickoffCondition>,
                  holds: bool, c: KickoffCondition) returns (result: seq<KickoffCondition>)
    requires Decided(settings, observation, fired, Order(c)) && holds == Holds(observation, c)
    ensures Decided(settings, observation, result, Order(c) + 1)
  {
    result := if Armed(settings, c) && holds then fired + [c] else fired;
    assert forall d :: Order(d) == Order(c) ==> d == c;
    assert forall i :: 0 <= i < |fired| ==> fired[i] in fired;
  }

  lemma PromotedMeaning(observation: KickoffObservation)
    ensures Holds(observation, UnblockedPromotion) <==> observation.readyIds * observation.previousBlockedIds != {}
  {
    var promoted := observation.readyIds * observation.previousBlockedIds;
    if promoted != {} {
      var id :| id in promoted;
      assert id in observation.readyIds && id in observation.previousBlockedIds;
    }
    assert forall id :: id in observation.readyIds && id in observation.previousBlockedIds ==> id in promoted;
  }

  /**
  The verdict lists exactly the conditions that are armed and hold, each once
  and in the fixed order, so it is non-empty exactly when the loop may start.
   */
  method Evaluate(settings: KickoffSettings, observation: KickoffObservation) returns (fired: seq<KickoffCondition>)
    ensures forall condition :: condition in fired <==> Fires(settings, observation, condition)
    ensures forall i, j :: 0 <= i < j < |fired| ==> Order(fired[i]) < Order(fired[j])
    ensures fired != [] <==> KicksOff(settings, observation)
  {
    fired := [];
    fired := PushWhen(settings, observation, fired,
                      !(observation.readyIds <= observation.previousReadyIds), NewEligibleWork);
    PromotedMeaning(observation);
    fired := PushWhen(settings, observation, fired,
                      observation.readyIds * observation.previousBlockedIds != {}, UnblockedPromotion);
    fired := PushWhen(settings, observation, fired, observation.slotReleased, SlotReleased);
    fired := PushWhen(settings, observation, fired, observation.budgetWindowReset, BudgetWindowReset);
    fired := PushWhen(settings, observation, fired, observation.externalEvents != {}, ExternalEvent);
    VerdictMeaning(settings, observation, fired);
  }

  lemma VerdictMeaning(settings: KickoffSettings, observation: KickoffObservation, fired: seq<KickoffCondition>)
    requires Decided(settings, observation, fired, 5)
    ensures forall c :: c in fired <==> Fires(settings, observation, c)
    ensures fired != [] <==> KicksOff(settings, observation)
  {
    if fired != [] { assert fired[0] in fired; }
  }
}
