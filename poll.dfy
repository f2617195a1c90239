/**
 * One run of the scheduled `pollAPI` handler, from the fetched roster on:
 * reconcile every member with the store, then send the welcome and the star
 * notifications. The fetch itself and the Slack delivery are not modelled;
 * the handler's result is the sequence of texts it sends, in order.
 */
module Poll {
  import opened Members
  import opened Store
  import opened Reconcile
  import opened Notify

  /** The texts a run sends for its two lists: the welcome, if any, then the star notifications. */
  function Sent(newMembers: seq<MemberDoc>, updatedMembers: seq<StarUpdate>): (texts: seq<string>)
    ensures |texts| <= 1 + |updatedMembers|
  {
    var welcome := WelcomeMessage(newMembers);
    (if welcome.Some? then [welcome.value] else []) + StarMessages(updatedMembers)
  }

  /** Lines 59-148 from the fetched roster on. */
  method PollMembers(store: MemberStore, roster: Roster) returns (sent: seq<string>)
    requires WellFormedRoster(roster)
    modifies store
    ensures var final := Run(State(old(store.docs), [], []), roster);
      store.docs == final.docs && sent == Sent(final.newMembers, final.updatedMembers)
  {
    var newMembers, updatedMembers := ReconcileRoster(store, roster);
    sent := [];
    if |newMembers| > 0 {
      var welcome := Welcome(newMembers);
      sent := [welcome];
    }
    if |updatedMembers| > 0 {
      var stars := StarNotifications(updatedMembers);
      sent := sent + stars;
    }
  }

  /**
   * So the `newStars > 0` test of line 141 never skips anyone: a run sends
   * one star notification per updated member, in list order.
   */
  lemma EveryUpdateNotified(docs: map<string, MemberDoc>, roster: Roster)
    requires WellFormedRoster(roster)
    ensures var final := Run(State(docs, [], []), roster);
      && |StarMessages(final.updatedMembers)| == |final.updatedMembers|
      && forall j :: 0 <= j < |final.updatedMembers| ==>
        StarMessages(final.updatedMembers)[j] == StarMessage(final.updatedMembers[j])
  {
    StarMessagesAllPositive(Run(State(docs, [], []), roster).updatedMembers);
  }

  /** A run without new members sends no welcome; a run with some sends exactly one, first. */
  lemma WelcomeFirst(newMembers: seq<MemberDoc>, updatedMembers: seq<StarUpdate>)
    ensures |newMembers| == 0 ==> Sent(newMembers, updatedMembers) == StarMessages(updatedMembers)
    ensures |newMembers| > 0 ==>
      Sent(newMembers, updatedMembers) == [WelcomeMessage(newMembers).value] + StarMessages(updatedMembers)
  {
  }
}
