/**
 * The Slack texts that `pollAPI` sends once the roster is processed: one
 * welcome for all new members (lines 115-135) and one star notification per
 * updated member with a positive gain (lines 137-148). Delivery is not
 * modelled; the model produces the texts in the order they are sent.
 */
module Notify {
  import opened Decimal
  import opened Members
  import opened Reconcile

  /** `xs` with `sep` between neighbours. */
  function Join(xs: seq<string>, sep: string): (s: string)
    ensures |xs| == 1 ==> s == xs[0]
    decreases |xs|
  {
    if |xs| == 0 then ""
    else if |xs| == 1 then xs[0]
    else Join(xs[..|xs| - 1], sep) + sep + xs[|xs| - 1]
  }

  /**
   * The member list of the welcome: the names separated by `" , "`, with
   * `"and "` before the last name when there are two or more.
   */
  function NameList(names: seq<string>): string {
    if |names| < 2 then Join(names, " , ")
    else Join(names[..|names| - 1], " , ") + " , and " + names[|names| - 1]
  }

  /** The names of the new members, in list order. */
  function Names(members: seq<MemberDoc>): (names: seq<string>)
    ensures |names| == |members|
    ensures forall i :: 0 <= i < |members| ==> names[i] == members[i].name
  {
    seq(|members|, i requires 0 <= i < |members| => members[i].name)
  }

  /**
   * Lines 118-127: the `forEach` that appends `" , "` before every name but
   * the first, `"and "` before the last, and then the name.
   */
  method BuildMemberString(names: seq<string>) returns (memberString: string)
    ensures memberString == NameList(names)
  {
    memberString := "";
    for i := 0 to |names|
      invariant i < |names| || |names| < 2 ==> memberString == Join(names[..i], " , ")
      invariant i == |names| >= 2 ==> memberString == NameList(names)
    {
      ghost var before := memberString;
      if i > 0 {
        memberString := memberString + " , ";
        if i == |names| - 1 {
          memberString := memberString + "and ";
        }
      }
      memberString := memberString + names[i];
      assert names[..i + 1][..i] == names[..i];
      if 0 < i == |names| - 1 {
        assert " , " + "and " == " , and ";
        assert memberString == before + " , and " + names[i];
      }
    }
    assert names[..|names|] == names;
  }

  /** The welcome text, sent only when there is at least one new member. */
  function WelcomeMessage(newMembers: seq<MemberDoc>): (message: Option<string>)
    ensures message.Some? <==> |newMembers| > 0
  {
    if |newMembers| == 0 then None
    else
      var plural := if |newMembers| > 1 then "s" else "";
      Some("Please welcome new member" + plural + ": " + NameList(Names(newMembers)) + " to the leaderboard! :wave:")
  }

  /** Lines 116-132: the welcome text the handler sends when there are new members. */
  method Welcome(newMembers: seq<MemberDoc>) returns (message: string)
    requires |newMembers| > 0
    ensures WelcomeMessage(newMembers) == Some(message)
  {
    var memberString := BuildMemberString(Names(newMembers));
    var plural := if |newMembers| > 1 then "s" else "";
    message := "Please welcome new member" + plural + ": " + memberString + " to the leaderboard! :wave:";
  }

  /** How a star count reads: `"a new star"`, or `"N new stars"` above one. */
  function StarText(newStars: int): (text: string)
    ensures newStars <= 1 ==> text == "a new star"
  {
    if newStars > 1 then Show(newStars) + " new stars" else "a new star"
  }

  /** Line 145: the notification for one updated member. */
  function StarMessage(u: StarUpdate): string {
    ":star2: " + u.name + " got " + StarText(u.newStars) + "!"
  }

  /** Line 142: the updated members that get a notification, in list order. */
  function Notified(updates: seq<StarUpdate>): (notified: seq<StarUpdate>)
    ensures |notified| <= |updates|
    decreases |updates|
  {
    if |updates| == 0 then []
    else
      var u := updates[|updates| - 1];
      Notified(updates[..|updates| - 1]) + if u.newStars > 0 then [u] else []
  }

  /** The notifications sent for a list of updated members: one per notified member, in order. */
  function StarMessages(updates: seq<StarUpdate>): (messages: seq<string>)
    ensures |messages| <= |updates|
  {
    var notified := Notified(updates);
    seq(|notified|, i requires 0 <= i < |notified| => StarMessage(notified[i]))
  }

  /** Lines 140-147: the loop that sends one notification per member with new stars. */
  method StarNotifications(updatedMembers: seq<StarUpdate>) returns (sent: seq<string>)
    ensures sent == StarMessages(updatedMembers)
  {
    sent := [];
    for i := 0 to |updatedMembers|
      invariant sent == StarMessages(updatedMembers[..i])
    {
      var member := updatedMembers[i];
      if member.newStars > 0 {
        sent := sent + [StarMessage(member)];
      }
      StarMessagesStep(updatedMembers, i);
    }
    assert updatedMembers[..|updatedMembers|] == updatedMembers;
  }

  /** Joining two non-empty lists puts one separator between them. */
  lemma {:induction false} JoinAppend(a: seq<string>, b: seq<string>, sep: string)
    requires |a| > 0 && |b| > 0
    ensures Join(a + b, sep) == Join(a, sep) + sep + Join(b, sep)
    decreases |b|
  {
    var n := |b| - 1;
    if n > 0 {
      assert (a + b)[..|a + b| - 1] == a + b[..n];
      JoinAppend(a, b[..n], sep);
    } else {
      assert (a + b)[..|a + b| - 1] == a;
    }
  }

  /** With two or more names, the list is the plain join with `"and "` in front of the last name. */
  lemma AndBeforeLast(names: seq<string>)
    requires |names| >= 2
    ensures NameList(names) == Join(names[..|names| - 1] + ["and " + names[|names| - 1]], " , ")
  {
    var n := |names| - 1;
    var init, last := names[..n], names[n];
    JoinAppend(init, ["and " + last], " , ");
    assert " , " + ("and " + last) == " , and " + last;
  }

  /** With fewer than two names there is no `"and "`: the list is the name itself, or empty. */
  lemma NoAndBelowTwo(names: seq<string>)
    requires |names| < 2
    ensures NameList(names) == if |names| == 0 then "" else names[0]
  {
  }

  lemma ThreeNames()
    ensures NameList(["Alice", "Bob", "Carl"]) == "Alice , Bob , and Carl"
  {
    var names := ["Alice", "Bob", "Carl"];
    assert names[..2] == ["Alice", "Bob"];
    assert names[..2][..1] == ["Alice"];
  }

  /** The welcome says `member` for one new member and `members` for more. */
  lemma WelcomeWording(newMembers: seq<MemberDoc>)
    ensures |newMembers| == 1 ==>
      WelcomeMessage(newMembers) == Some("Please welcome new member: " + newMembers[0].name + " to the leaderboard! :wave:")
    ensures |newMembers| > 1 ==>
      WelcomeMessage(newMembers) == Some("Please welcome new members: " + NameList(Names(newMembers)) + " to the leaderboard! :wave:")
  {
    if |newMembers| == 1 {
      NoAndBelowTwo(Names(newMembers));
      assert "Please welcome new member" + "" + ": " == "Please welcome new member: ";
    } else if |newMembers| > 1 {
      assert "Please welcome new member" + "s" + ": " == "Please welcome new members: ";
    }
  }

  /** `"N new stars"` shows the count in decimal, so it reads back as `N`. */
  lemma StarTextReadsBack(newStars: int)
    requires newStars > 1
    ensures var text := StarText(newStars); var k := |text| - 10;
      && k > 0 && text[k..] == " new stars"
      && IsCanonical(text[..k]) && Parse(text[..k]) == newStars
  {
    var digits := Show(newStars);
    var text := digits + " new stars";
    assert text[..|digits|] == digits;
    assert text[|digits|..] == " new stars";
    ParseShow(newStars);
  }

  /** One more member adds its notification exactly when its gain is positive. */
  lemma StarMessagesStep(updates: seq<StarUpdate>, i: int)
    requires 0 <= i < |updates|
    ensures StarMessages(updates[..i + 1])
      == StarMessages(updates[..i]) + if updates[i].newStars > 0 then [StarMessage(updates[i])] else []
  {
    assert updates[..i + 1][..i] == updates[..i];
    assert Notified(updates[..i + 1]) == Notified(updates[..i]) + if updates[i].newStars > 0 then [updates[i]] else [];
  }

  /** The members notified for two lists are those of each, in order. */
  lemma {:induction false} NotifiedAppend(a: seq<StarUpdate>, b: seq<StarUpdate>)
    ensures Notified(a + b) == Notified(a) + Notified(b)
    decreases |b|
  {
    if |b| > 0 {
      var n := |b| - 1;
      assert (a + b)[..|a + b| - 1] == a + b[..n];
      NotifiedAppend(a, b[..n]);
    } else {
      assert a + b == a;
    }
  }

  /** Every member with a positive gain is notified. */
  lemma {:induction false} PositiveKept(updates: seq<StarUpdate>, i: int)
    requires 0 <= i < |updates| && updates[i].newStars > 0
    ensures updates[i] in Notified(updates)
    decreases |updates|
  {
    var n := |updates| - 1;
    var init := updates[..n];
    if i < n {
      assert init[i] == updates[i];
      PositiveKept(init, i);
    }
  }

  /** Every notified member is an updated member with a positive gain. */
  lemma {:induction false} KeptPositive(updates: seq<StarUpdate>, x: StarUpdate)
    requires x in Notified(updates)
    ensures x.newStars > 0 && exists i :: 0 <= i < |updates| && updates[i] == x
    decreases |updates|
  {
    var n := |updates| - 1;
    var init := updates[..n];
    if x in Notified(init) {
      KeptPositive(init, x);
      var i :| 0 <= i < |init| && init[i] == x;
      assert updates[i] == init[i];
    } else {
      assert updates[n] == x;
    }
  }

  /** Every member with a positive gain gets a notification. */
  lemma PositiveNotified(updates: seq<StarUpdate>, i: int)
    requires 0 <= i < |updates| && updates[i].newStars > 0
    ensures StarMessage(updates[i]) in StarMessages(updates)
  {
    PositiveKept(updates, i);
    var notified := Notified(updates);
    var k :| 0 <= k < |notified| && notified[k] == updates[i];
    assert StarMessages(updates)[k] == StarMessage(updates[i]);
  }

  /** Every notification is that of a member with a positive gain. */
  lemma NotifiedPositive(updates: seq<StarUpdate>, m: string)
    requires m in StarMessages(updates)
    ensures exists i :: 0 <= i < |updates| && updates[i].newStars > 0 && m == StarMessage(updates[i])
  {
    var notified := Notified(updates);
    var k :| 0 <= k < |notified| && StarMessages(updates)[k] == m;
    KeptPositive(updates, notified[k]);
  }

  /** When every gain is positive, every member is notified. */
  lemma {:induction false} AllPositiveKept(updates: seq<StarUpdate>)
    requires forall i :: 0 <= i < |updates| ==> updates[i].newStars > 0
    ensures Notified(updates) == updates
    decreases |updates|
  {
    if |updates| > 0 {
      var n := |updates| - 1;
      AllPositiveKept(updates[..n]);
      assert updates[..n] + [updates[n]] == updates;
    }
  }

  /** When every gain is positive, there is one notification per member, in list order. */
  lemma StarMessagesAllPositive(updates: seq<StarUpdate>)
    requires forall i :: 0 <= i < |updates| ==> updates[i].newStars > 0
    ensures |StarMessages(updates)| == |updates|
    ensures forall i :: 0 <= i < |updates| ==> StarMessages(updates)[i] == StarMessage(updates[i])
  {
    AllPositiveKept(updates);
  }

  /** Members without a positive gain get no notification. */
  lemma {:induction false} NonPositiveSilent(updates: seq<StarUpdate>)
    requires forall i :: 0 <= i < |updates| ==> updates[i].newStars <= 0
    ensures StarMessages(updates) == []
    decreases |updates|
  {
    if |updates| > 0 {
      NonPositiveSilent(updates[..|updates| - 1]);
    }
  }
}
