/**
 * The per-member decision of `pollAPI` (lines 95-107) over the whole roster.
 *
 * Every roster entry `(id, member)` is normalised and compared with the
 * stored document `members/<id>`:
 *   - no stored document: the normalised document is written and the
 *     document read back is appended to `newMembers`;
 *   - a stored document with fewer stars: it is updated with the flattened
 *     normalised document and `{name, newStars}` is appended to
 *     `updatedMembers`;
 *   - otherwise nothing happens.
 * The handler runs the entries as concurrent promises; each touches only its
 * own document, and the model runs them one after the other in roster order
 * (`RunDocsPerEntry` and `RunListsPerEntry` show that the outcome is what
 * each entry alone would produce against the original store).
 */
module Reconcile {
  import opened Members
  import opened Patch
  import opened Store

  /** An element of `updatedMembers`. */
  datatype StarUpdate = StarUpdate(name: string, newStars: int)

  /** `Object.entries(data.members)`: member id -> raw record. */
  type Roster = seq<Entry<RawMember>>

  /** The store and the two output lists while the roster is processed. */
  datatype State = State(docs: map<string, MemberDoc>, newMembers: seq<MemberDoc>, updatedMembers: seq<StarUpdate>)

  predicate WellFormedRoster(roster: Roster) {
    forall i :: 0 <= i < |roster| ==> WellFormed(roster[i].value)
  }

  /** The ids of a roster. */
  function RosterKeys(roster: Roster): set<string> {
    set i | 0 <= i < |roster| :: roster[i].key
  }

  lemma RosterKeysStep(roster: Roster)
    requires |roster| > 0
    ensures RosterKeys(roster) == RosterKeys(roster[..|roster| - 1]) + {roster[|roster| - 1].key}
  {
    var init := roster[..|roster| - 1];
    forall k | k in RosterKeys(init)
      ensures k in RosterKeys(roster)
    {
      var i :| 0 <= i < |init| && init[i].key == k;
      assert roster[i] == init[i];
    }
  }

  /** The ids of `Object.entries` of an object are distinct. */
  predicate DistinctKeys(roster: Roster) {
    forall i, j :: 0 <= i < j < |roster| ==> roster[i].key != roster[j].key
  }

  /**
   * One roster entry, given its id and its normalised document. It writes at
   * most its own document and adds to at most one of the two lists, by at
   * most one element. The document an update leaves is stated through
   * `Merge`; `StepCases` shows it is what `update(flatten(doc))` writes.
   */
  function Step(st: State, id: string, doc: MemberDoc): (next: State)
    ensures next.docs.Keys == st.docs.Keys + {id}
    ensures forall k :: k in st.docs && k != id ==> next.docs[k] == st.docs[k]
    ensures next.newMembers == st.newMembers || next.updatedMembers == st.updatedMembers
    ensures |st.newMembers| <= |next.newMembers| <= |st.newMembers| + 1
    ensures |st.updatedMembers| <= |next.updatedMembers| <= |st.updatedMembers| + 1
    ensures st.newMembers <= next.newMembers && st.updatedMembers <= next.updatedMembers
    ensures forall j :: |st.updatedMembers| <= j < |next.updatedMembers| ==> next.updatedMembers[j].newStars > 0
  {
    if id in st.docs then
      var stored := st.docs[id];
      if stored.stars < doc.stars then
        var update := StarUpdate(doc.name, doc.stars - stored.stars);
        State(st.docs[id := doc.(completion := Merge(stored.completion, doc.completion))], st.newMembers, st.updatedMembers + [update])
      else
        st
    else
      State(st.docs[id := doc], st.newMembers + [doc], st.updatedMembers)
  }

  /** The three cases of one entry, as the handler promises them. */
  lemma StepCases(st: State, id: string, doc: MemberDoc)
    ensures var next := Step(st, id, doc);
      id !in st.docs ==>
        && next.docs[id] == doc
        && next.newMembers == st.newMembers + [doc]
        && next.updatedMembers == st.updatedMembers
    ensures var next := Step(st, id, doc);
      id in st.docs && st.docs[id].stars < doc.stars ==>
        && next.newMembers == st.newMembers
        && |next.updatedMembers| == |st.updatedMembers| + 1
        && next.updatedMembers[..|st.updatedMembers|] == st.updatedMembers
        && var u := next.updatedMembers[|st.updatedMembers|];
        && u.name == doc.name
        && u.newStars == doc.stars - st.docs[id].stars > 0
        && next.docs[id] == Apply(st.docs[id], Flatten(doc))
        && next.docs[id].stars == doc.stars
    ensures id in st.docs && st.docs[id].stars >= doc.stars ==> Step(st, id, doc) == st
  {
    if id in st.docs && st.docs[id].stars < doc.stars {
      UpdateMerges(st.docs[id], doc);
      var next := Step(st, id, doc);
      assert next.updatedMembers[..|st.updatedMembers|] == st.updatedMembers;
    }
  }

  /** The entries processed one after the other, in roster order. */
  function Run(st: State, roster: Roster): (final: State)
    requires WellFormedRoster(roster)
    ensures final.docs.Keys == st.docs.Keys + RosterKeys(roster)
    ensures forall k :: k in st.docs && k !in RosterKeys(roster) ==> final.docs[k] == st.docs[k]
    ensures st.newMembers <= final.newMembers && st.updatedMembers <= final.updatedMembers
    ensures |final.newMembers| + |final.updatedMembers| <= |st.newMembers| + |st.updatedMembers| + |roster|
    ensures forall j :: |st.updatedMembers| <= j < |final.updatedMembers| ==> final.updatedMembers[j].newStars > 0
    decreases |roster|
  {
    if |roster| == 0 then st
    else
      var init := roster[..|roster| - 1];
      assert RosterKeys(roster) == RosterKeys(init) + {roster[|roster| - 1].key};
      var e := roster[|roster| - 1];
      Step(Run(st, init), e.key, Normal(e.value))
  }

  /** Running one more entry of a roster is handling it after the ones before. */
  lemma RunStep(st: State, roster: Roster, i: int)
    requires WellFormedRoster(roster) && 0 <= i < |roster|
    ensures Run(st, roster[..i + 1]) == Step(Run(st, roster[..i]), roster[i].key, Normal(roster[i].value))
  {
    assert roster[..i + 1][..i] == roster[..i];
  }

  /**
   * Lines 66-113 run sequentially: look the member up, normalise it, then
   * create, update or leave its document.
   */
  method ReconcileRoster(store: MemberStore, roster: Roster) returns (newMembers: seq<MemberDoc>, updatedMembers: seq<StarUpdate>)
    requires WellFormedRoster(roster)
    modifies store
    ensures State(store.docs, newMembers, updatedMembers) == Run(State(old(store.docs), [], []), roster)
  {
    newMembers, updatedMembers := [], [];
    for i := 0 to |roster|
      invariant State(store.docs, newMembers, updatedMembers) == Run(State(old(store.docs), [], []), roster[..i])
    {
      newMembers, updatedMembers := HandleMember(store, roster[i].key, roster[i].value, newMembers, updatedMembers);
      RunStep(State(old(store.docs), [], []), roster, i);
    }
    assert roster[..|roster|] == roster;
  }

  /** Lines 69-107: the body of one member's promise. */
  method HandleMember(store: MemberStore, id: string, member: RawMember, newMembers: seq<MemberDoc>, updatedMembers: seq<StarUpdate>)
    returns (newMembers': seq<MemberDoc>, updatedMembers': seq<StarUpdate>)
    requires WellFormed(member)
    modifies store
    ensures State(store.docs, newMembers', updatedMembers') == Step(State(old(store.docs), newMembers, updatedMembers), id, Normal(member))
  {
    newMembers', updatedMembers' := newMembers, updatedMembers;
    var memberDoc := store.Get(id);
    var docData := NormalizeMember(member);
    match memberDoc {
      case Some(memberData) =>
        if memberData.stars < docData.stars {
          WriteGain(store, id, memberData, docData);
          updatedMembers' := updatedMembers + [StarUpdate(docData.name, docData.stars - memberData.stars)];
        }
      case None =>
        store.Set(id, docData);
        var written := store.Get(id);
        newMembers' := newMembers + [written.value];
    }
  }

  /** Line 98: `update(flatten(doc))` on the stored document, which merges the completions. */
  method WriteGain(store: MemberStore, id: string, stored: MemberDoc, doc: MemberDoc)
    requires id in store.docs && store.docs[id] == stored
    modifies store
    ensures store.docs == old(store.docs)[id := doc.(completion := Merge(stored.completion, doc.completion))]
  {
    store.Update(id, Flatten(doc));
    UpdateMerges(stored, doc);
  }

  /** The outcome of one entry run on its own against the store `docs`. */
  function Alone(docs: map<string, MemberDoc>, e: Entry<RawMember>): State
    requires WellFormed(e.value)
  {
    Step(State(docs, [], []), e.key, Normal(e.value))
  }

  /** What an entry on its own adds to the two lists. */
  lemma AloneLists(docs: map<string, MemberDoc>, e: Entry<RawMember>)
    requires WellFormed(e.value)
    ensures Alone(docs, e).newMembers == Arrival(docs, e)
    ensures Alone(docs, e).updatedMembers == Gain(docs, e)
  {
  }

  /** The normalised record of an entry whose id `docs` lacks. */
  function Arrival(docs: map<string, MemberDoc>, e: Entry<RawMember>): seq<MemberDoc>
    requires WellFormed(e.value)
  {
    if e.key in docs then [] else [Normal(e.value)]
  }

  /** The star gain of an entry whose id `docs` holds with fewer stars. */
  function Gain(docs: map<string, MemberDoc>, e: Entry<RawMember>): seq<StarUpdate> {
    if e.key in docs && docs[e.key].stars < e.value.stars
    then [StarUpdate(e.value.name, e.value.stars - docs[e.key].stars)]
    else []
  }

  /** The normalised records of the roster's ids that `docs` lacks, in roster order. */
  function NewOf(docs: map<string, MemberDoc>, roster: Roster): seq<MemberDoc>
    requires WellFormedRoster(roster)
    decreases |roster|
  {
    if |roster| == 0 then []
    else NewOf(docs, roster[..|roster| - 1]) + Arrival(docs, roster[|roster| - 1])
  }

  /** The star gains of the roster's ids that `docs` holds with fewer stars, in roster order. */
  function UpdatesOf(docs: map<string, MemberDoc>, roster: Roster): seq<StarUpdate>
    requires WellFormedRoster(roster)
    decreases |roster|
  {
    if |roster| == 0 then []
    else UpdatesOf(docs, roster[..|roster| - 1]) + Gain(docs, roster[|roster| - 1])
  }

  /** `Step` depends on the store only through the document it is about. */
  lemma StepLocal(st: State, docs: map<string, MemberDoc>, id: string, doc: MemberDoc)
    requires id in st.docs <==> id in docs
    requires id in docs ==> st.docs[id] == docs[id]
    ensures var next, alone := Step(st, id, doc), Step(State(docs, [], []), id, doc);
      && next.newMembers == st.newMembers + alone.newMembers
      && next.updatedMembers == st.updatedMembers + alone.updatedMembers
      && next.docs[id] == alone.docs[id]
  {
    var next, alone := Step(st, id, doc), Step(State(docs, [], []), id, doc);
    if id !in docs {
      assert alone.newMembers == [doc] && alone.updatedMembers == [];
    } else if docs[id].stars < doc.stars {
      var u := StarUpdate(doc.name, doc.stars - docs[id].stars);
      assert alone.newMembers == [] && alone.updatedMembers == [u];
      assert next.updatedMembers == st.updatedMembers + [u];
    } else {
      assert alone.newMembers == [] && alone.updatedMembers == [];
    }
  }

  /** The last id of a roster with distinct ids does not occur before it. */
  lemma LastKeyFresh(roster: Roster)
    requires DistinctKeys(roster) && |roster| > 0
    ensures var n := |roster| - 1;
      roster[n].key !in RosterKeys(roster[..n]) && DistinctKeys(roster[..n])
  {
    var n := |roster| - 1;
    forall i | 0 <= i < n
      ensures roster[..n][i].key != roster[n].key
    {
    }
  }

  /**
   * With distinct ids (as `Object.entries` gives them), the lists of the
   * sequential run are what each entry contributes against the original
   * store: the normalised records of the unknown ids and the star gains of
   * the known ids with fewer stars, in roster order.
   */
  lemma {:induction false} RunListsPerEntry(docs: map<string, MemberDoc>, roster: Roster)
    requires WellFormedRoster(roster) && DistinctKeys(roster)
    ensures var final := Run(State(docs, [], []), roster);
      && final.newMembers == NewOf(docs, roster)
      && final.updatedMembers == UpdatesOf(docs, roster)
    decreases |roster|
  {
    if |roster| > 0 {
      var n := |roster| - 1;
      var init, e := roster[..n], roster[n];
      LastKeyFresh(roster);
      RunListsPerEntry(docs, init);
      var prev := Run(State(docs, [], []), init);
      var doc := Normal(e.value);
      StepLocal(prev, docs, e.key, doc);
      AloneLists(docs, e);
      assert Run(State(docs, [], []), roster) == Step(prev, e.key, doc);
    }
  }

  /**
   * With distinct ids, every document the sequential run writes ends as its
   * own entry, run on its own against the original store, leaves it. So the
   * order in which the handler's promises finish does not change the store.
   */
  lemma {:induction false} RunDocsPerEntry(docs: map<string, MemberDoc>, roster: Roster)
    requires WellFormedRoster(roster) && DistinctKeys(roster)
    ensures var final := Run(State(docs, [], []), roster);
      forall i :: 0 <= i < |roster| ==> final.docs[roster[i].key] == Alone(docs, roster[i]).docs[roster[i].key]
    decreases |roster|
  {
    if |roster| > 0 {
      var n := |roster| - 1;
      var init, e := roster[..n], roster[n];
      LastKeyFresh(roster);
      RunDocsPerEntry(docs, init);
      var prev := Run(State(docs, [], []), init);
      StepLocal(prev, docs, e.key, Normal(e.value));
      var final := Step(prev, e.key, Normal(e.value));
      assert Run(State(docs, [], []), roster) == final;
      forall i | 0 <= i < |roster|
        ensures final.docs[roster[i].key] == Alone(docs, roster[i]).docs[roster[i].key]
      {
        if i < n {
          assert init[i] == roster[i];
        }
      }
    }
  }

  /** Which entries add a new member: exactly the ids missing from the store, once each. */
  lemma {:induction false} NewOfMembers(docs: map<string, MemberDoc>, roster: Roster)
    requires WellFormedRoster(roster)
    ensures |NewOf(docs, roster)| <= |roster|
    ensures forall x :: x in NewOf(docs, roster) <==>
      exists i :: 0 <= i < |roster| && roster[i].key !in docs && x == Normal(roster[i].value)
    decreases |roster|
  {
    if |roster| > 0 {
      var n := |roster| - 1;
      var init, e := roster[..n], roster[n];
      NewOfMembers(docs, init);
      assert NewOf(docs, roster) == NewOf(docs, init) + Arrival(docs, e);
      forall x | x in NewOf(docs, roster)
        ensures exists i :: 0 <= i < |roster| && roster[i].key !in docs && x == Normal(roster[i].value)
      {
        if x in NewOf(docs, init) {
          var i :| 0 <= i < |init| && init[i].key !in docs && x == Normal(init[i].value);
          assert roster[i] == init[i];
        }
      }
      forall x | exists i :: 0 <= i < |roster| && roster[i].key !in docs && x == Normal(roster[i].value)
        ensures x in NewOf(docs, roster)
      {
        var i :| 0 <= i < |roster| && roster[i].key !in docs && x == Normal(roster[i].value);
        if i < n {
          assert roster[i] == init[i];
          assert 0 <= i < |init| && init[i].key !in docs && x == Normal(init[i].value);
          assert x in NewOf(docs, init);
        } else {
          assert i == n;
        }
      }
    }
  }

  /** The ids of a roster that the store lacks, one entry at a time. */
  lemma MissingKeysStep(docs: map<string, MemberDoc>, roster: Roster)
    requires DistinctKeys(roster) && |roster| > 0
    ensures var n := |roster| - 1; var e := roster[n];
      |RosterKeys(roster) - docs.Keys| == |RosterKeys(roster[..n]) - docs.Keys| + if e.key in docs then 0 else 1
  {
    var n := |roster| - 1;
    var init, e := roster[..n], roster[n];
    LastKeyFresh(roster);
    RosterKeysStep(roster);
    AddOneMissing(RosterKeys(init), e.key, docs.Keys);
  }

  lemma AddOneMissing<T>(a: set<T>, x: T, known: set<T>)
    requires x !in a
    ensures |(a + {x}) - known| == |a - known| + if x in known then 0 else 1
  {
    if x in known {
      assert (a + {x}) - known == a - known;
    } else {
      assert (a + {x}) - known == (a - known) + {x};
    }
  }

  /** With distinct ids, there is one new member per id missing from the store. */
  lemma {:induction false} NewOfCount(docs: map<string, MemberDoc>, roster: Roster)
    requires WellFormedRoster(roster) && DistinctKeys(roster)
    ensures |NewOf(docs, roster)| == |RosterKeys(roster) - docs.Keys|
    decreases |roster|
  {
    if |roster| > 0 {
      var n := |roster| - 1;
      LastKeyFresh(roster);
      NewOfCount(docs, roster[..n]);
      MissingKeysStep(docs, roster);
    }
  }

  /**
   * No entry both adds a new member and reports new stars, every reported
   * star count is positive, and each entry reports at most once.
   */
  lemma {:induction false} UpdatesOfPositive(docs: map<string, MemberDoc>, roster: Roster)
    requires WellFormedRoster(roster)
    ensures |NewOf(docs, roster)| + |UpdatesOf(docs, roster)| <= |roster|
    ensures forall j :: 0 <= j < |UpdatesOf(docs, roster)| ==> UpdatesOf(docs, roster)[j].newStars > 0
    ensures forall i :: 0 <= i < |roster| ==> Arrival(docs, roster[i]) == [] || Gain(docs, roster[i]) == []
    decreases |roster|
  {
    if |roster| > 0 {
      var n := |roster| - 1;
      var init, e := roster[..n], roster[n];
      UpdatesOfPositive(docs, init);
    }
  }
}
