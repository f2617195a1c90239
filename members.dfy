/**
 * The member records of the leaderboard feed and their normalised form.
 *
 * A raw record (`Imember`) carries its id and timestamps as decimal strings
 * and its progress as day string -> star string -> `{get_star_ts}`. The
 * normaliser turns it into a `MemberDoc`: integer id, millisecond timestamps,
 * and a `Completion` keyed by day and star numbers.
 *
 * A JSON object is modelled as the sequence of its properties in the order
 * `Object.keys` lists them, so that the loops over it can be followed step by
 * step, including what happens when two keys parse to the same number.
 */
module Members {
  import opened Decimal

  datatype Option<T> = None | Some(value: T)

  /** One property of a JSON object. */
  datatype Entry<V> = Entry(key: string, value: V)

  /** A JSON object, as `Object.keys` / `Object.entries` enumerate it. */
  type Object<V> = seq<Entry<V>>

  /** The `{get_star_ts}` object of one earned star. */
  datatype StarRecord = StarRecord(getStarTs: string)

  /** One day of `completion_day_level`: star string -> star record. */
  type RawDay = Object<StarRecord>

  /** `completion_day_level`: day string -> star string -> star record. */
  type RawCompletion = Object<RawDay>

  /** `last_star_ts`: epoch seconds as a string, or the numeric sentinel `0`. */
  datatype LastStarTs = NoStar | Seconds(text: string)

  datatype RawMember = RawMember(
    name: string,
    completionDayLevel: RawCompletion,
    lastStarTs: LastStarTs,
    id: string,
    stars: int,
    localScore: int,
    globalScore: int)

  /** A JavaScript `Date`, as milliseconds since the epoch. */
  type Millis = int

  /** Day number -> star number -> when that star was earned. */
  type Completion = map<int, map<int, Millis>>

  datatype MemberDoc = MemberDoc(
    name: string,
    lastStar: Millis,
    id: int,
    stars: int,
    localScore: int,
    globalScore: int,
    completion: Completion)

  predicate WellFormedDay(day: RawDay) {
    forall i :: 0 <= i < |day| ==> IsDigits(day[i].key) && IsDigits(day[i].value.getStarTs)
  }

  predicate WellFormedCompletion(raw: RawCompletion) {
    forall i :: 0 <= i < |raw| ==> IsDigits(raw[i].key) && WellFormedDay(raw[i].value)
  }

  /** A record whose every numeric string `parseInt` reads completely. */
  predicate WellFormed(m: RawMember) {
    && IsDigits(m.id)
    && (m.lastStarTs.Seconds? ==> IsDigits(m.lastStarTs.text))
    && WellFormedCompletion(m.completionDayLevel)
  }

  predicate NumericKeys<V>(obj: Object<V>) {
    forall i :: 0 <= i < |obj| ==> IsDigits(obj[i].key)
  }

  /** The numbers that the keys of an object parse to. */
  function ParsedKeys<V>(obj: Object<V>): set<int>
    requires NumericKeys(obj)
  {
    set i | 0 <= i < |obj| :: Parse(obj[i].key)
  }

  /** No later property of `obj` has a key that parses to the same number as the `i`-th. */
  predicate LastWithKey<V>(obj: Object<V>, i: int)
    requires 0 <= i < |obj| && NumericKeys(obj)
  {
    forall j :: i < j < |obj| ==> Parse(obj[j].key) != Parse(obj[i].key)
  }

  /** `new Date(parseInt(text) * 1000)`. */
  function SecondsToMillis(text: string): (ms: Millis)
    requires IsDigits(text)
    ensures ms >= 0 && ms % 1000 == 0
  {
    Parse(text) * 1000
  }

  /** The `last_star` conversion: a truthy string is epoch seconds, the sentinel is epoch zero. */
  function LastStarMillis(ts: LastStarTs): (ms: Millis)
    requires ts.Seconds? ==> IsDigits(ts.text)
    ensures ms >= 0 && ms % 1000 == 0
    ensures ts == NoStar ==> ms == 0
  {
    match ts
    case NoStar => 0
    case Seconds(text) => SecondsToMillis(text)
  }

  /**
   * The stars of one day after the inner `forEach`: each star key, in order,
   * sets `completion[day][parseInt(star)]`, a later key overwriting an earlier
   * one that parses to the same number.
   */
  function DayStars(day: RawDay): (stars: map<int, Millis>)
    requires WellFormedDay(day)
    ensures stars.Keys == ParsedKeys(day)
    decreases |day|
  {
    if |day| == 0 then map[]
    else
      var last := day[|day| - 1];
      DayStars(day[..|day| - 1])[Parse(last.key) := SecondsToMillis(last.value.getStarTs)]
  }

  /**
   * The `Completion` the outer `forEach` builds: each day key, in order, sets
   * `completion[parseInt(day)]` afresh to the converted stars of that day.
   */
  function CompletionOf(raw: RawCompletion): (completion: Completion)
    requires WellFormedCompletion(raw)
    ensures completion.Keys == ParsedKeys(raw)
    decreases |raw|
  {
    if |raw| == 0 then map[]
    else
      var last := raw[|raw| - 1];
      CompletionOf(raw[..|raw| - 1])[Parse(last.key) := DayStars(last.value)]
  }

  /** A star whose number no later star key repeats keeps its own time. */
  lemma {:induction false} DayStarsAt(day: RawDay, i: int)
    requires WellFormedDay(day) && 0 <= i < |day| && LastWithKey(day, i)
    ensures DayStars(day)[Parse(day[i].key)] == SecondsToMillis(day[i].value.getStarTs)
    decreases |day|
  {
    if i < |day| - 1 {
      var init := day[..|day| - 1];
      assert init[i] == day[i];
      assert LastWithKey(init, i) by {
        forall j | i < j < |init|
          ensures Parse(init[j].key) != Parse(init[i].key)
        {
          assert init[j] == day[j];
        }
      }
      DayStarsAt(init, i);
    }
  }

  /** A day whose number no later day key repeats keeps its own stars. */
  lemma {:induction false} CompletionAt(raw: RawCompletion, i: int)
    requires WellFormedCompletion(raw) && 0 <= i < |raw| && LastWithKey(raw, i)
    ensures CompletionOf(raw)[Parse(raw[i].key)] == DayStars(raw[i].value)
    decreases |raw|
  {
    if i < |raw| - 1 {
      var init := raw[..|raw| - 1];
      assert init[i] == raw[i];
      assert LastWithKey(init, i) by {
        forall j | i < j < |init|
          ensures Parse(init[j].key) != Parse(init[i].key)
        {
          assert init[j] == raw[j];
        }
      }
      CompletionAt(init, i);
    }
  }

  /** The `MemberDoc` the handler writes for a raw record. */
  function Normal(m: RawMember): (doc: MemberDoc)
    requires WellFormed(m)
    ensures doc.lastStar >= 0 && doc.lastStar % 1000 == 0
    ensures m.lastStarTs == NoStar ==> doc.lastStar == 0
    ensures doc.id >= 0 && (IsCanonical(m.id) ==> Show(doc.id) == m.id)
    ensures doc.completion.Keys == ParsedKeys(m.completionDayLevel)
    ensures doc.name == m.name && doc.stars == m.stars
    ensures doc.localScore == m.localScore && doc.globalScore == m.globalScore
  {
    PrintsBackIfCanonical(m.id);
    MemberDoc(
      m.name,
      LastStarMillis(m.lastStarTs),
      Parse(m.id),
      m.stars,
      m.localScore,
      m.globalScore,
      CompletionOf(m.completionDayLevel))
  }

  /**
   * Lines 72-82: for every day key set `completion[day] = {}`, then for every
   * star key of that day set `completion[day][star]` to the converted time.
   */
  method BuildCompletion(raw: RawCompletion) returns (completion: Completion)
    requires WellFormedCompletion(raw)
    ensures completion == CompletionOf(raw)
  {
    completion := map[];
    for i := 0 to |raw|
      invariant completion == CompletionOf(raw[..i])
    {
      var d := raw[i];
      var day := Parse(d.key);
      ghost var before := completion;
      completion := completion[day := map[]];
      for j := 0 to |d.value|
        invariant completion == before[day := DayStars(d.value[..j])]
      {
        var s := d.value[j];
        completion := completion[day := completion[day][Parse(s.key) := SecondsToMillis(s.value.getStarTs)]];
        DayStarsStep(d.value, j);
      }
      assert d.value[..|d.value|] == d.value;
      CompletionOfStep(raw, i);
    }
    assert raw[..|raw|] == raw;
  }

  lemma DayStarsStep(day: RawDay, j: int)
    requires WellFormedDay(day) && 0 <= j < |day|
    ensures DayStars(day[..j + 1]) == DayStars(day[..j])[Parse(day[j].key) := SecondsToMillis(day[j].value.getStarTs)]
  {
    assert day[..j + 1][..j] == day[..j];
  }

  lemma CompletionOfStep(raw: RawCompletion, i: int)
    requires WellFormedCompletion(raw) && 0 <= i < |raw|
    ensures CompletionOf(raw[..i + 1]) == CompletionOf(raw[..i])[Parse(raw[i].key) := DayStars(raw[i].value)]
  {
    assert raw[..i + 1][..i] == raw[..i];
  }

  /** Lines 67-92: the per-member normalisation, with the completion built in place. */
  method NormalizeMember(m: RawMember) returns (doc: MemberDoc)
    requires WellFormed(m)
    ensures doc == Normal(m)
  {
    var completion := BuildCompletion(m.completionDayLevel);
    var lastStar := if m.lastStarTs.Seconds? then Parse(m.lastStarTs.text) * 1000 else 0;
    doc := MemberDoc(m.name, lastStar, Parse(m.id), m.stars, m.localScore, m.globalScore, completion);
  }

  /** Keys that JavaScript itself would print: distinct and without leading zeros. */
  predicate CanonicalKeys<V>(obj: Object<V>) {
    && (forall i :: 0 <= i < |obj| ==> IsCanonical(obj[i].key))
    && (forall i, j :: 0 <= i < j < |obj| ==> obj[i].key != obj[j].key)
  }

  /** With canonical keys every property is the last one with its number. */
  lemma CanonicalIsLast<V>(obj: Object<V>, i: int)
    requires CanonicalKeys(obj) && 0 <= i < |obj|
    ensures NumericKeys(obj) && LastWithKey(obj, i)
  {
    forall j | i < j < |obj|
      ensures Parse(obj[j].key) != Parse(obj[i].key)
    {
      if Parse(obj[j].key) == Parse(obj[i].key) {
        ParseInjective(obj[j].key, obj[i].key);
      }
    }
  }

  /**
   * For a feed with canonical keys, the completion holds every reported star
   * under its parsed day and star numbers, with its time in milliseconds.
   */
  lemma CompletionFaithful(raw: RawCompletion, i: int, j: int)
    requires WellFormedCompletion(raw) && CanonicalKeys(raw)
    requires 0 <= i < |raw| && CanonicalKeys(raw[i].value) && 0 <= j < |raw[i].value|
    ensures Parse(raw[i].key) in CompletionOf(raw)
    ensures Parse(raw[i].value[j].key) in CompletionOf(raw)[Parse(raw[i].key)]
    ensures CompletionOf(raw)[Parse(raw[i].key)][Parse(raw[i].value[j].key)]
      == Parse(raw[i].value[j].value.getStarTs) * 1000
  {
    CanonicalIsLast(raw, i);
    CanonicalIsLast(raw[i].value, j);
    CompletionAt(raw, i);
    DayStarsAt(raw[i].value, j);
  }

  /**
   * Every day key of the converted completion prints back to a day key of a
   * canonical feed, so no day appears that the feed did not report.
   */
  lemma CompletionDaysFromFeed(raw: RawCompletion, day: int)
    requires WellFormedCompletion(raw) && CanonicalKeys(raw)
    requires day in CompletionOf(raw)
    ensures day >= 0 && exists i :: 0 <= i < |raw| && raw[i].key == Show(day)
  {
    var i :| 0 <= i < |raw| && Parse(raw[i].key) == day;
    ShowParse(raw[i].key);
  }

  /** A `last_star_ts` of `n` seconds gives `n * 1000` milliseconds. */
  lemma LastStarFromSeconds(n: nat)
    ensures LastStarMillis(Seconds(Show(n))) == n * 1000
  {
    ParseShow(n);
  }
}
