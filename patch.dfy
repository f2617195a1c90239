/**
 * The field-level update that line 98 sends to the store:
 * `memberDoc.ref.update(flatten(docData))`.
 *
 * `flatten` turns the nested document into a set of (field path, value)
 * pairs: every leaf of a nested plain object gets a dotted path
 * (`completion.3.1`), while a scalar, a `Date` or a nested object with no
 * properties is a leaf itself (`completion` when it is `{}`). The update then
 * overwrites exactly the fields those paths name and keeps every other field
 * of the stored document.
 */
module Patch {
  import opened Members

  /** The field paths that a flattened `MemberDoc` can contain. */
  datatype Path =
    | NamePath
    | LastStarPath
    | IdPath
    | StarsPath
    | LocalScorePath
    | GlobalScorePath
    | CompletionPath
    | DayPath(day: int)
    | StarPath(day: int, star: int)

  /** A leaf value: a string, a number or `Date`, or an empty object. */
  datatype Value = Text(text: string) | Number(number: int) | EmptyObject

  /** A set of (field path, value) pairs, at most one value per path. */
  type Patch = map<Path, Value>

  /** The paths of `flatten(doc)`: the scalar fields, then the completion's leaves. */
  function FlatPaths(doc: MemberDoc): set<Path> {
    var c := doc.completion;
    {NamePath, LastStarPath, IdPath, StarsPath, LocalScorePath, GlobalScorePath}
    + (if c == map[] then {CompletionPath} else {})
    + (set d | d in c && c[d] == map[] :: DayPath(d))
    + (set d, s | d in c && s in c[d] :: StarPath(d, s))
  }

  /** The value `flatten(doc)` gives a path. */
  function Leaf(doc: MemberDoc, pth: Path): Value {
    var c := doc.completion;
    match pth
    case NamePath => Text(doc.name)
    case LastStarPath => Number(doc.lastStar)
    case IdPath => Number(doc.id)
    case StarsPath => Number(doc.stars)
    case LocalScorePath => Number(doc.localScore)
    case GlobalScorePath => Number(doc.globalScore)
    case CompletionPath => EmptyObject
    case DayPath(_) => EmptyObject
    case StarPath(d, s) => Number(if d in c && s in c[d] then c[d][s] else 0)
  }

  /** `flatten(docData)` for a member document. */
  function Flatten(doc: MemberDoc): (p: Patch)
    ensures WellTyped(p)
    ensures NamePath in p && p[NamePath] == Text(doc.name)
    ensures StarsPath in p && p[StarsPath] == Number(doc.stars)
    ensures forall d, s :: d in doc.completion && s in doc.completion[d] ==>
      StarPath(d, s) in p && p[StarPath(d, s)] == Number(doc.completion[d][s])
  {
    map pth | pth in FlatPaths(doc) :: Leaf(doc, pth)
  }

  /** Each path carries a value of the kind the document's field holds. */
  predicate WellTyped(p: Patch) {
    forall pth :: pth in p ==>
      if pth == NamePath then p[pth].Text?
      else if pth == CompletionPath || pth.DayPath? then p[pth].EmptyObject?
      else p[pth].Number?
  }

  /** The store's `update`: overwrite the named fields, keep the others. */
  function Apply(stored: MemberDoc, p: Patch): MemberDoc
    requires WellTyped(p)
  {
    MemberDoc(
      if NamePath in p then p[NamePath].text else stored.name,
      if LastStarPath in p then p[LastStarPath].number else stored.lastStar,
      if IdPath in p then p[IdPath].number else stored.id,
      if StarsPath in p then p[StarsPath].number else stored.stars,
      if LocalScorePath in p then p[LocalScorePath].number else stored.localScore,
      if GlobalScorePath in p then p[GlobalScorePath].number else stored.globalScore,
      ApplyCompletion(stored.completion, p))
  }

  /** The days a patch writes to, either as a whole or through one of their stars. */
  function PatchedDays(p: Patch): set<int> {
    (set pth | pth in p && pth.DayPath? :: pth.day) + (set pth | pth in p && pth.StarPath? :: pth.day)
  }

  function ApplyCompletion(c: Completion, p: Patch): Completion
    requires WellTyped(p)
  {
    var base := if CompletionPath in p then map[] else c;
    map d | d in base.Keys + PatchedDays(p) :: ApplyDay(if d in base then base[d] else map[], d, p)
  }

  /** The stars of day `d` that a patch writes. */
  function PatchedStars(p: Patch, d: int): set<int> {
    set pth | pth in p && pth.StarPath? && pth.day == d :: pth.star
  }

  function ApplyDay(row: map<int, Millis>, d: int, p: Patch): map<int, Millis>
    requires WellTyped(p)
  {
    var base := if DayPath(d) in p then map[] else row;
    var stars := base.Keys + PatchedStars(p, d);
    map s | s in stars :: if StarPath(d, s) in p then p[StarPath(d, s)].number else base[s]
  }

  /**
   * What an update with a flattened document does to a stored completion:
   * an empty fetched completion or day replaces the stored one; otherwise
   * every fetched star is written and every other stored star is kept.
   */
  function Merge(stored: Completion, fetched: Completion): (merged: Completion)
    ensures fetched != map[] ==> merged.Keys == stored.Keys + fetched.Keys
  {
    if fetched == map[] then map[]
    else
      map d | d in stored.Keys + fetched.Keys ::
        if d !in fetched then stored[d]
        else if fetched[d] == map[] then map[]
        else (if d in stored then stored[d] else map[]) + fetched[d]
  }

  /** A non-empty day has a star. */
  lemma NonEmptyHasKey(row: map<int, Millis>)
    requires row != map[]
    ensures exists s :: s in row
  {
    if forall s :: s !in row {
      assert false;
    }
  }

  /** A fetched day is written by the patch, as an empty object or through a star. */
  lemma FlattenedDay(doc: MemberDoc, d: int)
    requires d in doc.completion
    ensures d in PatchedDays(Flatten(doc))
  {
    var p, f := Flatten(doc), doc.completion;
    if f[d] == map[] {
      assert DayPath(d) in p;
    } else {
      NonEmptyHasKey(f[d]);
      var s :| s in f[d];
      assert StarPath(d, s) in p;
    }
  }

  /** A day or star path of a flattened document names a fetched day. */
  lemma FlatPathDay(doc: MemberDoc, pth: Path)
    requires pth in FlatPaths(doc) && (pth.DayPath? || pth.StarPath?)
    ensures pth.day in doc.completion
  {
  }

  /** Every day the patch writes is a fetched day. */
  lemma PatchedDayFetched(doc: MemberDoc, d: int)
    requires d in PatchedDays(Flatten(doc))
    ensures d in doc.completion
  {
    var p := Flatten(doc);
    var pth :| pth in p && (pth.DayPath? || pth.StarPath?) && pth.day == d;
    assert pth in FlatPaths(doc);
    FlatPathDay(doc, pth);
  }

  /** A patch writes a star of day `d` exactly when it names that star. */
  lemma PatchedStar(p: Patch, d: int, s: int)
    ensures s in PatchedStars(p, d) <==> StarPath(d, s) in p
  {
    if StarPath(d, s) in p {
      var pth := StarPath(d, s);
      assert pth in p && pth.StarPath? && pth.day == d && pth.star == s;
    }
  }

  /** The days a flattened document writes are exactly its days. */
  lemma FlattenedDays(doc: MemberDoc)
    ensures CompletionPath in Flatten(doc) <==> doc.completion == map[]
    ensures PatchedDays(Flatten(doc)) == doc.completion.Keys
  {
    forall d | d in doc.completion
      ensures d in PatchedDays(Flatten(doc))
    {
      FlattenedDay(doc, d);
    }
    forall d | d in PatchedDays(Flatten(doc))
      ensures d in doc.completion
    {
      PatchedDayFetched(doc, d);
    }
  }

  /** The stars a flattened document writes for a day are exactly that day's stars. */
  lemma FlattenedStars(doc: MemberDoc, d: int)
    ensures PatchedStars(Flatten(doc), d) == if d in doc.completion then doc.completion[d].Keys else {}
  {
    var p, f := Flatten(doc), doc.completion;
    forall s | s in PatchedStars(p, d)
      ensures d in f && s in f[d]
    {
      PatchedStar(p, d, s);
    }
    if d in f {
      forall s | s in f[d]
        ensures s in PatchedStars(p, d)
      {
        PatchedStar(p, d, s);
      }
    }
  }

  /** A flattened document names a day as a whole exactly when that day is empty. */
  lemma FlattenedDayPath(doc: MemberDoc, d: int)
    ensures DayPath(d) in Flatten(doc) <==> d in doc.completion && doc.completion[d] == map[]
  {
  }

  /** The completion leaves of a patch that flattens the completion `f`. */
  ghost predicate FlattensCompletion(p: Patch, f: Completion) {
    && WellTyped(p)
    && (CompletionPath in p <==> f == map[])
    && PatchedDays(p) == f.Keys
    && (forall d :: PatchedStars(p, d) == if d in f then f[d].Keys else {})
    && (forall d :: DayPath(d) in p <==> d in f && f[d] == map[])
    && (forall d, s :: d in f && s in f[d] ==> StarPath(d, s) in p && p[StarPath(d, s)] == Number(f[d][s]))
  }

  lemma FlattenFlattens(doc: MemberDoc)
    ensures FlattensCompletion(Flatten(doc), doc.completion)
  {
    FlattenedDays(doc);
    forall d
      ensures PatchedStars(Flatten(doc), d) == if d in doc.completion then doc.completion[d].Keys else {}
      ensures DayPath(d) in Flatten(doc) <==> d in doc.completion && doc.completion[d] == map[]
    {
      FlattenedStars(doc, d);
      FlattenedDayPath(doc, d);
    }
  }

  /** A day the patch does not name keeps its stored stars. */
  lemma UntouchedDay(row: map<int, Millis>, d: int, p: Patch)
    requires WellTyped(p) && DayPath(d) !in p && PatchedStars(p, d) == {}
    ensures ApplyDay(row, d, p) == row
  {
    var applied := ApplyDay(row, d, p);
    forall s | s in row
      ensures applied[s] == row[s]
    {
      PatchedStar(p, d, s);
    }
  }

  /** A day the patch names as an empty object is cleared. */
  lemma ClearedDay(row: map<int, Millis>, d: int, p: Patch)
    requires WellTyped(p) && DayPath(d) in p && PatchedStars(p, d) == {}
    ensures ApplyDay(row, d, p) == map[]
  {
  }

  /** A day the patch names through its stars gets those stars on top of its stored ones. */
  lemma WrittenDay(row: map<int, Millis>, d: int, p: Patch, fetched: map<int, Millis>)
    requires WellTyped(p) && DayPath(d) !in p && PatchedStars(p, d) == fetched.Keys
    requires forall s :: s in fetched ==> StarPath(d, s) in p && p[StarPath(d, s)] == Number(fetched[s])
    ensures ApplyDay(row, d, p) == row + fetched
  {
    var applied := ApplyDay(row, d, p);
    forall s | s in applied
      ensures applied[s] == (row + fetched)[s]
    {
      PatchedStar(p, d, s);
    }
  }

  /** The effect of such a patch on one day of a stored completion. */
  lemma MergeDay(c: Completion, p: Patch, f: Completion, d: int)
    requires FlattensCompletion(p, f) && f != map[]
    requires d in c || d in f
    ensures ApplyDay(if d in c then c[d] else map[], d, p) == Merge(c, f)[d]
  {
    var row := if d in c then c[d] else map[];
    if d !in f {
      UntouchedDay(row, d, p);
    } else if f[d] == map[] {
      ClearedDay(row, d, p);
    } else {
      WrittenDay(row, d, p, f[d]);
    }
  }

  /** The days of a stored completion after such a patch. */
  lemma MergedDays(c: Completion, p: Patch, f: Completion)
    requires FlattensCompletion(p, f) && f != map[]
    ensures ApplyCompletion(c, p).Keys == Merge(c, f).Keys
  {
  }

  /** A day of a completion that the patch does not replace as a whole. */
  lemma AppliedDay(c: Completion, p: Patch, d: int)
    requires WellTyped(p) && CompletionPath !in p && d in ApplyCompletion(c, p)
    ensures d in c || d in PatchedDays(p)
    ensures ApplyCompletion(c, p)[d] == ApplyDay(if d in c then c[d] else map[], d, p)
  {
  }

  /** Day by day, such a patch leaves what `Merge` gives. */
  lemma MergedEachDay(c: Completion, p: Patch, f: Completion)
    requires FlattensCompletion(p, f) && f != map[]
    ensures forall d :: d in ApplyCompletion(c, p) ==> d in Merge(c, f) && ApplyCompletion(c, p)[d] == Merge(c, f)[d]
  {
    forall d | d in ApplyCompletion(c, p)
      ensures d in Merge(c, f) && ApplyCompletion(c, p)[d] == Merge(c, f)[d]
    {
      AppliedDay(c, p, d);
      MergeDay(c, p, f, d);
    }
  }

  /** A patch that flattens an empty completion clears the stored one. */
  lemma ClearedCompletion(c: Completion, p: Patch)
    requires FlattensCompletion(p, map[])
    ensures ApplyCompletion(c, p) == map[]
  {
  }

  /** The effect of such a patch on a stored completion. */
  lemma MergeDays(c: Completion, p: Patch, f: Completion)
    requires FlattensCompletion(p, f)
    ensures ApplyCompletion(c, p) == Merge(c, f)
  {
    if f == map[] {
      ClearedCompletion(c, p);
    } else {
      MergedDays(c, p, f);
      MergedEachDay(c, p, f);
    }
  }

  /** The completion that `update(flatten(doc))` leaves. */
  lemma CompletionMerges(c: Completion, doc: MemberDoc)
    ensures ApplyCompletion(c, Flatten(doc)) == Merge(c, doc.completion)
  {
    FlattenFlattens(doc);
    MergeDays(c, Flatten(doc), doc.completion);
  }

  /** The scalar leaves of a flattened document. */
  lemma FlattenedScalars(doc: MemberDoc)
    ensures var p := Flatten(doc);
      && LastStarPath in p && p[LastStarPath] == Number(doc.lastStar)
      && IdPath in p && p[IdPath] == Number(doc.id)
      && LocalScorePath in p && p[LocalScorePath] == Number(doc.localScore)
      && GlobalScorePath in p && p[GlobalScorePath] == Number(doc.globalScore)
  {
  }

  /** Updating a stored document with `flatten(doc)`. */
  lemma UpdateMerges(stored: MemberDoc, doc: MemberDoc)
    ensures Apply(stored, Flatten(doc)) == doc.(completion := Merge(stored.completion, doc.completion))
  {
    FlattenedScalars(doc);
    CompletionMerges(stored.completion, doc);
  }

  /** Merging a completion into itself changes nothing. */
  lemma MergeSelf(c: Completion)
    ensures Merge(c, c) == c
  {
    if c != map[] {
      var m := Merge(c, c);
      forall d | d in c
        ensures m[d] == c[d]
      {
        var row := c[d];
        assert row + row == row;
      }
      assert m.Keys == c.Keys;
    }
  }

  /** Updating a document with its own flattening leaves it as it is. */
  lemma UpdateWithOwn(doc: MemberDoc)
    ensures Apply(doc, Flatten(doc)) == doc
  {
    UpdateMerges(doc, doc);
    MergeSelf(doc.completion);
  }

  /**
   * What `update(flatten(doc))` does to a stored document: every scalar
   * field and every star time of `doc` is written; a stored day that `doc`
   * does not report, and a stored star of a reported day that `doc` does
   * not report, are kept; an empty object in `doc` clears what it names.
   */
  lemma UpdateEffect(stored: MemberDoc, doc: MemberDoc)
    ensures var u := Apply(stored, Flatten(doc));
      && u.name == doc.name && u.lastStar == doc.lastStar && u.id == doc.id
      && u.stars == doc.stars && u.localScore == doc.localScore && u.globalScore == doc.globalScore
    ensures var u, f := Apply(stored, Flatten(doc)).completion, doc.completion;
      forall d, s :: d in f && s in f[d] ==> d in u && s in u[d] && u[d][s] == f[d][s]
    ensures var u, f := Apply(stored, Flatten(doc)).completion, doc.completion;
      forall d :: d in f && f[d] == map[] ==> d in u && u[d] == map[]
    ensures var u, c, f := Apply(stored, Flatten(doc)).completion, stored.completion, doc.completion;
      f != map[] ==> forall d :: d in c && d !in f ==> d in u && u[d] == c[d]
    ensures var u, c, f := Apply(stored, Flatten(doc)).completion, stored.completion, doc.completion;
      forall d, s :: d in f && f[d] != map[] && d in c && s in c[d] && s !in f[d] ==>
        d in u && s in u[d] && u[d][s] == c[d][s]
    ensures Apply(stored, Flatten(doc)).completion == map[] <==> doc.completion == map[]
  {
    UpdateMerges(stored, doc);
  }
}
