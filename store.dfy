/**
 * The `members` collection, reduced to what the handler uses of it: read
 * one document, create one, and apply a field-level update to one.
 * Documents are addressed by the member id string of the feed
 * (`members/<id>`).
 */
module Store {
  import opened Members
  import opened Patch

  class MemberStore {
    /** Document id -> stored document. */
    var docs: map<string, MemberDoc>

    constructor (initial: map<string, MemberDoc>)
      ensures docs == initial
    {
      docs := initial;
    }

    /** `doc(...).get()`: the stored document when it exists, `None` otherwise. */
    method Get(id: string) returns (found: Option<MemberDoc>)
      ensures found.Some? <==> id in docs
      ensures found.Some? ==> found.value == docs[id]
    {
      found := if id in docs then Some(docs[id]) else None;
    }

    /** `ref.set(doc)`: the document becomes `doc`; no other document changes. */
    method Set(id: string, doc: MemberDoc)
      modifies this
      ensures docs == old(docs)[id := doc]
    {
      docs := docs[id := doc];
    }

    /**
     * `ref.update(patch)` on an existing document: the named fields are
     * overwritten, the rest of that document and every other document kept.
     */
    method Update(id: string, p: Patch)
      requires id in docs && WellTyped(p)
      modifies this
      ensures docs == old(docs)[id := Apply(old(docs)[id], p)]
    {
      docs := docs[id := Apply(docs[id], p)];
    }
  }
}
