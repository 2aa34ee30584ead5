/**
 * The repositories, each a class over the in-memory image of its MongoDB
 * collection: `OrderedRepository` is the shared code of
 * app/infrastructure/repositories/skill_repository.py and
 * project_repository.py (and stands for the ordered experience and
 * education repositories the use cases call), the name queries are those
 * of `SkillRepository`, and `MessageRepository` is
 * app/infrastructure/repositories/contact_message_repository.py.
 * Documents are held as entity records; the document encoding and its
 * round trip are in the Mappers module.
 */
module Repositories {
  import opened Common
  import opened Stores
  import Skills
  import Projects
  import WorkExperiences
  import Educations
  import Profiles
  import ContactMessages

  /** `r` lists distinct documents of `docs` whose ids are in `matching`, as `find(...).to_list(100)` does. */
  predicate FoundIn<T(==)>(r: seq<Entry<T>>, docs: Store<T>, matching: set<Id>) {
    matching <= docs.Keys
    && Distinct(r)
    && |r| == Min(|matching|, PageLimit)
    && (forall i :: 0 <= i < |r| ==> r[i].id in matching && r[i].id in docs && docs[r[i].id] == r[i])
    && (|matching| <= PageLimit ==> forall id :: id in matching ==> docs[id] in r)
  }

  /**
   * `get_all_ordered`: the first 100 documents of `matching` in
   * `order_index` order, ascending or descending: sorted, and every
   * document left out comes after every document kept.
   */
  predicate FirstInOrder<T(==)>(r: seq<Entry<T>>, docs: Store<T>, matching: set<Id>, asc: bool) {
    FoundIn(r, docs, matching)
    && SortedBy(r, IndexKey, asc)
    && forall id :: id in matching && docs[id] !in r ==>
         forall i :: 0 <= i < |r| ==> InOrder(r[i].orderIndex, docs[id].orderIndex, asc)
  }

  /** Reordering a result, as `list.sort` does, keeps it a result of the same query. */
  lemma FoundInPermuted<T>(a: seq<Entry<T>>, b: seq<Entry<T>>, docs: Store<T>, matching: set<Id>)
    requires FoundIn(a, docs, matching)
    requires multiset(b) == multiset(a) && Distinct(b)
    ensures FoundIn(b, docs, matching)
  {
    assert |b| == |multiset(b)| == |multiset(a)| == |a|;
    forall i | 0 <= i < |b|
      ensures b[i].id in matching && b[i].id in docs && docs[b[i].id] == b[i]
    {
      assert b[i] in multiset(a);
      var j :| 0 <= j < |a| && a[j] == b[i];
    }
    forall x | x in a
      ensures x in b
    {
      assert x in multiset(b);
    }
  }

  /** Some document of profile `p` sits at index `k`. */
  predicate IndexTaken<T>(docs: Store<T>, p: Id, k: int) {
    exists id :: id in docs && docs[id].profileId == p && docs[id].orderIndex == k
  }

  class OrderedRepository<T(==)> {
    var docs: Store<T>

    predicate Valid()
      reads this
    {
      Keyed(docs)
    }

    constructor Empty()
      ensures docs == map[] && Valid()
    {
      docs := map[];
    }

    /** `add`: `insert_one`; a document whose `_id` is already stored is refused and nothing changes. */
    method Add(e: Entry<T>) returns (inserted: bool)
      modifies this
      ensures inserted <==> e.id !in old(docs)
      ensures docs == if inserted then old(docs)[e.id := e] else old(docs)
      ensures old(Valid()) ==> Valid()
    {
      inserted := e.id !in docs;
      if inserted {
        docs := docs[e.id := e];
      }
    }

    /** `update`: `replace_one({"_id": id}, doc)`, which does nothing when no document has that id. */
    method Update(e: Entry<T>)
      modifies this
      ensures docs == if e.id in old(docs) then old(docs)[e.id := e] else old(docs)
      ensures old(Valid()) ==> Valid()
    {
      if e.id in docs {
        docs := docs[e.id := e];
      }
    }

    /** `delete`: true exactly when a document was removed; a second delete returns false. */
    method Delete(id: Id) returns (deleted: bool)
      modifies this
      ensures deleted <==> id in old(docs)
      ensures docs == old(docs) - {id} && id !in docs
      ensures old(Valid()) ==> Valid()
    {
      deleted := id in docs;
      docs := docs - {id};
    }

    method GetById(id: Id) returns (r: Option<Entry<T>>)
      ensures r.Some? <==> id in docs
      ensures r.Some? ==> r.value == docs[id]
    {
      r := if id in docs then Some(docs[id]) else None;
    }

    /** `get_by_order_index`: some document with both the profile and the index, or None when there is none. */
    method GetByOrderIndex(p: Id, k: int) returns (r: Option<Entry<T>>)
      ensures r.None? <==> !IndexTaken(docs, p, k)
      ensures r.Some? ==> r.value in docs.Values && r.value.profileId == p && r.value.orderIndex == k
    {
      if exists id :: id in docs && docs[id].profileId == p && docs[id].orderIndex == k {
        var id :| id in docs && docs[id].profileId == p && docs[id].orderIndex == k;
        r := Some(docs[id]);
      } else {
        r := None;
      }
    }

    /** `find_by(profile_id=p)`. */
    method FindByProfile(p: Id) returns (r: seq<Entry<T>>)
      requires Valid()
      ensures FoundIn(r, docs, OfProfile(docs, p))
    {
      KeyedIsInjective(docs);
      ghost var ids;
      r, ids := Collect(docs, OfProfile(docs, p), PageLimit);
    }

    /** `get_all_ordered(profile_id, ascending)`. */
    method GetAllOrdered(p: Id, asc: bool) returns (r: seq<Entry<T>>)
      requires Valid()
      ensures FirstInOrder(r, docs, OfProfile(docs, p), asc)
    {
      KeyedIsInjective(docs);
      r := FirstSorted(docs, OfProfile(docs, p), IndexKey, asc);
      forall i | 0 <= i < |r|
        ensures r[i].id in OfProfile(docs, p) && docs[r[i].id] == r[i]
      {
        assert r[i] in r;
      }
    }

    /**
     * `reorder`: the `update_many` range shift within the profile, then
     * the `update_one` that puts the mover, found by id alone, at its new index.
     */
    method Reorder(p: Id, entityId: Id, newIndex: int)
      modifies this
      ensures docs == Reordered(old(docs), p, entityId, newIndex)
      ensures old(Valid()) ==> Valid()
    {
      if entityId !in docs {
        return;
      }
      var oldIndex := docs[entityId].orderIndex;
      if oldIndex == newIndex {
        return;
      }
      docs := map id | id in docs :: if docs[id].profileId == p && InShiftRange(docs[id].orderIndex, oldIndex, newIndex)
                                     then docs[id].(orderIndex := docs[id].orderIndex + ShiftDelta(oldIndex, newIndex))
                                     else docs[id];
      docs := docs[entityId := docs[entityId].(orderIndex := newIndex)];
    }
  }

  type SkillRepository = OrderedRepository<Skills.SkillFields>

  type ProjectRepository = OrderedRepository<Projects.ProjectFields>

  /** The ordered experience and education repositories the use cases are given. */
  type ExperienceRepository = OrderedRepository<WorkExperiences.ExperienceFields>

  type EducationRepository = OrderedRepository<Educations.EducationFields>

  // ---------------------------------------------------------------------
  // The name queries of SkillRepository

  /** The profile already has a skill of exactly this name. */
  predicate NameTaken(docs: Store<Skills.SkillFields>, p: Id, name: string) {
    exists id :: id in docs && docs[id].profileId == p && docs[id].body.name == name
  }

  /** `exists_by_name`: an exact (profile_id, name) match. */
  method ExistsByName(repo: SkillRepository, p: Id, name: string) returns (b: bool)
    ensures b <==> NameTaken(repo.docs, p, name)
  {
    b := exists id :: id in repo.docs && repo.docs[id].profileId == p && repo.docs[id].body.name == name;
  }

  /** `get_by_name`: a skill of the profile with that exact name, or None when there is none. */
  method GetByName(repo: SkillRepository, p: Id, name: string) returns (r: Option<Skills.SkillRecord>)
    ensures r.None? <==> !NameTaken(repo.docs, p, name)
    ensures r.Some? ==> r.value in repo.docs.Values && r.value.profileId == p && r.value.body.name == name
  {
    if exists id :: id in repo.docs && repo.docs[id].profileId == p && repo.docs[id].body.name == name {
      var id :| id in repo.docs && repo.docs[id].profileId == p && repo.docs[id].body.name == name;
      r := Some(repo.docs[id]);
    } else {
      r := None;
    }
  }

  /** The ids `find_by(profile_id=p, category=c)` matches. */
  function InCategory(docs: Store<Skills.SkillFields>, p: Id, c: string): set<Id> {
    set id | id in docs && docs[id].profileId == p && docs[id].body.category == c
  }

  /** `find_by(profile_id=p, category=c)`. */
  method FindByCategory(repo: SkillRepository, p: Id, c: string) returns (r: seq<Skills.SkillRecord>)
    requires repo.Valid()
    ensures FoundIn(r, repo.docs, InCategory(repo.docs, p, c))
  {
    KeyedIsInjective(repo.docs);
    ghost var ids;
    r, ids := Collect(repo.docs, InCategory(repo.docs, p, c), PageLimit);
  }

  // ---------------------------------------------------------------------
  // The profile store

  /**
   * The store behind `IProfileRepository`, whose business rule is that at
   * most one profile exists: `get_profile` returns a stored profile when
   * there is one, `profile_exists` says whether there is one.
   */
  class ProfileRepository {
    var profiles: map<Id, Profiles.ProfileRecord>

    predicate Valid()
      reads this
    {
      forall id :: id in profiles ==> profiles[id].id == id
    }

    constructor Empty()
      ensures profiles == map[] && Valid()
    {
      profiles := map[];
    }

    method GetProfile() returns (r: Option<Profiles.ProfileRecord>)
      ensures r.None? <==> profiles == map[]
      ensures r.Some? ==> r.value in profiles.Values
    {
      if profiles == map[] {
        r := None;
      } else {
        var id :| id in profiles;
        r := Some(profiles[id]);
      }
    }

    method ProfileExists() returns (b: bool)
      ensures b <==> profiles != map[]
    {
      b := profiles != map[];
    }

    method Add(e: Profiles.ProfileRecord) returns (inserted: bool)
      modifies this
      ensures inserted <==> e.id !in old(profiles)
      ensures profiles == if inserted then old(profiles)[e.id := e] else old(profiles)
      ensures old(Valid()) ==> Valid()
    {
      inserted := e.id !in profiles;
      if inserted {
        profiles := profiles[e.id := e];
      }
    }

    method Update(e: Profiles.ProfileRecord)
      modifies this
      ensures profiles == if e.id in old(profiles) then old(profiles)[e.id := e] else old(profiles)
      ensures old(Valid()) ==> Valid()
    {
      if e.id in profiles {
        profiles := profiles[e.id := e];
      }
    }
  }

  // ---------------------------------------------------------------------
  // The contact-message repository

  type MessageRecord = ContactMessages.MessageRecord

  /** Every message is stored under its own id. */
  predicate MessagesKeyed(docs: map<Id, MessageRecord>) {
    forall id :: id in docs ==> docs[id].id == id
  }

  lemma MessagesKeyedIsInjective(docs: map<Id, MessageRecord>)
    requires MessagesKeyed(docs)
    ensures Injective(docs)
  {
  }

  /** The sort key of `sort("created_at", ...)`. */
  function CreatedKey(m: MessageRecord): int {
    m.createdAt
  }

  /** The ids `find({"status": s})` matches. */
  function WithStatus(docs: map<Id, MessageRecord>, s: string): set<Id> {
    set id | id in docs && docs[id].status == s
  }

  /**
   * `find({"status": s}).sort("created_at", -1).to_list(length=100)`:
   * distinct stored messages with that status, newest first, the 100
   * newest when there are more, all of them otherwise.
   */
  predicate NewestOfStatus(r: seq<MessageRecord>, docs: map<Id, MessageRecord>, s: string) {
    var matching := WithStatus(docs, s);
    matching <= docs.Keys
    && Distinct(r) && SortedBy(r, CreatedKey, false)
    && |r| == Min(|matching|, PageLimit)
    && (forall i :: 0 <= i < |r| ==> r[i].status == s && r[i].id in docs && docs[r[i].id] == r[i])
    && (forall id :: id in matching && docs[id] !in r ==>
          forall i :: 0 <= i < |r| ==> docs[id].createdAt <= r[i].createdAt)
  }

  /**
   * The update `mark_as_replied` writes: status replied, and both
   * `replied_at` and `read_at` set to now, whatever `read_at` held before.
   */
  function StoredReplied(r: MessageRecord, now: Timestamp): (t: MessageRecord)
    ensures t.status == ContactMessages.Replied && t.readAt == t.repliedAt == Some(now)
    ensures t.(status := r.status, readAt := r.readAt, repliedAt := r.repliedAt) == r
  {
    r.(status := ContactMessages.Replied, repliedAt := Some(now), readAt := Some(now))
  }

  /**
   * The repository's reply update and the entity's `mark_as_replied` agree
   * exactly when the message had not been read yet: the repository
   * overwrites an earlier `read_at`, the entity keeps it.
   */
  lemma StoredRepliedVersusEntity(r: MessageRecord, now: Timestamp)
    requires r.status == ContactMessages.Pending || r.status == ContactMessages.Read
    ensures StoredReplied(r, now) == ContactMessages.MarkedReplied(r, now) <==> r.readAt.None? || r.readAt == Some(now)
  {
  }

  /** The repository's reply update keeps a lifecycle coherent, with no condition on the clock. */
  lemma StoredRepliedKeepsCoherent(r: MessageRecord, now: Timestamp)
    requires ContactMessages.Coherent(r)
    requires r.status == ContactMessages.Pending || r.status == ContactMessages.Read
    ensures ContactMessages.Coherent(StoredReplied(r, now))
    ensures ContactMessages.ValidMessage(r) ==> ContactMessages.ValidMessage(StoredReplied(r, now))
  {
  }

  class MessageRepository {
    var docs: map<Id, MessageRecord>

    predicate Valid()
      reads this
    {
      MessagesKeyed(docs)
    }

    constructor Empty()
      ensures docs == map[] && Valid()
    {
      docs := map[];
    }

    method Add(e: MessageRecord) returns (inserted: bool)
      modifies this
      ensures inserted <==> e.id !in old(docs)
      ensures docs == if inserted then old(docs)[e.id := e] else old(docs)
      ensures old(Valid()) ==> Valid()
    {
      inserted := e.id !in docs;
      if inserted {
        docs := docs[e.id := e];
      }
    }

    method Update(e: MessageRecord)
      modifies this
      ensures docs == if e.id in old(docs) then old(docs)[e.id := e] else old(docs)
      ensures old(Valid()) ==> Valid()
    {
      if e.id in docs {
        docs := docs[e.id := e];
      }
    }

    method Delete(id: Id) returns (deleted: bool)
      modifies this
      ensures deleted <==> id in old(docs)
      ensures docs == old(docs) - {id}
      ensures old(Valid()) ==> Valid()
    {
      deleted := id in docs;
      docs := docs - {id};
    }

    method GetById(id: Id) returns (r: Option<MessageRecord>)
      ensures r.Some? <==> id in docs
      ensures r.Some? ==> r.value == docs[id]
    {
      r := if id in docs then Some(docs[id]) else None;
    }

    /** `get_messages_by_status(status)`. */
    method GetByStatus(s: string) returns (r: seq<MessageRecord>)
      requires Valid()
      ensures NewestOfStatus(r, docs, s)
    {
      MessagesKeyedIsInjective(docs);
      r := FirstSorted(docs, WithStatus(docs, s), CreatedKey, false);
      forall i | 0 <= i < |r|
        ensures r[i].status == s && r[i].id in docs && docs[r[i].id] == r[i]
      {
        assert r[i] in r;
      }
    }

    /** `get_pending_messages`: the same query with the status fixed to pending. */
    method GetPending() returns (r: seq<MessageRecord>)
      requires Valid()
      ensures NewestOfStatus(r, docs, ContactMessages.Pending)
    {
      r := GetByStatus(ContactMessages.Pending);
    }

    /**
     * `list_all(skip, limit)` with the default sort: all messages newest
     * first, then `skip` of them dropped and at most `limit` kept.
     * `ordered` is that whole newest-first listing.
     */
    method ListAll(skip: nat, limit: nat) returns (r: seq<MessageRecord>, ghost ordered: seq<MessageRecord>)
      requires Valid()
      requires limit >= 1
      ensures Distinct(ordered) && SortedBy(ordered, CreatedKey, false)
      ensures forall m :: m in ordered <==> m in docs.Values
      ensures r == ordered[Min(skip, |ordered|)..Min(skip + limit, |ordered|)]
    {
      MessagesKeyedIsInjective(docs);
      var sorted := SortAll(docs, docs.Keys, CreatedKey, false);
      ordered := sorted;
      forall m | m in docs.Values
        ensures m in ordered
      {
        var id :| id in docs && docs[id] == m;
      }
      r := sorted[Min(skip, |sorted|)..Min(skip + limit, |sorted|)];
    }

    /**
     * `mark_as_read(message_id)`: the update matches only a pending message
     * with that id; it reports whether a document was modified.
     */
    method MarkAsRead(id: Id, now: Timestamp) returns (modified: bool)
      modifies this
      ensures modified <==> id in old(docs) && old(docs)[id].status == ContactMessages.Pending
      ensures docs == if modified then old(docs)[id := ContactMessages.MarkedRead(old(docs)[id], now)] else old(docs)
      ensures old(Valid()) ==> Valid()
    {
      modified := id in docs && docs[id].status == ContactMessages.Pending;
      if modified {
        docs := docs[id := docs[id].(status := ContactMessages.Read, readAt := Some(now))];
      }
    }

    /** `mark_as_replied(message_id)`: matches a pending or read message with that id. */
    method MarkAsReplied(id: Id, now: Timestamp) returns (modified: bool)
      modifies this
      ensures modified <==> id in old(docs) && (old(docs)[id].status == ContactMessages.Pending
                                               || old(docs)[id].status == ContactMessages.Read)
      ensures docs == if modified then old(docs)[id := StoredReplied(old(docs)[id], now)] else old(docs)
      ensures old(Valid()) ==> Valid()
    {
      modified := id in docs && (docs[id].status == ContactMessages.Pending || docs[id].status == ContactMessages.Read);
      if modified {
        docs := docs[id := docs[id].(status := ContactMessages.Replied, repliedAt := Some(now), readAt := Some(now))];
      }
    }
  }
}
