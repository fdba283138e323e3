/** Merging one user's data into another's (src/wecom_ai_gateway/binding.py).

    A table maps row ids to rows; every row has an owner and, per owner, a key. */
module IdentityMerge {
  import opened Basics
  import opened Text

  /** How long a bind code lives, in minutes. */
  const LIFETIME := 10

  datatype Row<K, D> = Row(owner: string, key: K, data: D)

  type Table<K, D> = map<nat, Row<K, D>>

  /** A command policy's key; the unique index reads a missing channel as "". */
  datatype PolicyKey = PolicyKey(channel: Option<string>, command: string)

  datatype Chunk = Chunk(item: nat, owner: string, index: nat, text: string)

  // ------------------------------------------------------------- one table's merge

  function KeysOf<K(==), D>(t: Table<K, D>, owner: string): set<K> {
    set id | id in t && t[id].owner == owner :: t[id].key
  }

  function Owned<K, D>(t: Table<K, D>, owner: string): set<nat> {
    set id | id in t && t[id].owner == owner
  }

  /** The source rows whose key the target lacks. */
  function Moving<K(==), D>(t: Table<K, D>, source: string, target: string): set<nat> {
    set id | id in t && t[id].owner == source && t[id].key !in KeysOf(t, target)
  }

  /** The table when the source rows in done have been handled: a row whose key the target
      has is deleted, any other becomes the target's. */
  function MergedUpTo<K(==), D>(t: Table<K, D>, done: set<nat>, source: string, target: string): Table<K, D> {
    map id | id in t && !(id in done && t[id].key in KeysOf(t, target)) ::
      if id in done then t[id].(owner := target) else t[id]
  }

  function Merged<K(==), D>(t: Table<K, D>, source: string, target: string): Table<K, D> {
    MergedUpTo(t, Owned(t, source), source, target)
  }

  lemma HandleOne<K, D>(t: Table<K, D>, done: set<nat>, id: nat, source: string, target: string)
    requires id in Owned(t, source) && id !in done
    ensures if t[id].key in KeysOf(t, target) then
              && MergedUpTo(t, done + {id}, source, target) == MergedUpTo(t, done, source, target) - {id}
              && |Moving(t, source, target) * (done + {id})| == |Moving(t, source, target) * done|
            else
              && MergedUpTo(t, done + {id}, source, target)
              == MergedUpTo(t, done, source, target)[id := t[id].(owner := target)]
              && |Moving(t, source, target) * (done + {id})| == |Moving(t, source, target) * done| + 1
  {
    var moving := Moving(t, source, target);
    if id in moving {
      assert moving * (done + {id}) == moving * done + {id};
    } else {
      assert moving * (done + {id}) == moving * done;
    }
  }

  /** One turn of the loop, for the source row id after those in done. */
  method HandleRow<K(==), D>(r: Table<K, D>, moved: nat, id: nat, target: string, targetKeys: set<K>,
                             ghost t: Table<K, D>, ghost done: set<nat>, ghost source: string)
    returns (r': Table<K, D>, moved': nat)
    requires id in Owned(t, source) && id !in done && targetKeys == KeysOf(t, target)
    requires id in r && r[id] == t[id] && r == MergedUpTo(t, done, source, target)
    requires moved == |Moving(t, source, target) * done|
    ensures r' == MergedUpTo(t, done + {id}, source, target)
    ensures moved' == |Moving(t, source, target) * (done + {id})|
  {
    HandleOne(t, done, id, source, target);
    if r[id].key in targetKeys {
      r', moved' := r - {id}, moved;
    } else {
      r', moved' := r[id := r[id].(owner := target)], moved + 1;
    }
  }

  method MergeOwned<K(==), D>(t: Table<K, D>, source: string, target: string) returns (r: Table<K, D>, moved: nat)
    ensures r == Merged(t, source, target)
    ensures moved == |Moving(t, source, target)|
  {
    var targetKeys := KeysOf(t, target);
    var todo := Owned(t, source);
    ghost var done: set<nat> := {};
    r, moved := t, 0;
    while todo != {}
      invariant done + todo == Owned(t, source) && done !! todo
      invariant r == MergedUpTo(t, done, source, target)
      invariant moved == |Moving(t, source, target) * done|
      decreases todo
    {
      var id :| id in todo;
      r, moved := HandleRow(r, moved, id, target, targetKeys, t, done, source);
      done, todo := done + {id}, todo - {id};
    }
    assert done == Owned(t, source);
    assert Moving(t, source, target) * done == Moving(t, source, target);
  }

  /** At most one row per owner and key, keys read through norm. */
  ghost predicate Unique<K, D, N>(t: Table<K, D>, norm: K -> N) {
    forall i, j :: i in t && j in t && t[i].owner == t[j].owner && norm(t[i].key) == norm(t[j].key) ==> i == j
  }

  /** Nobody but the target gains rows and nobody but the source loses any; the target ends
      with its old rows and the source rows whose key it lacked. */
  lemma MergeIsUnion<K, D>(t: Table<K, D>, source: string, target: string)
    requires source != target
    ensures var r := Merged(t, source, target);
            && Owned(r, target) == Owned(t, target) + Moving(t, source, target)
            && Owned(r, source) == {}
            && KeysOf(r, target) == KeysOf(t, target) + KeysOf(t, source)
            && (forall id :: id in r ==> id in t && r[id].key == t[id].key && r[id].data == t[id].data)
            && (forall id :: id in t && t[id].owner != source ==> id in r && r[id] == t[id])
  {
    var r := Merged(t, source, target);
    forall k | k in KeysOf(t, target) + KeysOf(t, source)
      ensures k in KeysOf(r, target)
    {
      if k in KeysOf(t, target) {
        var id :| id in t && t[id].owner == target && t[id].key == k;
        assert id in r && r[id] == t[id];
      } else {
        var id :| id in t && t[id].owner == source && t[id].key == k;
        assert id in r && r[id].owner == target && r[id].key == k;
      }
    }
    forall k | k in KeysOf(r, target)
      ensures k in KeysOf(t, target) + KeysOf(t, source)
    {
      var id :| id in r && r[id].owner == target && r[id].key == k;
      assert id in t && t[id].key == k && t[id].owner in {source, target};
    }
  }

  /** A source row and a target row the index takes for the same, but the merge does not. */
  ghost predicate Clash<K, D, N>(t: Table<K, D>, norm: K -> N, source: string, target: string) {
    exists i, j ::
      && i in t && j in t && t[i].owner == source && t[j].owner == target
      && norm(t[i].key) == norm(t[j].key) && t[i].key !in KeysOf(t, target)
  }

  /** The merge keeps the keys unique exactly when no source row clashes with a target row. */
  lemma MergeKeepsUnique<K, D, N>(t: Table<K, D>, norm: K -> N, source: string, target: string)
    requires source != target && Unique(t, norm)
    ensures Unique(Merged(t, source, target), norm) <==> !Clash(t, norm, source, target)
  {
    var r := Merged(t, source, target);
    if Clash(t, norm, source, target) {
      var i, j :|
        && i in t && j in t && t[i].owner == source && t[j].owner == target
        && norm(t[i].key) == norm(t[j].key) && t[i].key !in KeysOf(t, target);
      assert i in r && j in r && r[i].owner == r[j].owner && i != j;
    }
  }

  lemma {:induction false} CountByKey<K, D>(t: Table<K, D>, ids: set<nat>, owner: string)
    requires Unique(t, (k: K) => k) && ids <= Owned(t, owner)
    ensures |set id | id in ids :: t[id].key| == |ids|
    decreases ids
  {
    if ids != {} {
      var id :| id in ids;
      var rest := ids - {id};
      CountByKey(t, rest, owner);
      var keys := set i | i in rest :: t[i].key;
      assert t[id].key !in keys;
      assert (set i | i in ids :: t[i].key) == keys + {t[id].key};
    }
  }

  /** With unique keys, the rows moved are the previewed keys minus the previewed conflicts. */
  lemma MovedIsPreviewed<K, D>(t: Table<K, D>, source: string, target: string)
    requires Unique(t, (k: K) => k)
    ensures |Moving(t, source, target)| == |KeysOf(t, source)| - |KeysOf(t, source) * KeysOf(t, target)|
  {
    var lacking := KeysOf(t, source) - KeysOf(t, target);
    CountByKey(t, Moving(t, source, target), source);
    assert (set id | id in Moving(t, source, target) :: t[id].key) == lacking;
    assert KeysOf(t, source) == lacking + KeysOf(t, source) * KeysOf(t, target);
  }

  ghost predicate TargetHas<K, D>(t: Table<K, D>, target: string, key: K) {
    exists id :: id in t && t[id].owner == target && t[id].key == key
  }

  /** Where the rows of a table go: the source's rows whose key the target lacks become the
      target's, its other rows are gone, and everything else is as it was. */
  ghost predicate Moves<K, D>(before: Table<K, D>, after: Table<K, D>, source: string, target: string) {
    && (forall id :: id in after ==> id in before)
    && (forall id :: id in before ==>
          if before[id].owner != source then id in after && after[id] == before[id]
          else if TargetHas(before, target, before[id].key) then id !in after
          else id in after && after[id] == Row(target, before[id].key, before[id].data))
  }

  lemma MergedMoves<K, D>(t: Table<K, D>, source: string, target: string)
    ensures Moves(t, Merged(t, source, target), source, target)
  {
    forall key ensures TargetHas(t, target, key) <==> key in KeysOf(t, target) {
    }
  }

  // ------------------------------------------------------------- knowledge and chunks

  /** Every chunk belongs to an existing item and to that item's owner. */
  predicate ChunksFollow<D>(items: Table<string, D>, chunks: map<nat, Chunk>) {
    forall c :: c in chunks ==> chunks[c].item in items && chunks[c].owner == items[chunks[c].item].owner
  }

  /** The chunks when the items in done have been handled: those of a deleted item are
      gone with it, those of a moved item follow it. */
  function ChunksUpTo<D>(items: Table<string, D>, chunks: map<nat, Chunk>, done: set<nat>,
                         source: string, target: string): map<nat, Chunk> {
    map c | c in chunks && !(chunks[c].item in done * Owned(items, source) - Moving(items, source, target)) ::
      if chunks[c].item in done * Moving(items, source, target) then chunks[c].(owner := target) else chunks[c]
  }

  function MergedChunks<D>(items: Table<string, D>, chunks: map<nat, Chunk>,
                           source: string, target: string): map<nat, Chunk> {
    ChunksUpTo(items, chunks, Owned(items, source), source, target)
  }

  function WithoutItem(chunks: map<nat, Chunk>, item: nat): map<nat, Chunk> {
    map c | c in chunks && chunks[c].item != item :: chunks[c]
  }

  function WithItemOwner(chunks: map<nat, Chunk>, item: nat, owner: string): map<nat, Chunk> {
    map c | c in chunks :: if chunks[c].item == item then chunks[c].(owner := owner) else chunks[c]
  }

  lemma HandleChunks<D>(items: Table<string, D>, chunks: map<nat, Chunk>, done: set<nat>, id: nat,
                        source: string, target: string)
    requires id in Owned(items, source) && id !in done
    ensures var before := ChunksUpTo(items, chunks, done, source, target);
            ChunksUpTo(items, chunks, done + {id}, source, target) ==
            if items[id].key in KeysOf(items, target) then WithoutItem(before, id)
            else WithItemOwner(before, id, target)
  {
  }

  lemma NothingHandled<D>(items: Table<string, D>, chunks: map<nat, Chunk>, source: string, target: string)
    ensures MergedUpTo(items, {}, source, target) == items
    ensures ChunksUpTo(items, chunks, {}, source, target) == chunks
  {
  }

  method MergeKnowledge<D>(items: Table<string, D>, chunks: map<nat, Chunk>, source: string, target: string)
    returns (newItems: Table<string, D>, newChunks: map<nat, Chunk>)
    ensures newItems == Merged(items, source, target)
    ensures newChunks == MergedChunks(items, chunks, source, target)
  {
    var targetTitles := KeysOf(items, target);
    var todo := Owned(items, source);
    ghost var done: set<nat> := {};
    newItems, newChunks := items, chunks;
    NothingHandled(items, chunks, source, target);
    while todo != {}
      invariant done + todo == Owned(items, source) && done !! todo
      invariant newItems == MergedUpTo(items, done, source, target)
      invariant newChunks == ChunksUpTo(items, chunks, done, source, target)
      decreases todo
    {
      var id :| id in todo;
      HandleOne(items, done, id, source, target);
      HandleChunks(items, chunks, done, id, source, target);
      if items[id].key in targetTitles {
        newItems := newItems - {id};
        newChunks := WithoutItem(newChunks, id);
      } else {
        newItems := newItems[id := items[id].(owner := target)];
        newChunks := WithItemOwner(newChunks, id, target);
      }
      done := done + {id};
      todo := todo - {id};
    }
    assert done == Owned(items, source);
  }

  /** Chunks move with their item and are deleted with it, never otherwise. */
  lemma ChunksStillFollow<D>(items: Table<string, D>, chunks: map<nat, Chunk>, source: string, target: string)
    requires source != target && ChunksFollow(items, chunks)
    ensures var r := MergedChunks(items, chunks, source, target);
            && ChunksFollow(Merged(items, source, target), r)
            && (forall c :: c in r <==> c in chunks && chunks[c].item in Merged(items, source, target))
            && (forall c :: c in r ==> r[c] == chunks[c].(owner := r[c].owner))
  {
  }

  // ------------------------------------------------------------------- the database

  function Coalesced(k: PolicyKey): (string, string) {
    (if k.channel == None then "" else k.channel.value, k.command)
  }

  function OfUser(owners: map<nat, string>, user: string): set<nat> {
    set id | id in owners && owners[id] == user
  }

  function Reassigned(owners: map<nat, string>, source: string, target: string): map<nat, string> {
    map id | id in owners :: if owners[id] == source then target else owners[id]
  }

  /** What an owner column becomes: the source's entries are the target's, the others stay. */
  ghost predicate TakenOver(before: map<nat, string>, after: map<nat, string>, source: string, target: string) {
    && after.Keys == before.Keys
    && forall id :: id in before ==> after[id] == if before[id] == source then target else before[id]
  }

  function Changed(before: map<nat, string>, after: map<nat, string>): set<nat> {
    set id | id in before && id in after && after[id] != before[id]
  }

  /** The column when the entries in done have been reassigned. */
  function Taking(owners: map<nat, string>, done: set<nat>, target: string): map<nat, string> {
    map id | id in owners :: if id in done then target else owners[id]
  }

  lemma TakeOne(owners: map<nat, string>, done: set<nat>, id: nat, target: string)
    requires id in owners && id !in done
    ensures Taking(owners, done, target)[id := target] == Taking(owners, done + {id}, target)
  {
  }

  lemma TakenAll(owners: map<nat, string>, source: string, target: string)
    requires source != target
    ensures var r := Taking(owners, OfUser(owners, source), target);
            && TakenOver(owners, r, source, target) && r == Reassigned(owners, source, target)
            && Changed(owners, r) == OfUser(owners, source)
  {
  }

  /** for identity in ...: identity.user_id = target, counting */
  method TakeOver(owners: map<nat, string>, source: string, target: string)
    returns (r: map<nat, string>, count: nat)
    requires source != target
    ensures TakenOver(owners, r, source, target) && count == |Changed(owners, r)| == |OfUser(owners, source)|
    ensures r == Reassigned(owners, source, target)
  {
    r, count := owners, 0;
    var todo := OfUser(owners, source);
    ghost var done: set<nat> := {};
    assert Taking(owners, {}, target) == owners;
    while todo != {}
      invariant done + todo == OfUser(owners, source) && done !! todo
      invariant r == Taking(owners, done, target) && count == |done|
      decreases todo
    {
      var id :| id in todo;
      TakeOne(owners, done, id, target);
      r, count := r[id := target], count + 1;
      done, todo := done + {id}, todo - {id};
    }
    assert done == OfUser(owners, source);
    TakenAll(owners, source, target);
  }

  datatype Code = Code(user: string, expires: int)

  datatype Stats = Stats(identities: nat, messages: nat, cards: nat, presets: nat)

  datatype Preview = Preview(cards: set<string>, presets: set<string>, knowledge: set<string>,
                             cardConflicts: set<string>, presetConflicts: set<string>, knowledgeConflicts: set<string>)

  datatype Outcome =
    | NotFound
    | Expired
    | OwnCode
    | Refused
    | Success(stats: Stats, preview: Preview)

  /** The tables a merge touches; identities and messages are given by their owners. */
  datatype Tables = Tables(
    users: set<string>,
    identities: map<nat, string>,
    messages: map<nat, string>,
    cards: Table<string, string>,
    presets: Table<string, string>,
    policies: Table<PolicyKey, string>,
    overrides: Table<string, string>,
    knowledge: Table<string, string>,
    chunks: map<nat, Chunk>)

  /** The unique constraints, and chunks that belong to their item's owner. */
  ghost predicate Sound(db: Tables) {
    && Unique(db.presets, (k: string) => k) && Unique(db.overrides, (k: string) => k)
    && Unique(db.knowledge, (k: string) => k) && Unique(db.policies, (k: PolicyKey) => Coalesced(k))
    && ChunksFollow(db.knowledge, db.chunks)
  }

  function MergedTables(db: Tables, source: string, target: string): Tables {
    Tables(
      db.users - {source},
      Reassigned(db.identities, source, target),
      Reassigned(db.messages, source, target),
      Merged(db.cards, source, target),
      Merged(db.presets, source, target),
      Merged(db.policies, source, target),
      Merged(db.overrides, source, target),
      Merged(db.knowledge, source, target),
      MergedChunks(db.knowledge, db.chunks, source, target))
  }

  /** What a merge makes of the whole database, table by table. */
  ghost predicate MergedInto(before: Tables, after: Tables, source: string, target: string) {
    && after.users == before.users - {source}
    && TakenOver(before.identities, after.identities, source, target)
    && TakenOver(before.messages, after.messages, source, target)
    && Moves(before.cards, after.cards, source, target)
    && Moves(before.presets, after.presets, source, target)
    && Moves(before.policies, after.policies, source, target)
    && Moves(before.overrides, after.overrides, source, target)
    && Moves(before.knowledge, after.knowledge, source, target)
    && (forall c :: c in after.chunks <==> c in before.chunks && before.chunks[c].item in after.knowledge)
    && (forall c :: c in after.chunks ==>
          after.chunks[c] == before.chunks[c].(owner := after.knowledge[before.chunks[c].item].owner))
  }

  lemma MergedTablesAre(db: Tables, source: string, target: string)
    requires source != target && ChunksFollow(db.knowledge, db.chunks)
    ensures MergedInto(db, MergedTables(db, source, target), source, target)
  {
    MergedMoves(db.cards, source, target);
    MergedMoves(db.presets, source, target);
    MergedMoves(db.policies, source, target);
    MergedMoves(db.overrides, source, target);
    MergedMoves(db.knowledge, source, target);
    ChunksStillFollow(db.knowledge, db.chunks, source, target);
  }

  /** The counts a merge reports are of the rows it moved. */
  ghost predicate Counted(stats: Stats, before: Tables, after: Tables, source: string) {
    && stats.identities == |Changed(before.identities, after.identities)|
    && stats.messages == |Changed(before.messages, after.messages)|
    && stats.cards == |set id | id in before.cards && before.cards[id].owner == source && id in after.cards|
    && stats.presets == |set id | id in before.presets && before.presets[id].owner == source && id in after.presets|
  }

  /** The database accepts the merged tables exactly when no source policy and target
      policy for one command differ only in a missing and an empty channel. */
  lemma MergeIsSound(db: Tables, source: string, target: string)
    requires Sound(db) && source != target
    ensures Sound(MergedTables(db, source, target))
       <==> !Clash(db.policies, (k: PolicyKey) => Coalesced(k), source, target)
  {
    MergeKeepsUnique(db.presets, (k: string) => k, source, target);
    MergeKeepsUnique(db.overrides, (k: string) => k, source, target);
    MergeKeepsUnique(db.knowledge, (k: string) => k, source, target);
    MergeKeepsUnique(db.policies, (k: PolicyKey) => Coalesced(k), source, target);
    ChunksStillFollow(db.knowledge, db.chunks, source, target);
  }

  lemma ChannelsCanClash(source: string, target: string)
    requires source != target
    ensures var t: Table<PolicyKey, string> := map[
              1 := Row(source, PolicyKey(None, "chat"), "off"), 2 := Row(target, PolicyKey(Some(""), "chat"), "on")];
            Unique(t, (k: PolicyKey) => Coalesced(k)) && Clash(t, (k: PolicyKey) => Coalesced(k), source, target)
  {
    var t: Table<PolicyKey, string> := map[
      1 := Row(source, PolicyKey(None, "chat"), "off"), 2 := Row(target, PolicyKey(Some(""), "chat"), "on")];
    assert 1 in t && 2 in t && t[1].owner == source && t[2].owner == target;
    assert KeysOf(t, target) == {PolicyKey(Some(""), "chat")};
  }

  function PreviewOf(db: Tables, source: string, target: string): Preview {
    Preview(KeysOf(db.cards, source), KeysOf(db.presets, source), KeysOf(db.knowledge, source),
            KeysOf(db.cards, source) * KeysOf(db.cards, target),
            KeysOf(db.presets, source) * KeysOf(db.presets, target),
            KeysOf(db.knowledge, source) * KeysOf(db.knowledge, target))
  }

  predicate IndexRefuses(t: Table<PolicyKey, string>)
    ensures IndexRefuses(t) <==> !Unique(t, (k: PolicyKey) => Coalesced(k))
  {
    exists i, j :: i in t && j in t && i != j && t[i].owner == t[j].owner && Coalesced(t[i].key) == Coalesced(t[j].key)
  }

  // What ON DELETE CASCADE removes with a user.

  function Without<K, D>(t: Table<K, D>, owner: string): Table<K, D> {
    map id | id in t && t[id].owner != owner :: t[id]
  }

  function ChunksWithout<D>(items: Table<string, D>, chunks: map<nat, Chunk>, owner: string): map<nat, Chunk> {
    map c | c in chunks && chunks[c].owner != owner
         && (chunks[c].item in items ==> items[chunks[c].item].owner != owner) :: chunks[c]
  }

  function Dropped(db: Tables, user: string): Tables {
    db.(users := db.users - {user}, cards := Without(db.cards, user), presets := Without(db.presets, user),
        policies := Without(db.policies, user), knowledge := Without(db.knowledge, user),
        chunks := ChunksWithout(db.knowledge, db.chunks, user))
  }

  lemma NothingLeftBehind<K, D>(t: Table<K, D>, source: string, target: string)
    requires source != target
    ensures Without(Merged(t, source, target), source) == Merged(t, source, target)
  {
  }

  /** Deleting the source user cascades to none of the merged rows. */
  lemma DropIsHarmless(db: Tables, source: string, target: string)
    requires source != target && ChunksFollow(db.knowledge, db.chunks)
    ensures var r := MergedTables(db, source, target);
            && Dropped(r.(users := db.users), source) == r
  {
    NothingLeftBehind(db.cards, source, target);
    NothingLeftBehind(db.presets, source, target);
    NothingLeftBehind(db.policies, source, target);
    NothingLeftBehind(db.knowledge, source, target);
    ChunksStillFollow(db.knowledge, db.chunks, source, target);
    var r := MergedTables(db, source, target);
    assert ChunksWithout(r.knowledge, r.chunks, source) == r.chunks by {
      MergeIsUnion(db.knowledge, source, target);
      assert Owned(r.knowledge, source) == {};
    }
  }

  lemma CountsAre(db: Tables, stats: Stats, source: string, target: string)
    requires source != target
    requires stats.identities == |OfUser(db.identities, source)| && stats.messages == |OfUser(db.messages, source)|
    requires stats.cards == |Moving(db.cards, source, target)| && stats.presets == |Moving(db.presets, source, target)|
    ensures Counted(stats, db, MergedTables(db, source, target), source)
  {
    var r := MergedTables(db, source, target);
    assert Changed(db.identities, r.identities) == OfUser(db.identities, source);
    assert Changed(db.messages, r.messages) == OfUser(db.messages, source);
    assert (set id | id in db.cards && db.cards[id].owner == source && id in r.cards)
        == Moving(db.cards, source, target);
    assert (set id | id in db.presets && db.presets[id].owner == source && id in r.presets)
        == Moving(db.presets, source, target);
  }

  /** Table after table, up to the deletion of the source user. */
  method MergeRows(db: Tables, source: string, target: string) returns (r: Tables, stats: Stats)
    requires source != target
    ensures r == MergedTables(db, source, target).(users := db.users)
    ensures stats.identities == |OfUser(db.identities, source)| && stats.messages == |OfUser(db.messages, source)|
    ensures stats.cards == |Moving(db.cards, source, target)| && stats.presets == |Moving(db.presets, source, target)|
  {
    var identities, identityCount := TakeOver(db.identities, source, target);
    var messageCount := |OfUser(db.messages, source)|;
    var messages := map id | id in db.messages :: if db.messages[id] == source then target else db.messages[id];
    var cards, cardCount := MergeOwned(db.cards, source, target);
    var presets, presetCount := MergeOwned(db.presets, source, target);
    var policies, _ := MergeOwned(db.policies, source, target);
    var overrides, _ := MergeOwned(db.overrides, source, target);
    var knowledge, chunks := MergeKnowledge(db.knowledge, db.chunks, source, target);
    r := Tables(db.users, identities, messages, cards, presets, policies, overrides, knowledge, chunks);
    stats := Stats(identityCount, messageCount, cardCount, presetCount);
  }

  class Database {
    var tables: Tables
    var codes: map<string, Code>

    /** The tables are sound and each user has at most one bind code. */
    ghost predicate Valid()
      reads this
    {
      && Sound(tables)
      && forall c, d :: c in codes && d in codes && codes[c].user == codes[d].user ==> c == d
    }

    /** _merge_into. None when the database refuses the merged rows and the transaction is
        rolled back. */
    method MergeInto(source: string, target: string) returns (stats: Option<Stats>)
      requires Sound(tables) && source != target
      modifies this`tables
      ensures Sound(tables)
      ensures stats == None <==> Clash(old(tables).policies, (k: PolicyKey) => Coalesced(k), source, target)
      ensures tables == if stats == None then old(tables) else MergedTables(old(tables), source, target)
      ensures stats.Some? ==> MergedInto(old(tables), tables, source, target)
      ensures stats.Some? ==> Counted(stats.value, old(tables), tables, source)
      ensures stats.Some? ==>
        var preview := PreviewOf(old(tables), source, target);
        && stats.value.identities == |OfUser(old(tables).identities, source)|
        && stats.value.messages == |OfUser(old(tables).messages, source)|
        && stats.value.cards == |Moving(old(tables).cards, source, target)|
        && stats.value.presets == |preview.presets| - |preview.presetConflicts|
    {
      ghost var before := tables;
      var merged, counts := MergeRows(tables, source, target);
      MergeKeepsUnique(before.policies, (k: PolicyKey) => Coalesced(k), source, target);
      if IndexRefuses(merged.policies) {
        return None;
      }
      DropIsHarmless(before, source, target);
      MergeIsSound(before, source, target);
      tables := Dropped(merged, source);
      MergedTablesAre(before, source, target);
      CountsAre(before, counts, source, target);
      MovedIsPreviewed(before.presets, source, target);
      return Some(counts);
    }

    /** create_bind_code: the user's older code goes; code is the first token drawn that is
        not in use. */
    method CreateBindCode(user: string, code: string, now: int)
      requires Valid() && (code in codes ==> codes[code].user == user)
      modifies this`codes
      ensures Valid() && tables == old(tables)
      ensures code in codes && codes[code] == Code(user, now + LIFETIME)
      ensures forall c :: c in codes && c != code <==> c in old(codes) && old(codes)[c].user != user
      ensures forall c :: c in codes && c != code ==> codes[c] == old(codes)[c]
    {
      codes := map c | c in codes && codes[c].user != user :: codes[c];
      codes := codes[code := Code(user, now + LIFETIME)];
    }

    /** merge_by_code, for the user who is logged in. A code serves once and never after it
        has expired. */
    method MergeByCode(code: string, target: string, now: int) returns (r: Outcome)
      requires Valid()
      modifies this
      ensures Valid()
      ensures
        var c := Strip(code, WHITESPACE);
        var source := if c in old(codes) then old(codes)[c].user else "";
        match r
        case NotFound => c !in old(codes) && tables == old(tables) && codes == old(codes)
        case Expired =>
          && c in old(codes) && old(codes)[c].expires < now
          && tables == old(tables) && codes == old(codes) - {c}
        case OwnCode =>
          && c in old(codes) && old(codes)[c].expires >= now
          && source == target && tables == old(tables) && codes == old(codes)
        case Refused =>
          && c in old(codes) && old(codes)[c].expires >= now
          && source != target && tables == old(tables) && codes == old(codes)
          && Clash(old(tables).policies, (k: PolicyKey) => Coalesced(k), source, target)
        case Success(stats, preview) =>
          && c in old(codes) && old(codes)[c].expires >= now && source != target
          && tables == MergedTables(old(tables), source, target) && codes == old(codes) - {c}
          && MergedInto(old(tables), tables, source, target) && Counted(stats, old(tables), tables, source)
          && preview == PreviewOf(old(tables), source, target)
          && preview.cards == KeysOf(old(tables).cards, source)
          && preview.presets == KeysOf(old(tables).presets, source)
          && preview.knowledge == KeysOf(old(tables).knowledge, source)
          && preview.cardConflicts == preview.cards * KeysOf(old(tables).cards, target)
          && preview.presetConflicts == preview.presets * KeysOf(old(tables).presets, target)
          && preview.knowledgeConflicts == preview.knowledge * KeysOf(old(tables).knowledge, target)
          && stats.presets == |preview.presets| - |preview.presetConflicts|
    {
      var c := Strip(code, WHITESPACE);
      if c !in codes {
        return NotFound;
      }
      var row := codes[c];
      if row.expires < now {
        codes := codes - {c};
        return Expired;
      }
      if row.user == target {
        return OwnCode;
      }
      var preview := PreviewOf(tables, row.user, target);
      var stats := MergeInto(row.user, target);
      if stats == None {
        return Refused;
      }
      codes := codes - {c};
      return Success(stats.value, preview);
    }
  }
}
