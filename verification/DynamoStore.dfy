/**
 * The DynamoDB metadata store (ctf-registry/store/dynamostore/dynamo.go): composite keys, tag paging, and
 * the operations run alone (ReferrerRaces has overlapping updates of a referrer list).
 */
module DynamoStore {
  import opened Common
  import opened ByteOrder
  import opened MetaStore
  import Bolt = BoltStore

  function Pk(repo: Repo): string { "REPO#" + repo }

  /** The page of a sorted tag list after `last`: an unknown or final `last` starts it over. */
  function Page(tags: seq<string>, limit: int, last: string): seq<string> {
    var i := Bolt.IndexOf(tags, last);
    var rest := if last != "" && i < |tags| - 1 then tags[i + 1..] else tags;
    if limit > 0 && |rest| > limit then rest[..limit] else rest
  }

  // An item's partition and sort key.
  type ItemKey = (string, string)

  /** Every item of a table carries a repository's partition key and a sort key of the table's kind. */
  ghost predicate Keyed<V>(items: map<ItemKey, V>, kind: string) {
    forall k | k in items :: exists repo, name :: k == (Pk(repo), kind + name)
  }

  /** The nested map a table stands for. */
  ghost function Nested<V>(items: map<ItemKey, V>, kind: string): map<(string, string), V>
    requires Keyed(items, kind)
  {
    NestedTotal(items, kind);
    map p | p in (set k | k in items :: Name(k, kind)) :: items[(Pk(p.0), kind + p.1)]
  }

  // What a key's parts are without their prefixes.
  function Name(k: ItemKey, kind: string): (string, string) {
    (if |k.0| >= 5 then k.0[5..] else "", if |k.1| >= |kind| then k.1[|kind|..] else "")
  }

  lemma NameOfKey(repo: Repo, kind: string, name: string)
    ensures Name((Pk(repo), kind + name), kind) == (repo, name)
  {
    assert Pk(repo)[5..] == repo && (kind + name)[|kind|..] == name;
  }

  lemma NestedTotal<V>(items: map<ItemKey, V>, kind: string)
    requires Keyed(items, kind)
    ensures forall k | k in items :: (Pk(Name(k, kind).0), kind + Name(k, kind).1) == k
  {
    forall k | k in items ensures (Pk(Name(k, kind).0), kind + Name(k, kind).1) == k {
      var repo, name :| k == (Pk(repo), kind + name);
      NameOfKey(repo, kind, name);
    }
  }

  /** Composite keys read back unambiguously, whatever the names are. */
  lemma NestedAt<V>(items: map<ItemKey, V>, kind: string, repo: Repo, name: string)
    requires Keyed(items, kind)
    ensures (repo, name) in Nested(items, kind) <==> (Pk(repo), kind + name) in items
    ensures (repo, name) in Nested(items, kind) ==> Nested(items, kind)[(repo, name)] == items[(Pk(repo), kind + name)]
  {
    var key := (Pk(repo), kind + name);
    NameOfKey(repo, kind, name);
    NestedTotal(items, kind);
    if key in items {
      assert Name(key, kind) == (repo, name);
    }
  }

  lemma PutAt<V>(items: map<ItemKey, V>, kind: string, repo: Repo, name: string, v: V, p: (string, string))
    requires Keyed(items, kind) && Keyed(items[(Pk(repo), kind + name) := v], kind)
    ensures var after := Nested(items[(Pk(repo), kind + name) := v], kind);
            && (p in after <==> p == (repo, name) || p in Nested(items, kind))
            && (p in after ==> after[p] == if p == (repo, name) then v else Nested(items, kind)[p])
  {
    SameKey(p.0, repo, kind, p.1, name);
    NestedAt(items[(Pk(repo), kind + name) := v], kind, p.0, p.1);
    NestedAt(items, kind, p.0, p.1);
  }

  lemma PutKeyed<V>(items: map<ItemKey, V>, kind: string, repo: Repo, name: string, v: V)
    requires Keyed(items, kind)
    ensures Keyed(items[(Pk(repo), kind + name) := v], kind)
  {
  }

  lemma NestedPut<V>(items: map<ItemKey, V>, kind: string, repo: Repo, name: string, v: V)
    requires Keyed(items, kind)
    ensures Keyed(items[(Pk(repo), kind + name) := v], kind)
    ensures Nested(items[(Pk(repo), kind + name) := v], kind) == Nested(items, kind)[(repo, name) := v]
  {
    PutKeyed(items, kind, repo, name, v);
    var after := items[(Pk(repo), kind + name) := v];
    forall p
      ensures p in Nested(after, kind) <==> p == (repo, name) || p in Nested(items, kind)
      ensures p in Nested(after, kind) ==> Nested(after, kind)[p] == if p == (repo, name) then v else Nested(items, kind)[p]
    {
      PutAt(items, kind, repo, name, v, p);
    }
  }

  lemma NestedRemove<V>(items: map<ItemKey, V>, kind: string, repo: Repo, name: string)
    requires Keyed(items, kind)
    ensures Keyed(items - {(Pk(repo), kind + name)}, kind)
    ensures Nested(items - {(Pk(repo), kind + name)}, kind) == Nested(items, kind) - {(repo, name)}
  {
    var after := items - {(Pk(repo), kind + name)};
    forall r, n
      ensures (r, n) in Nested(after, kind) <==> (r, n) in Nested(items, kind) - {(repo, name)}
      ensures (r, n) in Nested(after, kind) ==> Nested(after, kind)[(r, n)] == Nested(items, kind)[(r, n)]
    {
      SameKey(r, repo, kind, n, name);
      NestedAt(after, kind, r, n);
      NestedAt(items, kind, r, n);
    }
  }

  lemma SameKey(r: Repo, repo: Repo, kind: string, n: string, name: string)
    ensures (Pk(r), kind + n) == (Pk(repo), kind + name) <==> (r, n) == (repo, name)
  {
    NameOfKey(r, kind, n);
    NameOfKey(repo, kind, name);
  }

  const TAG := "TAG#"
  const REF := "REF#"
  const BLOB := "BLOB#"

  /** One table a kind of item; each operation is one or two calls on one key, and every call may fail. */
  class Store {
    var tags: map<ItemKey, Digest>
    var references: map<ItemKey, seq<Descriptor>>
    var blobs: map<ItemKey, bool>

    ghost predicate Valid() reads this { Keyed(tags, TAG) && Keyed(references, REF) && Keyed(blobs, BLOB) }

    ghost function View(): Meta
      reads this
      requires Valid()
    {
      Meta(Nested(blobs, BLOB).Keys, Nested(tags, TAG), Nested(references, REF))
    }

    constructor ()
      ensures Valid() && View() == MetaStore.EMPTY
    {
      tags, references, blobs := map[], map[], map[];
    }

    method SaveTag(repo: Repo, d: Digest, tag: string, put: bool) returns (err: Option<StoreError>)
      requires Valid()
      modifies this`tags
      ensures Valid() && err == if put then None else Some(StoreFail)
      ensures View() == if put then MetaStore.SaveTag(old(View()), repo, d, tag) else old(View())
    {
      if !put {
        return Some(StoreFail);
      }
      NestedPut(tags, TAG, repo, tag, d);
      tags := tags[(Pk(repo), TAG + tag) := d];
      err := None;
    }

    method ReadTag(repo: Repo, tag: string, get: bool) returns (d: Option<Digest>, err: Option<StoreError>)
      requires Valid()
      ensures d == if get && (repo, tag) in View().tags then Some(View().tags[(repo, tag)]) else None
      ensures err == if !get then Some(StoreFail) else if d == None then Some(NotFound) else None
    {
      NestedAt(tags, TAG, repo, tag);
      if !get {
        return None, Some(StoreFail);
      }
      var key := (Pk(repo), TAG + tag);
      if key !in tags {
        return None, Some(NotFound);
      }
      return Some(tags[key]), None;
    }

    method DeleteTag(repo: Repo, tag: string, get: bool, delete: bool) returns (err: Option<StoreError>)
      requires Valid()
      modifies this`tags
      ensures Valid()
      ensures err == if !get then Some(StoreFail) else if (repo, tag) !in old(View()).tags then Some(NotFound)
                     else if !delete then Some(StoreFail) else None
      ensures View() == if err == None then MetaStore.DeleteTag(old(View()), repo, tag) else old(View())
    {
      var _, missing := ReadTag(repo, tag, get);
      if missing.Some? || !delete {
        return if missing.Some? then missing else Some(StoreFail);
      }
      NestedRemove(tags, TAG, repo, tag);
      tags := tags - {(Pk(repo), TAG + tag)};
      err := None;
    }

    /** The query, its items stripped of the sort-key prefix and sorted, then the page after `last`. */
    method GetTagList(repo: Repo, limit: int, last: string, query: bool) returns (r: Option<seq<string>>)
      requires Valid()
      ensures r == if query then Some(Page(Sorted(Bolt.TagsOf(View(), repo)), limit, last)) else None
    {
      if !query {
        return None;
      }
      var found := Queried(tags, repo);
      QueryIsTags(tags, repo);
      assert found == Bolt.TagsOf(View(), repo);
      var page := CutPage(Sorted(found), limit, last);
      r := Some(page);
    }

    /** AddReference running alone: the list is read, then put back with one more. */
    method AddReference(repo: Repo, d: Digest, desc: Descriptor, get: bool, put: bool) returns (err: Option<StoreError>)
      requires Valid()
      modifies this`references
      ensures Valid() && err == if get && put then None else Some(StoreFail)
      ensures View() == if get && put then MetaStore.AddReference(old(View()), repo, d, desc) else old(View())
    {
      if !get || !put {
        return Some(StoreFail);
      }
      var key := (Pk(repo), REF + d);
      var existing := if key in references then references[key] else [];
      NestedAt(references, REF, repo, d);
      NestedPut(references, REF, repo, d, existing + [desc]);
      references := references[key := existing + [desc]];
      err := None;
    }

    /** GetReferences: a type asked for keeps exactly the referrers that have it; absent types match nothing. */
    method GetReferences(repo: Repo, d: Digest, artifact: string, get: bool)
      returns (r: seq<Descriptor>, err: Option<StoreError>)
      requires Valid()
      ensures err == if !get then Some(StoreFail) else if (repo, d) !in View().refs then Some(NotFound) else None
      ensures err == None ==>
                var list := View().refs[(repo, d)];
                && (artifact == "" ==> r == list)
                && (artifact != "" ==> r == OfType(list, artifact) && exists at :: Selects(list, artifact, at, r))
    {
      NestedAt(references, REF, repo, d);
      var key := (Pk(repo), REF + d);
      if !get {
        return [], Some(StoreFail);
      }
      if key !in references {
        return [], Some(NotFound);
      }
      var list := references[key];
      if artifact == "" {
        return list, None;
      }
      var filtered: seq<Descriptor> := [];
      for i := 0 to |list|
        invariant filtered == OfType(list[..i], artifact)
      {
        assert list[..i + 1][..i] == list[..i];
        if list[i].artifactType.Some? && list[i].artifactType.value == artifact {
          filtered := filtered + [list[i]];
        }
      }
      assert list[..|list|] == list;
      ghost var at := OfTypeSelects(list, artifact);
      assert Selects(list, artifact, at, filtered);
      return filtered, None;
    }

    // LinkBlob is AddBlob.
    method AddBlob(repo: Repo, d: Digest, put: bool) returns (err: Option<StoreError>)
      requires Valid()
      modifies this`blobs
      ensures Valid() && err == if put then None else Some(StoreFail)
      ensures View() == if put then MetaStore.AddBlob(old(View()), repo, d) else old(View())
    {
      if !put {
        return Some(StoreFail);
      }
      NestedPut(blobs, BLOB, repo, d, true);
      assert Nested(blobs, BLOB)[(repo, d) := true].Keys == Nested(blobs, BLOB).Keys + {(repo, d)};
      blobs := blobs[(Pk(repo), BLOB + d) := true];
      err := None;
    }

    method DeleteBlob(repo: Repo, d: Digest, get: bool, delete: bool) returns (err: Option<StoreError>)
      requires Valid()
      modifies this`blobs
      ensures Valid()
      ensures err == if !get then Some(StoreFail) else if (repo, d) !in old(View()).blobs then Some(NotFound)
                     else if !delete then Some(StoreFail) else None
      ensures View() == if err == None then MetaStore.DeleteBlob(old(View()), repo, d) else old(View())
    {
      if !get {
        return Some(StoreFail);
      }
      NestedAt(blobs, BLOB, repo, d);
      if (Pk(repo), BLOB + d) !in blobs {
        return Some(NotFound);
      }
      if !delete {
        return Some(StoreFail);
      }
      NestedRemove(blobs, BLOB, repo, d);
      blobs := blobs - {(Pk(repo), BLOB + d)};
      err := None;
    }

    method IsExistBlob(repo: Repo, d: Digest, get: bool) returns (found: Option<bool>)
      requires Valid()
      ensures found == if get then Some((repo, d) in View().blobs) else None
    {
      NestedAt(blobs, BLOB, repo, d);
      found := if get then Some((Pk(repo), BLOB + d) in blobs) else None;
    }
  }

  // The tags among the items of a repository's partition whose sort key begins with the tag prefix.
  function Queried(items: map<ItemKey, Digest>, repo: Repo): set<string> {
    set k | k in items && k.0 == Pk(repo) && TAG <= k.1 :: k.1[4..]
  }

  lemma QueryIsTags(items: map<ItemKey, Digest>, repo: Repo)
    requires Keyed(items, TAG)
    ensures forall t :: t in Queried(items, repo) <==> (repo, t) in Nested(items, TAG)
  {
    forall t ensures t in Queried(items, repo) <==> (repo, t) in Nested(items, TAG) {
      NestedAt(items, TAG, repo, t);
      if (Pk(repo), TAG + t) in items {
        assert (TAG + t)[4..] == t && TAG <= TAG + t;
        assert (Pk(repo), TAG + t).1[4..] in Queried(items, repo);
      }
      if t in Queried(items, repo) {
        var k :| k in items && k.0 == Pk(repo) && TAG <= k.1 && k.1[4..] == t;
        assert k.1 == TAG + t;
      }
    }
  }

  method CutPage(list: seq<string>, limit: int, last: string) returns (page: seq<string>)
    ensures page == Page(list, limit, last)
  {
    page := list;
    if last != "" {
      var idx := FindTag(list, last);
      if idx >= 0 && idx < |list| - 1 {
        page := list[idx + 1..];
      }
    }
    if limit > 0 && |page| > limit {
      page := page[..limit];
    }
  }

  /** The search for `last`: its index, or -1. */
  method FindTag(list: seq<string>, last: string) returns (idx: int)
    ensures idx == if last in list then Bolt.IndexOf(list, last) else -1
    ensures last !in list ==> Bolt.IndexOf(list, last) == |list|
    ensures last in list ==> 0 <= idx < |list|
  {
    for i := 0 to |list|
      invariant last !in list[..i]
    {
      if list[i] == last {
        Bolt.IndexIs(list, last, i);
        return i;
      }
    }
    idx := -1;
  }

  /** One request of n tags: what was got so far and the last tag seen, before and after. */
  function Fetch(tags: seq<string>, n: int, x: (seq<string>, string)): (seq<string>, string) {
    var page := Page(tags, n, x.1);
    (x.0 + page, if page == [] then x.1 else page[|page| - 1])
  }

  function Client(tags: seq<string>, n: int): ((seq<string>, string)) -> (seq<string>, string) {
    x => Fetch(tags, n, x)
  }

  /** What a client has after k requests, passing the last tag it saw back every time. */
  function Chain(client: ((seq<string>, string)) -> (seq<string>, string), k: nat): (seq<string>, string) {
    if k == 0 then ([], "") else client(Chain(client, k - 1))
  }

  // How many of N tags k requests of n tags return.
  function Taken(N: nat, n: nat, k: nat): (m: nat)
    ensures m <= N
  {
    if k == 0 then 0 else Bolt.Min(Taken(N, n, k - 1) + n, N)
  }

  lemma {:induction false} TakenIs(N: nat, n: nat, k: nat)
    ensures Taken(N, n, k) == Bolt.Min(k * n, N)
  {
    if k > 0 {
      TakenIs(N, n, k - 1);
      assert k * n == (k - 1) * n + n;
    }
  }

  // The client's state once it has the first m tags.
  function After(tags: seq<string>, m: nat): (seq<string>, string)
    requires m <= |tags|
  {
    (tags[..m], if m == 0 then "" else tags[m - 1])
  }

  lemma FetchNext(tags: seq<string>, n: nat, m: nat)
    requires StrictlySorted(tags) && "" !in tags && n >= 1 && m < |tags|
    ensures Fetch(tags, n, After(tags, m)) == After(tags, Bolt.Min(m + n, |tags|))
  {
    PageAt(tags, n, m);
    PageJoins(tags, n, m, Bolt.Min(m + n, |tags|));
  }

  // A page that is the tags from m to m2 takes the client that far.
  lemma PageJoins(tags: seq<string>, n: nat, m: nat, m2: nat)
    requires m < m2 <= |tags| && Page(tags, n, After(tags, m).1) == tags[m..m2]
    ensures Fetch(tags, n, After(tags, m)) == After(tags, m2)
  {
    var page := tags[m..m2];
    assert tags[..m] + page == tags[..m2] && page[|page| - 1] == tags[m2 - 1];
  }

  lemma {:induction false} ChainPrefix(
      client: ((seq<string>, string)) -> (seq<string>, string), tags: seq<string>, n: nat, k: nat)
    requires forall m: nat | m < |tags| :: client(After(tags, m)) == After(tags, Bolt.Min(m + n, |tags|))
    requires k > 0 ==> Taken(|tags|, n, k - 1) < |tags|
    ensures Chain(client, k) == After(tags, Taken(|tags|, n, k))
  {
    if k > 0 {
      ChainPrefix(client, tags, n, k - 1);
      assert client(After(tags, Taken(|tags|, n, k - 1))) == After(tags, Taken(|tags|, n, k));
    }
  }

  lemma PageAt(tags: seq<string>, n: nat, m: nat)
    requires StrictlySorted(tags) && "" !in tags && n >= 1 && m < |tags|
    ensures Page(tags, n, if m == 0 then "" else tags[m - 1]) == tags[m..Bolt.Min(m + n, |tags|)]
  {
    if m > 0 {
      Bolt.DistinctSorted(tags, m - 1);
      Bolt.IndexIs(tags, tags[m - 1], m - 1);
      assert tags[m - 1] in tags;
    }
  }

  /** Chaining through the first ceil(N/n) pages returns the whole sorted list, no gap and no repeat; asking once
      more after the final tag returns the first page again. No tag is empty: the route would not match. */
  lemma PagingComplete(tags: seq<string>, n: nat)
    requires StrictlySorted(tags) && "" !in tags && n >= 1
    ensures var pages, client := (|tags| + n - 1) / n, Client(tags, n);
            && Chain(client, pages).0 == tags
            && client(Chain(client, pages)).0 == tags + Page(tags, n, "")
  {
    var pages, client := (|tags| + n - 1) / n, Client(tags, n);
    if tags == [] {
      assert pages == 0;
    } else {
      PagesCover(|tags|, n);
      forall m: nat | m < |tags| ensures client(After(tags, m)) == After(tags, Bolt.Min(m + n, |tags|)) {
        FetchNext(tags, n, m);
      }
      ChainPrefix(client, tags, n, pages);
      assert tags[..|tags|] == tags;
      LastRestarts(tags, n);
    }
  }

  lemma LastRestarts(tags: seq<string>, n: nat)
    requires StrictlySorted(tags) && tags != []
    ensures Page(tags, n, tags[|tags| - 1]) == Page(tags, n, "")
  {
    Bolt.DistinctSorted(tags, |tags| - 1);
    Bolt.IndexIs(tags, tags[|tags| - 1], |tags| - 1);
  }

  lemma PagesCover(N: nat, n: nat)
    requires N > 0 && n > 0
    ensures var pages := (N + n - 1) / n;
            pages > 0 && Taken(N, n, pages - 1) < N && Taken(N, n, pages) == N
  {
    var pages := (N + n - 1) / n;
    assert N + n - 1 == pages * n + (N + n - 1) % n;
    assert pages > 0;
    assert (pages - 1) * n == pages * n - n;
    TakenIs(N, n, pages - 1);
    TakenIs(N, n, pages);
  }
}
