/**
 * The Bolt metadata store (ctf-registry/store/boltstore/bbolt.go): flat byte-string keys that stand for the
 * nested maps of MetaStore, and the cursor scan behind the tag list.
 */
module BoltStore {
  import opened Common
  import opened ByteOrder
  import opened MetaStore

  function Key(a: string, sep: char, b: string): string { a + [sep] + b }

  // Where a key splits: at its first separator.
  function Split(k: string, sep: char): (p: (string, string))
    requires sep in k
    ensures Key(p.0, sep, p.1) == k && sep !in p.0
  {
    if k[0] == sep then ("", k[1..])
    else
      var (a, b) := Split(k[1..], sep);
      ([k[0]] + a, b)
  }

  /** Keys of repositories whose names lack the separator read back unambiguously. */
  lemma {:induction false} SplitKey(a: string, sep: char, b: string)
    requires sep !in a
    ensures Split(Key(a, sep, b), sep) == (a, b)
  {
    var k := Key(a, sep, b);
    if a == "" {
      assert k[0] == sep && k[1..] == b;
    } else {
      assert k[0] == a[0] && a[0] in a;
      assert k[1..] == Key(a[1..], sep, b);
      SplitKey(a[1..], sep, b);
      assert [k[0]] + a[1..] == a;
    }
  }

  ghost predicate Keyed<V>(bucket: map<string, V>, sep: char) {
    forall k | k in bucket :: sep in k
  }

  /** The nested map a flat bucket stands for. */
  ghost function Nested<V>(bucket: map<string, V>, sep: char): (m: map<(string, string), V>)
    requires Keyed(bucket, sep)
  {
    map p | p in (set k | k in bucket :: Split(k, sep)) :: bucket[Key(p.0, sep, p.1)]
  }

  lemma NestedAt<V>(bucket: map<string, V>, sep: char, p: (string, string))
    requires Keyed(bucket, sep)
    ensures p in Nested(bucket, sep) <==> sep !in p.0 && Key(p.0, sep, p.1) in bucket
    ensures p in Nested(bucket, sep) ==> Nested(bucket, sep)[p] == bucket[Key(p.0, sep, p.1)]
  {
    var key := Key(p.0, sep, p.1);
    if sep !in p.0 && key in bucket {
      SplitKey(p.0, sep, p.1);
      assert p == Split(key, sep);
    }
  }

  lemma NestedLookup<V>(bucket: map<string, V>, sep: char, a: string, b: string)
    requires Keyed(bucket, sep) && sep !in a
    ensures (a, b) in Nested(bucket, sep) <==> Key(a, sep, b) in bucket
    ensures Key(a, sep, b) in bucket ==> Nested(bucket, sep)[(a, b)] == bucket[Key(a, sep, b)]
  {
    NestedAt(bucket, sep, (a, b));
  }

  lemma NestedPut<V>(bucket: map<string, V>, sep: char, a: string, b: string, v: V)
    requires Keyed(bucket, sep) && sep !in a
    ensures Keyed(bucket[Key(a, sep, b) := v], sep)
    ensures Nested(bucket[Key(a, sep, b) := v], sep) == Nested(bucket, sep)[(a, b) := v]
  {
    var key := Key(a, sep, b);
    var bucket' := bucket[key := v];
    var m, m' := Nested(bucket, sep)[(a, b) := v], Nested(bucket', sep);
    assert sep in key by { assert key[|a|] == sep; }
    forall p ensures p in m' <==> p in m
    {
      PutAt(bucket, sep, a, b, v, p);
    }
    forall p | p in m' ensures m'[p] == m[p] {
      PutAt(bucket, sep, a, b, v, p);
    }
  }

  lemma PutAt<V>(bucket: map<string, V>, sep: char, a: string, b: string, v: V, p: (string, string))
    requires Keyed(bucket, sep) && sep !in a && Keyed(bucket[Key(a, sep, b) := v], sep)
    ensures var m, m' := Nested(bucket, sep)[(a, b) := v], Nested(bucket[Key(a, sep, b) := v], sep);
            (p in m' <==> p in m) && (p in m' ==> m'[p] == m[p])
  {
    NestedAt(bucket[Key(a, sep, b) := v], sep, p);
    NestedAt(bucket, sep, p);
    if Key(p.0, sep, p.1) == Key(a, sep, b) && sep !in p.0 {
      KeysApart(p.0, p.1, a, b, sep);
    }
  }

  lemma NestedRemove<V>(bucket: map<string, V>, sep: char, a: string, b: string)
    requires Keyed(bucket, sep) && sep !in a
    ensures Nested(bucket - {Key(a, sep, b)}, sep) == Nested(bucket, sep) - {(a, b)}
  {
    var m, m' := Nested(bucket, sep) - {(a, b)}, Nested(bucket - {Key(a, sep, b)}, sep);
    forall p ensures p in m' <==> p in m
    {
      RemoveAt(bucket, sep, a, b, p);
    }
    forall p | p in m' ensures m'[p] == m[p] {
      RemoveAt(bucket, sep, a, b, p);
    }
  }

  lemma RemoveAt<V>(bucket: map<string, V>, sep: char, a: string, b: string, p: (string, string))
    requires Keyed(bucket, sep) && sep !in a
    ensures var m, m' := Nested(bucket, sep) - {(a, b)}, Nested(bucket - {Key(a, sep, b)}, sep);
            (p in m' <==> p in m) && (p in m' ==> m'[p] == m[p])
  {
    NestedAt(bucket - {Key(a, sep, b)}, sep, p);
    NestedAt(bucket, sep, p);
    if Key(p.0, sep, p.1) == Key(a, sep, b) && sep !in p.0 {
      KeysApart(p.0, p.1, a, b, sep);
    }
  }

  /** Two keys of the tag bucket coincide for different repositories only if a repository name has the separator. */
  lemma KeysApart(a: string, b: string, a2: string, b2: string, sep: char)
    requires Key(a, sep, b) == Key(a2, sep, b2)
    ensures sep !in a && sep !in a2 ==> a == a2 && b == b2
  {
    if sep !in a && sep !in a2 {
      SplitKey(a, sep, b);
      SplitKey(a2, sep, b2);
    }
  }

  // A cursor over a bucket in byte order.
  function Seek(keys: set<string>, k: string): Option<string> {
    var rest := set x | x in keys && !Less(x, k);
    if rest == {} then None else Some(Least(rest))
  }

  function NextKey(keys: set<string>, k: string): Option<string> {
    var rest := set x | x in keys && Less(k, x);
    if rest == {} then None else Some(Least(rest))
  }

  /** The keys with a given prefix are contiguous: between the prefix and one of them there are no others. */
  lemma {:induction false} PrefixInterval(p: string, k: string, x: string)
    requires p <= x && !Less(k, p) && Less(k, x)
    ensures p <= k
  {
    if p != "" {
      assert k != "" && x[0] == p[0];
      assert k[0] == p[0];
      PrefixInterval(p[1..], k[1..], x[1..]);
      assert k == [k[0]] + k[1..] && p == [p[0]] + p[1..];
    }
  }

  // The elements of a slice between its length and its capacity: append has cleared them.
  function Blanks(n: nat): (r: seq<string>)
    ensures |r| == n && forall i | 0 <= i < n :: r[i] == ""
  {
    seq(n, _ => "")
  }

  /**
   * tags[i+1:] after `last`, then tags[:limit], which may reach as far as the slice's capacity: `spare` is how far
   * that is beyond its length, the same for both slices. None when the limit is out of range.
   */
  function Window(tags: seq<string>, spare: nat, limit: int, last: string): Option<seq<string>> {
    var i := IndexOf(tags, last);
    var rest := if last != "" && i < |tags| - 1 then tags[i + 1..] else tags;
    if limit <= 0 then Some(rest)
    else if limit <= |rest| then Some(rest[..limit])
    else if limit <= |rest| + spare then Some(rest + Blanks(limit - |rest|))
    else None
  }

  function IndexOf(tags: seq<string>, x: string): (i: nat)
    ensures i <= |tags| && x !in tags[..i]
    ensures i < |tags| ==> tags[i] == x
  {
    if tags == [] || tags[0] == x then 0
    else
      var i := IndexOf(tags[1..], x);
      assert tags[..1 + i] == [tags[0]] + tags[1..][..i];
      1 + i
  }

  function TagsOf(m: Meta, repo: Repo): set<string> {
    set p | p in m.tags && p.0 == repo :: p.1
  }

  // The keys of a repository's tags, in the order of the tags.
  function TagKeys(repo: Repo, tags: seq<string>): (r: seq<string>)
    ensures |r| == |tags| && forall i | 0 <= i < |tags| :: r[i] == Key(repo, ':', tags[i])
  {
    if tags == [] then [] else [Key(repo, ':', tags[0])] + TagKeys(repo, tags[1..])
  }

  lemma TagKeysSorted(repo: Repo, tags: seq<string>)
    requires StrictlySorted(tags)
    ensures StrictlySorted(TagKeys(repo, tags))
  {
    var r := TagKeys(repo, tags);
    forall i, j | 0 <= i < j < |r| ensures Less(r[i], r[j]) {
      LessPrefix(repo + [':'], tags[i], tags[j]);
    }
  }

  /** Paging from a key that is not the last: the keys after it, as many as asked for; all of them and empty strings
      if that is more than there are but within the capacity; else out of range. */
  lemma WindowAfter(keys: seq<string>, spare: nat, limit: int, i: nat)
    requires StrictlySorted(keys) && i < |keys| - 1 && keys[i] != ""
    ensures var left := |keys| - 1 - i;
            Window(keys, spare, limit, keys[i])
            == if limit <= 0 then Some(keys[i + 1..])
               else if limit <= left then Some(keys[i + 1..i + 1 + limit])
               else if limit <= left + spare then Some(keys[i + 1..] + Blanks(limit - left))
               else None
  {
    DistinctSorted(keys, i);
    IndexIs(keys, keys[i], i);
    if 0 < limit <= |keys| - 1 - i {
      assert keys[i + 1..][..limit] == keys[i + 1..i + 1 + limit];
    }
  }

  // The keys after a given one, in byte order.
  function Greater(keys: seq<string>, last: string): set<string> { set k | k in keys && Less(last, k) }

  /** How many keys a listing from `last` has: those greater than it if it is a key that has any, else all. */
  function Left(keys: seq<string>, last: string): nat {
    if last in keys && Greater(keys, last) != {} then |Greater(keys, last)| else |keys|
  }

  lemma GreaterCount(keys: seq<string>, i: nat)
    requires StrictlySorted(keys) && i < |keys|
    ensures |Greater(keys, keys[i])| == |keys| - 1 - i
  {
    var greater, rest := Greater(keys, keys[i]), keys[i + 1..];
    forall k ensures k in rest <==> k in greater {
      if k in greater {
        var j :| 0 <= j < |keys| && keys[j] == k;
        LessTotal(keys[i], k);
        assert j > i && rest[j - i - 1] == k;
      }
    }
    SortedUnique(rest, Sorted(greater));
  }

  lemma LeftIs(keys: seq<string>, last: string)
    requires StrictlySorted(keys) && "" !in keys
    ensures var i := IndexOf(keys, last); Left(keys, last) == if i < |keys| - 1 then |keys| - 1 - i else |keys|
  {
    var i := IndexOf(keys, last);
    if i < |keys| {
      GreaterCount(keys, i);
    }
  }

  /** What a listing answers is decided by how many keys are left from `last`: out of range exactly when the limit
      exceeds them and the spare capacity, padded with empty strings exactly when it exceeds them but not both. */
  lemma OutcomeExactly(keys: seq<string>, spare: nat, limit: int, last: string)
    requires StrictlySorted(keys) && "" !in keys
    ensures var page, left := Window(keys, spare, limit, last), Left(keys, last);
            && (page == None <==> limit > left + spare)
            && (page.Some? ==> |page.value| == if limit <= 0 then left else limit)
            && (page.Some? && "" in page.value <==> left < limit <= left + spare)
  {
    LeftIs(keys, last);
    var i := IndexOf(keys, last);
    var rest := if last != "" && i < |keys| - 1 then keys[i + 1..] else keys;
    assert |rest| == Left(keys, last) && "" !in rest;
    if |rest| < limit <= |rest| + spare {
      assert (rest + Blanks(limit - |rest|))[|rest|] == "";
    }
  }

  /** The list starts over exactly when `last` is empty, is not a whole key, or is the final key; or else when the
      limit is out of range even for the whole list. */
  lemma RestartsExactly(keys: seq<string>, spare: nat, limit: int, last: string)
    requires StrictlySorted(keys)
    ensures Window(keys, spare, limit, last) == Window(keys, spare, limit, "")
            <==> last == "" || last !in keys || last == keys[|keys| - 1] || limit > |keys| + spare
  {
    var i := IndexOf(keys, last);
    if last != "" && i < |keys| - 1 {
      DistinctSorted(keys, |keys| - 1);
      assert last in keys && keys[i] in keys[..|keys| - 1];
      WindowAfter(keys, spare, limit, i);
      LessTotal(keys[0], keys[i + 1]);
      Different(Window(keys, spare, limit, last), Window(keys, spare, limit, ""), keys[i + 1], keys[0]);
    }
  }

  // Pages that begin differently are different.
  lemma Different(page: Option<seq<string>>, whole: Option<seq<string>>, a: string, b: string)
    requires a != b && (page.Some? ==> page.value != [] && page.value[0] == a)
    requires whole.Some? ==> whole.value != [] && whole.value[0] == b
    ensures page == whole <==> page == None && whole == None
  {
  }

  /** The list holds whole keys, so a plain tag, which lacks the repository's prefix, is not one of them. */
  lemma PlainLastRestarts(repo: Repo, tags: seq<string>, spare: nat, limit: int, last: string)
    requires StrictlySorted(tags) && !(Key(repo, ':', "") <= last)
    ensures last !in TagKeys(repo, tags)
    ensures Window(TagKeys(repo, tags), spare, limit, last) == Window(TagKeys(repo, tags), spare, limit, "")
  {
    if last in TagKeys(repo, tags) {
      var t := TagOfKey(repo, tags, last);
      KeyPrefix(repo, ':', t);
    }
    TagKeysSorted(repo, tags);
    RestartsExactly(TagKeys(repo, tags), spare, limit, last);
  }

  function Min(a: int, b: int): int { if a < b then a else b }

  lemma DistinctSorted(tags: seq<string>, i: nat)
    requires StrictlySorted(tags) && i < |tags|
    ensures tags[i] !in tags[..i]
  {
    if tags[i] in tags[..i] {
      var j :| 0 <= j < i && tags[j] == tags[i];
      LessTotal(tags[j], tags[i]);
      assert false;
    }
  }

  lemma {:induction false} IndexIs(tags: seq<string>, x: string, i: nat)
    requires i < |tags| && tags[i] == x && x !in tags[..i]
    ensures IndexOf(tags, x) == i
  {
    if i > 0 {
      assert tags[0] == tags[..i][0];
      assert tags[1..][..i - 1] == tags[..i][1..];
      IndexIs(tags[1..], x, i - 1);
    }
  }

  /** What a client has after k requests of n keys, passing the last entry it saw back every time; None once a request
      was out of range. */
  function Pages(keys: seq<string>, spare: nat, n: int, k: nat): Option<seq<string>> {
    if k == 0 then Some([])
    else
      match Pages(keys, spare, n, k - 1)
      case None => None
      case Some(got) => Fetch(keys, spare, n, got)
  }

  // One more request of a client that has got these.
  function Fetch(keys: seq<string>, spare: nat, n: int, got: seq<string>): Option<seq<string>> {
    match Window(keys, spare, n, if got == [] then "" else got[|got| - 1])
    case None => None
    case Some(page) => Some(got + page)
  }

  // The first m keys and the next n, with empty strings for those that are missing, or out of range.
  function Extended(keys: seq<string>, spare: nat, n: nat, m: nat): Option<seq<string>>
    requires m <= |keys|
  {
    if m + n <= |keys| then Some(keys[..m + n])
    else if m + n <= |keys| + spare then Some(keys + Blanks(m + n - |keys|))
    else None
  }

  // The page after the first m keys.
  function NextPage(keys: seq<string>, spare: nat, n: nat, m: nat): Option<seq<string>>
    requires m <= |keys|
  {
    if m + n <= |keys| then Some(keys[m..m + n])
    else if m + n <= |keys| + spare then Some(keys[m..] + Blanks(m + n - |keys|))
    else None
  }

  lemma NextWindow(keys: seq<string>, spare: nat, n: nat, m: nat)
    requires StrictlySorted(keys) && "" !in keys && n >= 1 && m < |keys|
    ensures Window(keys, spare, n, if m == 0 then "" else keys[m - 1]) == NextPage(keys, spare, n, m)
  {
    if m > 0 {
      assert keys[m - 1] in keys;
      WindowAfter(keys, spare, n, m - 1);
    }
  }

  // A client with the first m keys asks from the last of them.
  lemma FetchIs(keys: seq<string>, spare: nat, n: nat, m: nat, page: Option<seq<string>>)
    requires m <= |keys| && Window(keys, spare, n, if m == 0 then "" else keys[m - 1]) == page
    ensures Fetch(keys, spare, n, keys[..m]) == if page.Some? then Some(keys[..m] + page.value) else None
  {
  }

  lemma JoinPages(keys: seq<string>, spare: nat, n: nat, m: nat)
    requires m <= |keys|
    ensures var page := NextPage(keys, spare, n, m);
            Extended(keys, spare, n, m) == if page.Some? then Some(keys[..m] + page.value) else None
  {
    if m + n <= |keys| {
      assert keys[..m] + keys[m..m + n] == keys[..m + n];
    } else if m + n <= |keys| + spare {
      assert keys[..m] + (keys[m..] + Blanks(m + n - |keys|)) == keys + Blanks(m + n - |keys|);
    }
  }

  lemma FetchNext(keys: seq<string>, spare: nat, n: nat, m: nat)
    requires StrictlySorted(keys) && "" !in keys && n >= 1 && m < |keys|
    ensures Fetch(keys, spare, n, keys[..m]) == Extended(keys, spare, n, m)
  {
    NextWindow(keys, spare, n, m);
    FetchIs(keys, spare, n, m, NextPage(keys, spare, n, m));
    JoinPages(keys, spare, n, m);
  }

  // Every request from a full page gets the next n keys.
  ghost predicate PagesFollow(keys: seq<string>, spare: nat, n: nat) {
    forall m: nat | m < |keys| :: Fetch(keys, spare, n, keys[..m]) == Extended(keys, spare, n, m)
  }

  // k * n, one page at a time.
  function Times(k: nat, n: nat): nat { if k == 0 then 0 else Times(k - 1, n) + n }

  lemma {:induction false} TimesIs(k: nat, n: nat)
    ensures Times(k, n) == k * n
  {
    if k > 0 {
      TimesIs(k - 1, n);
      assert k * n == (k - 1) * n + n;
    }
  }

  lemma {:induction false} FullPages(keys: seq<string>, spare: nat, n: nat, k: nat)
    requires PagesFollow(keys, spare, n) && n >= 1 && Times(k, n) <= |keys|
    ensures Pages(keys, spare, n, k) == Some(keys[..Times(k, n)])
  {
    if k > 0 {
      var m := Times(k - 1, n);
      FullPages(keys, spare, n, k - 1);
      assert Fetch(keys, spare, n, keys[..m]) == Extended(keys, spare, n, m);
    }
  }

  lemma ShortPage(keys: seq<string>, spare: nat, n: nat, q: nat, r: nat)
    requires PagesFollow(keys, spare, n) && 0 < r < n && r <= |keys|
    requires Pages(keys, spare, n, q) == Some(keys[..|keys| - r])
    ensures Pages(keys, spare, n, q + 1) == if n - r <= spare then Some(keys + Blanks(n - r)) else None
  {
    var m := |keys| - r;
    assert Fetch(keys, spare, n, keys[..m]) == Extended(keys, spare, n, m);
    assert m + n - |keys| == n - r;
  }

  /** Chaining q * n + r keys in pages of n: every full page is the next n keys. If r is not 0 the request after the
      last full page gets the remaining keys and empty strings, if the capacity has room for those, and is out of
      range otherwise. */
  ghost predicate Paged(keys: seq<string>, spare: nat, n: nat, q: nat, r: nat) {
    && r <= |keys| && r < n
    && (forall k: nat | Times(k, n) <= |keys| :: Pages(keys, spare, n, k) == Some(keys[..Times(k, n)]))
    && Pages(keys, spare, n, q) == Some(keys[..|keys| - r])
    && (r != 0 ==> Pages(keys, spare, n, q + 1) == if n - r <= spare then Some(keys + Blanks(n - r)) else None)
  }

  lemma FollowPaged(keys: seq<string>, spare: nat, n: nat, q: nat, r: nat)
    requires PagesFollow(keys, spare, n) && r < n && |keys| == Times(q, n) + r
    ensures Paged(keys, spare, n, q, r)
  {
    forall k: nat | Times(k, n) <= |keys| ensures Pages(keys, spare, n, k) == Some(keys[..Times(k, n)]) {
      FullPages(keys, spare, n, k);
    }
    FullPages(keys, spare, n, q);
    if r != 0 {
      ShortPage(keys, spare, n, q, r);
    }
  }

  /** Paging the keys of q * n + r tags, and the request after the whole list: whether its last entry is the final key
      or an empty string of a padded page, the list starts over. */
  lemma PagingExactly(repo: Repo, tags: seq<string>, spare: nat, n: nat, q: nat, r: nat)
    requires StrictlySorted(tags) && r < n && |tags| == q * n + r
    ensures Paged(TagKeys(repo, tags), spare, n, q, r) && Times(q, n) == q * n
    ensures var keys := TagKeys(repo, tags);
            forall got: seq<string> | got != [] && (got[|got| - 1] == "" || (keys != [] && got[|got| - 1] == keys[|keys| - 1])) ::
              Fetch(keys, spare, n, got)
              == match Window(keys, spare, n, "") case None => None case Some(page) => Some(got + page)
  {
    TimesIs(q, n);
    KeysFollow(repo, tags, spare, n);
    FollowPaged(TagKeys(repo, tags), spare, n, q, r);
  }

  lemma KeysFollow(repo: Repo, tags: seq<string>, spare: nat, n: nat)
    requires StrictlySorted(tags) && n >= 1
    ensures var keys := TagKeys(repo, tags);
            && PagesFollow(keys, spare, n)
            && (keys != [] ==> Window(keys, spare, n, keys[|keys| - 1]) == Window(keys, spare, n, ""))
  {
    var keys := TagKeys(repo, tags);
    TagKeysSorted(repo, tags);
    assert "" !in keys;
    forall m: nat | m < |keys| ensures Fetch(keys, spare, n, keys[..m]) == Extended(keys, spare, n, m) {
      FetchNext(keys, spare, n, m);
    }
    if keys != [] {
      RestartsExactly(keys, spare, n, keys[|keys| - 1]);
    }
  }

  // The scan has collected, in order, every key with the prefix that lies before k.
  ghost predicate ScanState(keys: set<string>, prefix: string, tags: seq<string>, k: Option<string>) {
    && StrictlySorted(tags)
    && (forall t | t in tags :: t in keys && prefix <= t)
    && (forall x | x in keys && prefix <= x :: x in tags || (k.Some? && (x == k.value || Less(k.value, x))))
    && (k.Some? ==> k.value in keys && !Less(k.value, prefix) && forall t | t in tags :: Less(t, k.value))
  }

  lemma {:induction false} PrefixNotLess(p: string, x: string)
    requires p <= x
    ensures !Less(x, p)
  {
    if p != "" {
      PrefixNotLess(p[1..], x[1..]);
    }
  }

  lemma SeekStarts(keys: set<string>, prefix: string)
    ensures ScanState(keys, prefix, [], Seek(keys, prefix))
  {
    forall x | x in keys && prefix <= x ensures !Less(x, prefix) {
      PrefixNotLess(prefix, x);
    }
    var rest := set x | x in keys && !Less(x, prefix);
    assert forall x | x in keys && prefix <= x :: x in rest;
  }

  lemma ScanAdvances(keys: set<string>, prefix: string, tags: seq<string>, now: string)
    requires ScanState(keys, prefix, tags, Some(now)) && prefix <= now
    ensures ScanState(keys, prefix, tags + [now], NextKey(keys, now)) && now !in tags
  {
    var rest := set x | x in keys && Less(now, x);
    var k := NextKey(keys, now);
    LessTotal(now, now);
    assert forall x | x in keys && Less(now, x) :: x in rest;
    if k.Some? {
      forall t | t in tags + [now] ensures Less(t, k.value) {
        if t in tags {
          LessTransitive(t, now, k.value);
        }
      }
      if Less(k.value, prefix) {
        LessTransitive(now, k.value, prefix);
        assert false;
      }
    }
  }

  lemma ScanEnds(keys: set<string>, prefix: string, tags: seq<string>, k: Option<string>)
    requires ScanState(keys, prefix, tags, k) && (k.Some? ==> !(prefix <= k.value))
    ensures forall x | x in keys && prefix <= x :: x in tags
  {
    forall x | x in keys && prefix <= x ensures x in tags {
      if k.Some? && Less(k.value, x) {
        PrefixInterval(prefix, k.value, x);
        assert false;
      }
    }
  }

  // The tags a flat bucket holds for a repository.
  ghost function BucketTags(bucket: map<string, Digest>, repo: Repo): set<string>
    requires Keyed(bucket, ':')
  {
    set p | p in Nested(bucket, ':') && p.0 == repo :: p.1
  }

  lemma KeyHasTag(bucket: map<string, Digest>, repo: Repo, x: string) returns (t: string)
    requires Keyed(bucket, ':') && ':' !in repo && x in bucket && Key(repo, ':', "") <= x
    ensures t in BucketTags(bucket, repo) && x == Key(repo, ':', t)
  {
    t := x[|Key(repo, ':', "")|..];
    assert x == Key(repo, ':', t);
    NestedLookup(bucket, ':', repo, t);
    assert (repo, t).1 in BucketTags(bucket, repo);
  }

  lemma KeyPrefix(a: string, sep: char, b: string)
    ensures Key(a, sep, "") <= Key(a, sep, b)
  {
    assert Key(a, sep, b) == Key(a, sep, "") + b;
  }

  lemma BucketHasTag(bucket: map<string, Digest>, repo: Repo, t: string)
    requires Keyed(bucket, ':') && t in BucketTags(bucket, repo)
    ensures Key(repo, ':', t) in bucket
  {
    var p :| p in Nested(bucket, ':') && p.0 == repo && p.1 == t;
    NestedAt(bucket, ':', p);
  }

  lemma KeyOfTag(repo: Repo, tags: seq<string>, t: string)
    requires t in tags
    ensures Key(repo, ':', t) in TagKeys(repo, tags)
  {
    var i :| 0 <= i < |tags| && tags[i] == t;
    assert TagKeys(repo, tags)[i] == Key(repo, ':', t);
  }

  /** For a repository without the separator, the keys found are its tags' keys in the order of the tags. */
  lemma ScanIsTags(bucket: map<string, Digest>, repo: Repo, found: seq<string>)
    requires Keyed(bucket, ':') && ':' !in repo && StrictlySorted(found)
    requires forall x :: x in found <==> x in bucket && Key(repo, ':', "") <= x
    ensures found == TagKeys(repo, Sorted(BucketTags(bucket, repo)))
  {
    var keys := TagKeys(repo, Sorted(BucketTags(bucket, repo)));
    TagKeysSorted(repo, Sorted(BucketTags(bucket, repo)));
    forall x ensures x in found <==> x in keys {
      if x in found {
        var t := KeyHasTag(bucket, repo, x);
        KeyOfTag(repo, Sorted(BucketTags(bucket, repo)), t);
      }
      if x in keys {
        var t := TagOfKey(repo, Sorted(BucketTags(bucket, repo)), x);
        KeyPrefix(repo, ':', t);
        BucketHasTag(bucket, repo, t);
      }
    }
    SortedUnique(found, keys);
  }

  lemma TagOfKey(repo: Repo, tags: seq<string>, x: string) returns (t: string)
    requires x in TagKeys(repo, tags)
    ensures t in tags && x == Key(repo, ':', t)
  {
    var i :| 0 <= i < |tags| && TagKeys(repo, tags)[i] == x;
    t := tags[i];
  }

  class Store {
    var tag: map<string, Digest>
    var reference: map<string, seq<Descriptor>>
    var repository: map<string, byte>

    ghost predicate Valid() reads this {
      Keyed(tag, ':') && Keyed(reference, ':') && Keyed(repository, '@')
    }

    ghost function View(): Meta
      reads this
      requires Valid()
    {
      Meta(Nested(repository, '@').Keys, Nested(tag, ':'), Nested(reference, ':'))
    }

    constructor ()
      ensures Valid() && View() == MetaStore.EMPTY
    {
      tag, reference, repository := map[], map[], map[];
    }

    // commit says whether the write transaction commits.
    method SaveTag(repo: Repo, d: Digest, t: string, commit: bool) returns (err: Option<StoreError>)
      requires Valid()
      modifies this`tag
      ensures Valid()
      ensures err == if commit then None else Some(StoreFail)
      ensures ':' !in repo ==> View() == if commit then MetaStore.SaveTag(old(View()), repo, d, t) else old(View())
    {
      if !commit {
        return Some(StoreFail);
      }
      if ':' !in repo {
        NestedPut(tag, ':', repo, t, d);
      }
      tag := tag[Key(repo, ':', t) := d];
      err := None;
    }

    method ReadTag(repo: Repo, t: string) returns (d: Option<Digest>)
      requires Valid()
      ensures ':' !in repo ==> d == if (repo, t) in View().tags then Some(View().tags[(repo, t)]) else None
    {
      if ':' !in repo {
        NestedLookup(tag, ':', repo, t);
      }
      d := if Key(repo, ':', t) in tag then Some(tag[Key(repo, ':', t)]) else None;
    }

    method DeleteTag(repo: Repo, t: string, commit: bool) returns (err: Option<StoreError>)
      requires Valid()
      modifies this`tag
      ensures Valid()
      ensures ':' !in repo ==>
                && err == (if (repo, t) !in old(View()).tags then Some(NotFound) else if commit then None else Some(StoreFail))
                && View() == (if err == None then MetaStore.DeleteTag(old(View()), repo, t) else old(View()))
    {
      if ':' !in repo {
        NestedLookup(tag, ':', repo, t);
        NestedRemove(tag, ':', repo, t);
      }
      if Key(repo, ':', t) !in tag {
        return Some(NotFound);
      }
      if !commit {
        return Some(StoreFail);
      }
      tag := tag - {Key(repo, ':', t)};
      err := None;
    }

    /** The cursor scan: exactly the repository's keys, in byte order of their tags; whole keys, not tags. */
    method ScanTags(repo: Repo) returns (tags: seq<string>)
      requires Valid()
      ensures StrictlySorted(tags)
      ensures forall x :: x in tags <==> x in tag && Key(repo, ':', "") <= x
      ensures ':' !in repo ==> tags == TagKeys(repo, Sorted(TagsOf(View(), repo)))
    {
      tags := [];
      var prefix := Key(repo, ':', "");
      var k := Seek(tag.Keys, prefix);
      SeekStarts(tag.Keys, prefix);
      ghost var left := tag.Keys;
      while k.Some? && prefix <= k.value
        invariant ScanState(tag.Keys, prefix, tags, k)
        invariant left == tag.Keys - (set t | t in tags)
        decreases left
      {
        ScanAdvances(tag.Keys, prefix, tags, k.value);
        left := left - {k.value};
        tags := tags + [k.value];
        k := NextKey(tag.Keys, k.value);
      }
      ScanEnds(tag.Keys, prefix, tags, k);
      if ':' !in repo {
        ScanIsTags(tag, repo, tags);
        assert BucketTags(tag, repo) == TagsOf(View(), repo);
      }
    }

    /** GetTagList: spare is the capacity append left beyond the list; None stands for the slice out of range. */
    method GetTagList(repo: Repo, spare: nat, limit: int, last: string) returns (r: Option<seq<string>>)
      requires Valid()
      ensures ':' !in repo ==> r == Window(TagKeys(repo, Sorted(TagsOf(View(), repo))), spare, limit, last)
    {
      var tags := ScanTags(repo);
      ghost var all := tags;
      if last != "" {
        var i := IndexOf(tags, last);
        if i < |tags| - 1 {
          tags := tags[i + 1..];
        }
      }
      if limit > |tags| + spare {
        r := None;
      } else if limit > |tags| {
        r := Some(tags + Blanks(limit - |tags|));
      } else {
        r := Some(if limit > 0 then tags[..limit] else tags);
      }
      assert r == Window(all, spare, limit, last);
    }

    method AddReference(repo: Repo, d: Digest, desc: Descriptor, commit: bool) returns (err: Option<StoreError>)
      requires Valid()
      modifies this`reference
      ensures Valid()
      ensures err == if commit then None else Some(StoreFail)
      ensures ':' !in repo ==>
                View() == if commit then MetaStore.AddReference(old(View()), repo, d, desc) else old(View())
    {
      if !commit {
        return Some(StoreFail);
      }
      var key := Key(repo, ':', d);
      var list := if key in reference then reference[key] else [];
      if ':' !in repo {
        NestedLookup(reference, ':', repo, d);
        assert list == References(View(), repo, d);
        NestedPut(reference, ':', repo, d, list + [desc]);
      }
      reference := reference[key := list + [desc]];
      err := None;
    }

    /** GetReferences; list None stands for the nil dereference of an absent artifact type. It fails exactly
        when a type is asked for and some stored referrer has none, and otherwise agrees with the Dynamo filter. */
    method GetReferences(repo: Repo, d: Digest, artifact: string)
      returns (r: Option<seq<Descriptor>>, err: Option<StoreError>)
      requires Valid()
      ensures ':' !in repo ==>
                var list := if (repo, d) in View().refs then View().refs[(repo, d)] else [];
                && (err == if (repo, d) in View().refs then None else Some(NotFound))
                && (r.Some? <==> artifact == "" || forall desc | desc in list :: desc.artifactType.Some?)
                && (r.Some? && artifact == "" ==> r.value == list)
                && (r.Some? && artifact != "" ==>
                      r.value == OfType(list, artifact) && exists at :: Selects(list, artifact, at, r.value))
    {
      if ':' !in repo {
        NestedLookup(reference, ':', repo, d);
      }
      var key := Key(repo, ':', d);
      var list := if key in reference then reference[key] else [];
      err := if key in reference then None else Some(NotFound);
      if artifact == "" {
        return Some(list), err;
      }
      var filtered: seq<Descriptor> := [];
      for i := 0 to |list|
        invariant forall desc | desc in list[..i] :: desc.artifactType.Some?
        invariant filtered == OfType(list[..i], artifact)
      {
        assert list[..i + 1][..i] == list[..i];
        if list[i].artifactType == None {
          return None, err;
        }
        if list[i].artifactType.value == artifact {
          filtered := filtered + [list[i]];
        }
      }
      assert list[..|list|] == list;
      ghost var at := OfTypeSelects(list, artifact);
      assert Selects(list, artifact, at, filtered);
      r := Some(filtered);
    }

    // AddBlob and LinkBlob write the same key.
    method AddBlob(repo: Repo, d: Digest, commit: bool) returns (err: Option<StoreError>)
      requires Valid()
      modifies this`repository
      ensures Valid()
      ensures err == if commit then None else Some(StoreFail)
      ensures '@' !in repo ==> View() == if commit then MetaStore.AddBlob(old(View()), repo, d) else old(View())
    {
      if !commit {
        return Some(StoreFail);
      }
      if '@' !in repo {
        NestedPut(repository, '@', repo, d, 1);
        assert Nested(repository, '@')[(repo, d) := 1].Keys == Nested(repository, '@').Keys + {(repo, d)};
      }
      repository := repository[Key(repo, '@', d) := 1];
      err := None;
    }

    method DeleteBlob(repo: Repo, d: Digest, commit: bool) returns (err: Option<StoreError>)
      requires Valid()
      modifies this`repository
      ensures Valid()
      ensures '@' !in repo ==>
                && err == (if (repo, d) !in old(View()).blobs then Some(NotFound) else if commit then None else Some(StoreFail))
                && View() == (if err == None then MetaStore.DeleteBlob(old(View()), repo, d) else old(View()))
    {
      if '@' !in repo {
        NestedLookup(repository, '@', repo, d);
        NestedRemove(repository, '@', repo, d);
      }
      if Key(repo, '@', d) !in repository {
        return Some(NotFound);
      }
      if !commit {
        return Some(StoreFail);
      }
      repository := repository - {Key(repo, '@', d)};
      err := None;
    }

    method IsExistBlob(repo: Repo, d: Digest) returns (found: bool)
      requires Valid()
      ensures '@' !in repo ==> found == ((repo, d) in View().blobs)
    {
      if '@' !in repo {
        NestedLookup(repository, '@', repo, d);
      }
      found := Key(repo, '@', d) in repository;
    }
  }
}
