/** Reading and writing the bucket by name: originals are put, deleted and listed under keys built from a track id. */
module TrackStorage {
  import opened Basics
  import opened TrackKeys

  datatype StoredObject = StoredObject(key: string, size: nat)

  datatype StoreError = BadKey(error: KeyError) | StoreFailed | NoPublicUrl

  datatype StoreResult<T> = Returned(value: T) | Error(error: StoreError)

  class TrackStorage {
    var bucket: map<string, Bytes>

    constructor ()
      ensures bucket == map[]
    {
      bucket := map[];
    }

    /** Stores the body under the key of track id and file name. When the public URL cannot be built the object is
        stored all the same. */
    method PutOriginal(trackId: string, filename: string, body: Bytes, put: Call, url: bool)
      returns (r: StoreResult<StoredObject>)
      modifies this
      ensures var key := OriginalKey(trackId, filename);
              && (r.Returned? <==> key.Success? && put.Ok? && url)
              && (r.Returned? ==> r.value == StoredObject(key.value, |body|))
              && (key.Success? ==> ValidKey(key.value) && !(['/'] <= key.value))
              && bucket == (if key.Success? && put.Took() then old(bucket)[key.value := body] else old(bucket))
    {
      var key := OriginalKey(trackId, filename);
      if key.Failure? {
        return Error(BadKey(key.error));
      }
      KeyNamesItself(trackId, filename);
      if put.Took() {
        bucket := bucket[key.value := body];
      }
      if !put.Ok? {
        return Error(StoreFailed);
      }
      r := if url then Returned(StoredObject(key.value, |body|)) else Error(NoPublicUrl);
    }

    /** The store drops one leading slash before it deletes: a key and the same key after a slash name one object. */
    method Delete(key: string, call: Call) returns (r: StoreResult<()>)
      modifies this
      ensures r.Returned? <==> ValidKey(key) && call.Ok?
      ensures r.Error? ==> r.error == if ValidKey(key) then StoreFailed else BadKey(InvalidSegment)
      ensures !(ValidKey(key) && call.Took()) ==> bucket == old(bucket)
      ensures ValidKey(key) && call.Took() && !(['/'] <= key) ==> bucket == old(bucket) - {key}
      ensures forall k | ValidKey(key) && call.Took() && key == "/" + k :: bucket == old(bucket) - {k}
    {
      if !ValidKey(key) {
        return Error(BadKey(InvalidSegment));
      }
      if call.Took() {
        bucket := bucket - {StoreName(key)};
      }
      r := if call.Ok? then Returned(()) else Error(StoreFailed);
    }

    /** The items are the first matching objects in the order of their keys, all of them unless the page is full. */
    ghost predicate Page(items: seq<StoredObject>, prefix: string, limit: nat)
      reads this
    {
      && |items| <= limit && InOrder(items)
      && (forall i | 0 <= i < |items| :: items[i].key in Matching(prefix) && items[i].size == |bucket[items[i].key]|)
      && (forall k <- Matching(prefix) ::
            StoredObject(k, |bucket[k]|) in items
            || (|items| == limit && forall i | 0 <= i < |items| :: Before(items[i].key, k)))
    }

    /** The keys of the bucket that start with `prefix`. */
    function Matching(prefix: string): set<string>
      reads this
    {
      set k | k in bucket && prefix <= k
    }

    /** Fewer than `limit` matching keys come before `k`. */
    ghost predicate OnPage(k: string, prefix: string, limit: nat)
      reads this
    {
      k in Matching(prefix) && |set j | j in Matching(prefix) && Before(j, k)| < limit
    }

    /** A page lists exactly the matching keys that fewer than `limit` others come before. */
    lemma PageExact(items: seq<StoredObject>, prefix: string, limit: nat, k: string)
      requires Page(items, prefix, limit)
      ensures (exists i :: 0 <= i < |items| && items[i].key == k) <==> OnPage(k, prefix, limit)
    {
      var before := set j | j in Matching(prefix) && Before(j, k);
      if i :| 0 <= i < |items| && items[i].key == k {
        forall j <- before ensures j in KeysOf(items[..i]) {
          EarlierKeyListed(items, prefix, limit, i, j);
        }
        DistinctKeys(items[..i]);
        Subset(before, KeysOf(items[..i]));
      } else if k in Matching(prefix) {
        assert StoredObject(k, |bucket[k]|) !in items;
        DistinctKeys(items);
        Subset(KeysOf(items), before);
      }
    }

    /** A page is full or lists every matching key. */
    lemma PageSize(items: seq<StoredObject>, prefix: string, limit: nat)
      requires Page(items, prefix, limit)
      ensures |items| == Smaller(limit, |Matching(prefix)|)
    {
      DistinctKeys(items);
      Subset(KeysOf(items), Matching(prefix));
      if |items| < limit {
        Subset(Matching(prefix), KeysOf(items));
      }
    }

    lemma EarlierKeyListed(items: seq<StoredObject>, prefix: string, limit: nat, i: nat, j: string)
      requires Page(items, prefix, limit) && i < |items| && j in Matching(prefix) && Before(j, items[i].key)
      ensures j in KeysOf(items[..i])
    {
      NotBoth(j, items[i].key);
      var n :| 0 <= n < |items| && items[n] == StoredObject(j, |bucket[j]|);
      OrderIsOfPlaces(items, n, i);
      assert items[..i][n] == items[n];
    }

    lemma PageUrls(items: seq<StoredObject>, prefix: string, limit: nat, url: string -> bool)
      requires Page(items, prefix, limit)
      ensures (forall i | 0 <= i < |items| :: url(items[i].key)) <==> forall k | OnPage(k, prefix, limit) :: url(k)
    {
      forall k ensures (exists i :: 0 <= i < |items| && items[i].key == k) <==> OnPage(k, prefix, limit) {
        PageExact(items, prefix, limit, k);
      }
      hide OnPage;
      forall i | 0 <= i < |items| ensures OnPage(items[i].key, prefix, limit) {
      }
    }

    /** One page of the store's listing: the first matching keys in order, as many as fit on a page. */
    method ListObjects(prefix: string, maxKeys: int) returns (items: seq<StoredObject>)
      ensures Page(items, prefix, PageLimit(maxKeys))
      ensures maxKeys <= 0 ==> |items| == Smaller(100, |Matching(prefix)|)
      ensures 0 < maxKeys <= 1000 ==> |items| == Smaller(maxKeys, |Matching(prefix)|)
      ensures maxKeys > 1000 ==> |items| == Smaller(1000, |Matching(prefix)|)
    {
      items := [];
      var left := Matching(prefix);
      while left != {} && |items| < PageLimit(maxKeys)
        invariant left <= Matching(prefix) && |items| <= PageLimit(maxKeys)
        invariant forall i | 0 <= i < |items| ::
                    items[i].key in Matching(prefix) - left && items[i].size == |bucket[items[i].key]|
        invariant InOrder(items)
        invariant forall i, k | 0 <= i < |items| && k in left :: Before(items[i].key, k)
        invariant forall k <- Matching(prefix) - left :: StoredObject(k, |bucket[k]|) in items
        decreases left
      {
        var k := FirstKey(left);
        items := items + [StoredObject(k, |bucket[k]|)];
        left := left - {k};
      }
      PageSize(items, prefix, PageLimit(maxKeys));
    }

    /** The originals of a track. Any item whose public URL cannot be built fails the whole listing. */
    method ListRaw(trackId: string, maxKeys: int, reached: bool, url: string -> bool)
      returns (r: StoreResult<seq<StoredObject>>)
      ensures ListPrefix(trackId).Failure? ==> r == Error(BadKey(ListPrefix(trackId).error))
      ensures r.Returned? ==>
                && ListPrefix(trackId).Success?
                && Page(r.value, ListPrefix(trackId).value, PageLimit(maxKeys))
                && forall i | 0 <= i < |r.value| :: url(r.value[i].key)
      ensures r.Returned? <==>
                && ListPrefix(trackId).Success? && reached
                && forall k | OnPage(k, ListPrefix(trackId).value, PageLimit(maxKeys)) :: url(k)
      ensures r.Error? && ListPrefix(trackId).Success? ==> r.error == if reached then NoPublicUrl else StoreFailed
    {
      var prefix := ListPrefix(trackId);
      if prefix.Failure? {
        return Error(BadKey(prefix.error));
      }
      if !reached {
        return Error(StoreFailed);
      }
      var items := ListObjects(prefix.value, maxKeys);
      PageUrls(items, prefix.value, PageLimit(maxKeys), url);
      hide OnPage, Page;
      r := WithUrls(items, url);
    }

    /** The items one by one, up to the first without a public URL. */
    method WithUrls(items: seq<StoredObject>, url: string -> bool) returns (r: StoreResult<seq<StoredObject>>)
      ensures r == if forall i | 0 <= i < |items| :: url(items[i].key) then Returned(items) else Error(NoPublicUrl)
    {
      var listed: seq<StoredObject> := [];
      for i := 0 to |items|
        invariant listed == items[..i] && forall j | 0 <= j < i :: url(items[j].key)
      {
        if !url(items[i].key) {
          return Error(NoPublicUrl);
        }
        listed := listed + [items[i]];
      }
      assert items[..|items|] == items;
      r := Returned(listed);
    }
  }

  /** A key that PutOriginal returns can be given to Delete as it is. */
  lemma KeyNamesItself(trackId: string, filename: string)
    requires OriginalKey(trackId, filename).Success?
    ensures ValidKey(OriginalKey(trackId, filename).value) && !(['/'] <= OriginalKey(trackId, filename).value)
  {
    hide OriginalKey, ValidKey;
    OriginalKeyIsValid(trackId, filename);
    OriginalKeyExact(trackId, filename);
    assert OriginalKey(trackId, filename).value[0] == 'r';
  }

  /** Deleting what was put leaves the bucket as it was, but for that one name. */
  lemma PutThenDelete(bucket: map<string, Bytes>, key: string, body: Bytes)
    ensures bucket[key := body] - {key} == bucket - {key}
    ensures key !in bucket ==> bucket[key := body] - {key} == bucket
  {
  }

  function StoreName(key: string): string {
    if key != "" && key[0] == '/' then key[1..] else key
  }

  function Smaller(a: int, b: int): int {
    if a < b then a else b
  }

  /** How many keys a page holds: what is asked for, 100 by default, and never more than S3 gives. */
  function PageLimit(maxKeys: int): nat {
    if maxKeys <= 0 then 100 else if maxKeys > 1000 then 1000 else maxKeys
  }

  /** The order of UTF-8 encodings, which is that of the characters. */
  predicate Before(a: string, b: string) {
    b != "" && (a == "" || a[0] < b[0] || (a[0] == b[0] && Before(a[1..], b[1..])))
  }

  /** One string is before another exactly if it is a proper prefix, or its character is the smaller one where they
      first differ. */
  lemma {:induction false} BeforeIff(a: string, b: string)
    ensures Before(a, b) <==>
              || (a <= b && a != b)
              || exists i :: 0 <= i < |a| && i < |b| && a[..i] == b[..i] && a[i] < b[i]
  {
    if a != "" && b != "" && a[0] == b[0] {
      BeforeIff(a[1..], b[1..]);
      assert a == [a[0]] + a[1..] && b == [b[0]] + b[1..];
      if i :| 0 <= i < |a[1..]| && i < |b[1..]| && a[1..][..i] == b[1..][..i] && a[1..][i] < b[1..][i] {
        assert a[..i + 1] == [a[0]] + a[1..][..i] && b[..i + 1] == [b[0]] + b[1..][..i];
      }
      if i :| 0 <= i < |a| && i < |b| && a[..i] == b[..i] && a[i] < b[i] {
        assert a[1..][..i - 1] == a[..i][1..] && b[1..][..i - 1] == b[..i][1..];
      }
    } else if a != "" && b != "" && a[0] < b[0] {
      assert a[..0] == b[..0];
    } else if a != "" && b != "" {
      forall i | 0 < i < |a| && i < |b| ensures a[..i] != b[..i] {
        assert a[..i][0] != b[..i][0];
      }
    }
  }

  lemma {:induction false} BeforeTotal(a: string, b: string)
    ensures a == b || Before(a, b) || Before(b, a)
  {
    if a != "" && b != "" && a[0] == b[0] {
      BeforeTotal(a[1..], b[1..]);
      assert a == [a[0]] + a[1..] && b == [b[0]] + b[1..];
    }
  }

  lemma {:induction false} BeforeTransitive(a: string, b: string, c: string)
    requires Before(a, b) && Before(b, c)
    ensures Before(a, c)
  {
    if a != "" && a[0] == b[0] && b[0] == c[0] {
      BeforeTransitive(a[1..], b[1..], c[1..]);
    }
  }

  lemma {:induction false} NotBoth(a: string, b: string)
    requires Before(a, b)
    ensures !Before(b, a) && a != b
  {
    if a != "" && a[0] == b[0] {
      NotBoth(a[1..], b[1..]);
    }
  }

  lemma OrderIsOfPlaces(items: seq<StoredObject>, n: nat, i: nat)
    requires InOrder(items) && n < |items| && i < |items| && Before(items[n].key, items[i].key)
    ensures n < i
  {
    NotBoth(items[n].key, items[i].key);
  }

  function KeysOf(items: seq<StoredObject>): set<string> {
    set i | 0 <= i < |items| :: items[i].key
  }

  lemma {:induction false} DistinctKeys(items: seq<StoredObject>)
    requires InOrder(items)
    ensures |KeysOf(items)| == |items|
  {
    if items != [] {
      var most, last := items[..|items| - 1], items[|items| - 1];
      DistinctKeys(most);
      assert KeysOf(items) == KeysOf(most) + {last.key};
      forall i | 0 <= i < |most| ensures most[i].key != last.key {
        NotBoth(items[i].key, last.key);
      }
    }
  }

  lemma Subset<T>(a: set<T>, b: set<T>)
    requires a <= b
    ensures |a| <= |b|
  {
    assert b == a + (b - a);
  }

  predicate InOrder(items: seq<StoredObject>) {
    forall i, j | 0 <= i < j < |items| :: Before(items[i].key, items[j].key)
  }

  method FirstKey(keys: set<string>) returns (first: string)
    requires keys != {}
    ensures first in keys && forall k <- keys | k != first :: Before(first, k)
  {
    first :| first in keys;
    var left := keys - {first};
    while left != {}
      invariant first in keys && left <= keys - {first}
      invariant forall k <- keys - left | k != first :: Before(first, k)
      decreases left
    {
      var k :| k in left;
      BeforeTotal(first, k);
      if Before(k, first) {
        forall j <- keys - left | j != first ensures Before(k, j) {
          BeforeTransitive(k, first, j);
        }
        first := k;
      }
      left := left - {k};
    }
  }

  /** An original is eligible for the listing of a track exactly if its own id normalises to the same segment. */
  lemma ListedIffOwn(storage: TrackStorage, t: string, f: string, u: string)
    requires OriginalKey(t, f).Success? && OriginalKey(t, f).value in storage.bucket && ListPrefix(u).Success?
    ensures OriginalKey(t, f).value in storage.Matching(ListPrefix(u).value)
            <==> NormalizeSegment(t) == NormalizeSegment(u)
  {
    ListingExact(t, f, u);
  }
}
