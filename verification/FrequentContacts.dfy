/**
 * The "frequent contacts" ranking: the established contacts the user paid
 * most often in the last ninety days, topped up with those who paid the user
 * most often, at most four in all.
 */
module FrequentContacts {
  import opened Wrappers
  import opened SearchResults

  /** Ninety days in milliseconds. */
  const TIMESPAN := 90 * 24 * 60 * 60 * 1000
  const TOP_CONTACT_COUNT := 4

  /** A transaction with a contact: its value to this wallet (negative when
      sent, positive when received) and its last update time in milliseconds. */
  datatype Tx = Tx(value: int, updateTime: int)

  /** The identity's transactions with each contact, by user id. */
  type Ledger = UserId -> seq<Tx>

  /** Whether a transaction counts towards a score: it goes the asked-for way
      and was updated after `since`. */
  predicate Counts(tx: Tx, sent: bool, since: int)
  {
    ((sent && tx.value < 0) || (!sent && tx.value > 0)) && tx.updateTime > since
  }

  /** The number of transactions that count. */
  function Score(txs: seq<Tx>, sent: bool, since: int): (n: nat)
    ensures n <= |txs|
  {
    if txs == [] then 0
    else Score(txs[..|txs| - 1], sent, since) + (if Counts(txs[|txs| - 1], sent, since) then 1 else 0)
  }

  /** A score is positive exactly when some transaction counts. */
  lemma {:induction false} ScorePositive(txs: seq<Tx>, sent: bool, since: int)
    ensures Score(txs, sent, since) > 0 <==> exists i :: 0 <= i < |txs| && Counts(txs[i], sent, since)
    ensures Score(txs, sent, since) <= |txs|
  {
    if txs != [] {
      var init := txs[..|txs| - 1];
      ScorePositive(init, sent, since);
      assert forall i :: 0 <= i < |init| ==> init[i] == txs[i];
    }
  }

  /** Each user's score. */
  function Scores(ledger: Ledger, since: int, sent: bool): UserId -> int
  {
    id => Score(ledger(id), sent, since)
  }

  // Kotlin's stable `sortByDescending`, as an insertion sort.

  /** Inserts `x` after every element whose key is at least `x`'s. */
  function Insert<T>(x: T, t: seq<T>, key: T -> int): seq<T>
  {
    if t == [] then [x]
    else if key(t[0]) < key(x) then [x] + t
    else [t[0]] + Insert(x, t[1..], key)
  }

  function SortDesc<T>(s: seq<T>, key: T -> int): seq<T>
  {
    if s == [] then [] else Insert(s[|s| - 1], SortDesc(s[..|s| - 1], key), key)
  }

  predicate SortedDesc<T>(s: seq<T>, key: T -> int)
  {
    forall i, j :: 0 <= i < j < |s| ==> key(s[i]) >= key(s[j])
  }

  /** The elements whose key is `k`, in their order. */
  function KeyClass<T>(s: seq<T>, key: T -> int, k: int): seq<T>
  {
    if s == [] then [] else (if key(s[0]) == k then [s[0]] else []) + KeyClass(s[1..], key, k)
  }

  lemma {:induction false} InsertPerm<T>(x: T, t: seq<T>, key: T -> int)
    ensures multiset(Insert(x, t, key)) == multiset(t) + multiset{x}
  {
    if t != [] && key(t[0]) >= key(x) {
      InsertPerm(x, t[1..], key);
      assert t == [t[0]] + t[1..];
    }
  }

  lemma {:induction false} InsertSorted<T>(x: T, t: seq<T>, key: T -> int)
    requires SortedDesc(t, key)
    ensures SortedDesc(Insert(x, t, key), key)
    ensures |Insert(x, t, key)| == |t| + 1
    ensures Insert(x, t, key)[0] == x || (t != [] && Insert(x, t, key)[0] == t[0])
  {
    if t != [] && key(t[0]) >= key(x) {
      InsertSorted(x, t[1..], key);
      var r := Insert(x, t[1..], key);
      assert Insert(x, t, key) == [t[0]] + r;
      assert forall j :: 0 <= j < |r| ==> key(t[0]) >= key(r[j]) by {
        InsertPerm(x, t[1..], key);
        forall j | 0 <= j < |r|
          ensures key(t[0]) >= key(r[j])
        {
          assert r[j] in multiset(r);
          if r[j] != x {
            assert r[j] in multiset(t[1..]);
            var m :| 0 <= m < |t[1..]| && t[1..][m] == r[j];
            assert t[m + 1] == r[j];
          }
        }
      }
    }
  }

  /** The sort yields its input ordered by non-increasing key. */
  lemma {:induction false} SortDescSorted<T>(s: seq<T>, key: T -> int)
    ensures SortedDesc(SortDesc(s, key), key)
    ensures multiset(SortDesc(s, key)) == multiset(s)
  {
    if s != [] {
      var init := s[..|s| - 1];
      SortDescSorted(init, key);
      InsertSorted(s[|s| - 1], SortDesc(init, key), key);
      InsertPerm(s[|s| - 1], SortDesc(init, key), key);
      assert s == init + [s[|s| - 1]];
    }
  }

  lemma {:induction false} KeyClassConcat<T>(a: seq<T>, b: seq<T>, key: T -> int, k: int)
    ensures KeyClass(a + b, key, k) == KeyClass(a, key, k) + KeyClass(b, key, k)
  {
    if a == [] {
      assert a + b == b;
    } else {
      var head := if key(a[0]) == k then [a[0]] else [];
      assert (a + b)[0] == a[0] && (a + b)[1..] == a[1..] + b;
      assert KeyClass(a + b, key, k) == head + KeyClass(a[1..] + b, key, k);
      KeyClassConcat(a[1..], b, key, k);
      assert KeyClass(a, key, k) == head + KeyClass(a[1..], key, k);
    }
  }

  lemma {:induction false} KeyClassBelow<T>(t: seq<T>, key: T -> int, k: int)
    requires SortedDesc(t, key)
    requires t != [] ==> key(t[0]) < k
    ensures KeyClass(t, key, k) == []
  {
    if t != [] {
      KeyClassBelow(t[1..], key, k);
    }
  }

  lemma {:induction false} InsertClass<T>(x: T, t: seq<T>, key: T -> int, k: int)
    requires SortedDesc(t, key)
    ensures KeyClass(Insert(x, t, key), key, k) == KeyClass(t, key, k) + (if key(x) == k then [x] else [])
  {
    var xs := if key(x) == k then [x] else [];
    if t == [] {
      assert [x][1..] == [];
    } else if key(t[0]) < key(x) {
      assert ([x] + t)[0] == x && ([x] + t)[1..] == t;
      assert KeyClass([x] + t, key, k) == xs + KeyClass(t, key, k);
      if key(x) == k {
        KeyClassBelow(t, key, k);
      }
    } else {
      var tail := t[1..];
      assert SortedDesc(tail, key) by {
        forall i, j | 0 <= i < j < |tail|
          ensures key(tail[i]) >= key(tail[j])
        {
          assert tail[i] == t[i + 1] && tail[j] == t[j + 1];
        }
      }
      InsertClass(x, tail, key, k);
      var r := Insert(x, tail, key);
      var head := if key(t[0]) == k then [t[0]] else [];
      assert ([t[0]] + r)[0] == t[0] && ([t[0]] + r)[1..] == r;
      assert KeyClass([t[0]] + r, key, k) == head + KeyClass(r, key, k);
      assert KeyClass(t, key, k) == head + KeyClass(tail, key, k);
    }
  }

  /** The sort is stable: elements with equal keys keep their order. */
  lemma {:induction false} SortDescStable<T>(s: seq<T>, key: T -> int, k: int)
    ensures KeyClass(SortDesc(s, key), key, k) == KeyClass(s, key, k)
  {
    if s != [] {
      var init := s[..|s| - 1];
      var x := s[|s| - 1];
      assert s == init + [x];
      var sorted := SortDesc(init, key);
      var xs := if key(x) == k then [x] else [];
      assert SortDesc(s, key) == Insert(x, sorted, key);
      SortDescStable(init, key, k);
      SortDescSorted(init, key);
      InsertClass(x, sorted, key, k);
      KeyClassConcat(init, [x], key, k);
      assert [x][1..] == [];
      assert KeyClass([x], key, k) == xs;
    }
  }

  lemma {:induction false} InsertKeysAgree<T>(x: T, t: seq<T>, k1: T -> int, k2: T -> int)
    requires k1(x) == k2(x)
    requires forall i :: 0 <= i < |t| ==> k1(t[i]) == k2(t[i])
    ensures Insert(x, t, k1) == Insert(x, t, k2)
  {
    if t != [] {
      InsertKeysAgree(x, t[1..], k1, k2);
    }
  }

  /** Sorting by two keys that agree on the elements gives the same order. */
  lemma {:induction false} SortKeysAgree<T>(s: seq<T>, k1: T -> int, k2: T -> int)
    requires forall i :: 0 <= i < |s| ==> k1(s[i]) == k2(s[i])
    ensures SortDesc(s, k1) == SortDesc(s, k2)
  {
    if s != [] {
      var init := s[..|s| - 1];
      SortKeysAgree(init, k1, k2);
      SortDescSorted(init, k1);
      var t := SortDesc(init, k1);
      forall i | 0 <= i < |t|
        ensures k1(t[i]) == k2(t[i])
      {
        assert t[i] in multiset(init);
        var m :| 0 <= m < |init| && init[m] == t[i];
      }
      InsertKeysAgree(s[|s| - 1], t, k1, k2);
    }
  }

  // Looking results up by user id.

  function Ids(rs: seq<UsernameSearchResult>): seq<UserId>
  {
    seq(|rs|, i requires 0 <= i < |rs| => rs[i].userId)
  }

  /** `find` by user id: the first result for that user. */
  function FindById(items: seq<UsernameSearchResult>, id: UserId): (r: Option<UsernameSearchResult>)
    ensures r.Some? <==> id in Ids(items)
    ensures r.Some? ==> r.value in items && r.value.userId == id
    ensures r.Some? ==> exists k :: 0 <= k < |items| && items[k] == r.value &&
                                    forall j :: 0 <= j < k ==> items[j].userId != id
  {
    if items == [] then None
    else if items[0].userId == id then
      assert Ids(items)[0] == id;
      Some(items[0])
    else
      assert Ids(items) == [items[0].userId] + Ids(items[1..]);
      var r := FindById(items[1..], id);
      if r.None? then None
      else
        var k :| 0 <= k < |items[1..]| && items[1..][k] == r.value &&
                 forall j :: 0 <= j < k ==> items[1..][j].userId != id;
        assert items[k + 1] == r.value;
        assert forall j :: 0 <= j < k + 1 ==> items[j].userId != id by {
          forall j | 0 <= j < k + 1
            ensures items[j].userId != id
          {
            if j > 0 {
              assert items[j] == items[1..][j - 1];
            }
          }
        }
        r
  }

  /** Whether a list already holds a result for that user. */
  predicate Mentions(ignore: seq<UsernameSearchResult>, id: UserId)
  {
    exists i :: 0 <= i < |ignore| && ignore[i].userId == id
  }

  /** Whether a user may be picked: a non-zero score and not already listed. */
  predicate Eligible(id: UserId, key: UserId -> int, ignore: seq<UsernameSearchResult>)
  {
    key(id) != 0 && !Mentions(ignore, id)
  }

  /** The picking loop: walk the sorted ids, take the result of every eligible
      user, and stop once `limit` were taken (`count` were taken so far).  A
      limit already reached is never hit again, so then every eligible user is
      taken. */
  function Picked(ids: seq<UserId>, key: UserId -> int, ignore: seq<UsernameSearchResult>,
                  items: seq<UsernameSearchResult>, limit: int, count: int): seq<UsernameSearchResult>
    requires forall j :: 0 <= j < |ids| ==> ids[j] in Ids(items)
  {
    if ids == [] then []
    else if Eligible(ids[0], key, ignore) then
      var item := FindById(items, ids[0]).value;
      if count + 1 == limit then [item] else [item] + Picked(ids[1..], key, ignore, items, limit, count + 1)
    else Picked(ids[1..], key, ignore, items, limit, count)
  }

  lemma IdsOfFiltered(items: seq<UsernameSearchResult>, s: seq<UserId>)
    requires multiset(s) == multiset(Ids(Filter(items, IsContact)))
    ensures forall j :: 0 <= j < |s| ==> s[j] in Ids(items)
  {
    var contacts := Filter(items, IsContact);
    forall j | 0 <= j < |s|
      ensures s[j] in Ids(items)
    {
      assert s[j] in multiset(Ids(contacts));
      var m :| 0 <= m < |contacts| && contacts[m].userId == s[j];
      assert contacts[m] in items;
      var n :| 0 <= n < |items| && items[n] == contacts[m];
      assert Ids(items)[n] == s[j];
    }
  }

  /** The contact ids sorted by score, as `getTopContacts` orders them. */
  function RankedIds(items: seq<UsernameSearchResult>, ledger: Ledger, since: int, sent: bool): (ids: seq<UserId>)
    ensures multiset(ids) == multiset(Ids(Filter(items, IsContact)))
    ensures SortedDesc(ids, Scores(ledger, since, sent))
    ensures forall j :: 0 <= j < |ids| ==> ids[j] in Ids(items)
  {
    var ids := SortDesc(Ids(Filter(items, IsContact)), Scores(ledger, since, sent));
    SortDescSorted(Ids(Filter(items, IsContact)), Scores(ledger, since, sent));
    IdsOfFiltered(items, ids);
    ids
  }

  /** `getTopContacts`: up to `TOP_CONTACT_COUNT - |ignore|` results of
      established contacts, best score first, leaving out those with no
      counted transaction and those already in `ignore`. */
  function TopContacts(items: seq<UsernameSearchResult>, ignore: seq<UsernameSearchResult>,
                       ledger: Ledger, since: int, sent: bool): seq<UsernameSearchResult>
  {
    Picked(RankedIds(items, ledger, since, sent), Scores(ledger, since, sent), ignore, items,
           TOP_CONTACT_COUNT - |ignore|, 0)
  }

  // What the picking loop guarantees.

  lemma {:induction false} PickedSound(ids: seq<UserId>, key: UserId -> int, ignore: seq<UsernameSearchResult>,
                                       items: seq<UsernameSearchResult>, limit: int, count: int)
    requires forall j :: 0 <= j < |ids| ==> ids[j] in Ids(items)
    ensures forall i :: 0 <= i < |Picked(ids, key, ignore, items, limit, count)| ==>
      Picked(ids, key, ignore, items, limit, count)[i] in items &&
      Picked(ids, key, ignore, items, limit, count)[i].userId in ids &&
      Eligible(Picked(ids, key, ignore, items, limit, count)[i].userId, key, ignore)
  {
    if ids != [] {
      PickedSound(ids[1..], key, ignore, items, limit, if Eligible(ids[0], key, ignore) then count + 1 else count);
    }
  }

  lemma {:induction false} PickedBound(ids: seq<UserId>, key: UserId -> int, ignore: seq<UsernameSearchResult>,
                                       items: seq<UsernameSearchResult>, limit: int, count: int)
    requires forall j :: 0 <= j < |ids| ==> ids[j] in Ids(items)
    requires count < limit
    ensures |Picked(ids, key, ignore, items, limit, count)| <= limit - count
  {
    if ids != [] {
      if !Eligible(ids[0], key, ignore) {
        PickedBound(ids[1..], key, ignore, items, limit, count);
      } else if count + 1 != limit {
        PickedBound(ids[1..], key, ignore, items, limit, count + 1);
      }
    }
  }

  lemma {:induction false} PickedOrdered(ids: seq<UserId>, key: UserId -> int, ignore: seq<UsernameSearchResult>,
                                         items: seq<UsernameSearchResult>, limit: int, count: int)
    requires forall j :: 0 <= j < |ids| ==> ids[j] in Ids(items)
    requires SortedDesc(ids, key)
    ensures forall i :: 0 <= i < |Picked(ids, key, ignore, items, limit, count)| ==>
      Picked(ids, key, ignore, items, limit, count)[i].userId in ids
    ensures forall i, j :: 0 <= i < j < |Picked(ids, key, ignore, items, limit, count)| ==>
      key(Picked(ids, key, ignore, items, limit, count)[i].userId) >= key(Picked(ids, key, ignore, items, limit, count)[j].userId)
  {
    if ids != [] {
      var c := if Eligible(ids[0], key, ignore) then count + 1 else count;
      var rest := Picked(ids[1..], key, ignore, items, limit, c);
      PickedOrdered(ids[1..], key, ignore, items, limit, c);
      forall i | 0 <= i < |rest|
        ensures key(ids[0]) >= key(rest[i].userId)
      {
        var m :| 0 <= m < |ids[1..]| && ids[1..][m] == rest[i].userId;
        assert ids[m + 1] == rest[i].userId;
      }
    }
  }

  /** Nobody left out ranks above anybody picked: an eligible user that was
      not picked scores no more than every picked one. */
  lemma {:induction false} PickedTop(ids: seq<UserId>, key: UserId -> int, ignore: seq<UsernameSearchResult>,
                                     items: seq<UsernameSearchResult>, limit: int, count: int, id: UserId)
    requires forall j :: 0 <= j < |ids| ==> ids[j] in Ids(items)
    requires SortedDesc(ids, key)
    requires id in ids && Eligible(id, key, ignore)
    requires id !in Ids(Picked(ids, key, ignore, items, limit, count))
    ensures forall i :: 0 <= i < |Picked(ids, key, ignore, items, limit, count)| ==>
      key(Picked(ids, key, ignore, items, limit, count)[i].userId) >= key(id)
  {
    var r := Picked(ids, key, ignore, items, limit, count);
    var m :| 0 <= m < |ids| && ids[m] == id;
    if Eligible(ids[0], key, ignore) {
      assert r[0].userId == ids[0];
      assert Ids(r)[0] == ids[0];
      assert m != 0;
      assert ids[1..][m - 1] == id;
      if count + 1 != limit {
        var rest := Picked(ids[1..], key, ignore, items, limit, count + 1);
        assert r == [r[0]] + rest;
        assert Ids(r) == [r[0].userId] + Ids(rest);
        PickedTop(ids[1..], key, ignore, items, limit, count + 1, id);
      }
    } else {
      assert m != 0;
      assert ids[1..][m - 1] == id;
      PickedTop(ids[1..], key, ignore, items, limit, count, id);
    }
  }

  // `getTopContacts` as written: loops over contacts and their transactions.

  lemma IdsSnoc(rs: seq<UsernameSearchResult>, i: nat)
    requires i < |rs|
    ensures Ids(rs[..i + 1]) == Ids(rs[..i]) + [rs[i].userId]
  {
  }

  /** One step of the picking loop, at position `k`. */
  lemma PickedStep(ids: seq<UserId>, key: UserId -> int, ignore: seq<UsernameSearchResult>,
                   items: seq<UsernameSearchResult>, limit: int, count: int, k: nat)
    requires forall j :: 0 <= j < |ids| ==> ids[j] in Ids(items)
    requires k < |ids|
    ensures Picked(ids[k..], key, ignore, items, limit, count) ==
      if !Eligible(ids[k], key, ignore) then Picked(ids[k + 1..], key, ignore, items, limit, count)
      else if count + 1 == limit then [FindById(items, ids[k]).value]
      else [FindById(items, ids[k]).value] + Picked(ids[k + 1..], key, ignore, items, limit, count + 1)
  {
    assert ids[k..][0] == ids[k] && ids[k..][1..] == ids[k + 1..];
  }

  /** The scoring loop of `getTopContacts`: for each contact, counts the
      transactions that count and records the count under the contact's user
      id; the ids are listed in the contacts' order. */
  method ScoreContacts(contacts: seq<UsernameSearchResult>, ledger: Ledger, since: int, sent: bool)
    returns (contactScores: map<UserId, int>, contactIds: seq<UserId>)
    ensures contactIds == Ids(contacts)
    ensures forall id :: id in contactScores ==> contactScores[id] == Score(ledger(id), sent, since)
    ensures forall j :: 0 <= j < |contactIds| ==> contactIds[j] in contactScores
  {
    contactScores := map[];
    contactIds := [];
    for i := 0 to |contacts|
      invariant contactIds == Ids(contacts[..i])
      invariant forall id :: id in contactScores ==> contactScores[id] == Score(ledger(id), sent, since)
      invariant forall j :: 0 <= j < |contactIds| ==> contactIds[j] in contactScores
    {
      var transactions := ledger(contacts[i].userId);
      var count := 0;
      for j := 0 to |transactions|
        invariant count == Score(transactions[..j], sent, since)
      {
        var tx := transactions[j];
        assert transactions[..j + 1][..j] == transactions[..j];
        if (sent && tx.value < 0) || (!sent && tx.value > 0) {
          if tx.updateTime > since {
            count := count + 1;
          }
        }
      }
      assert transactions[..|transactions|] == transactions;
      contactScores := contactScores[contacts[i].userId := count];
      IdsSnoc(contacts, i);
      contactIds := contactIds + [contacts[i].userId];
    }
    assert contacts[..|contacts|] == contacts;
  }

  /** The picking loop of `getTopContacts`, over the ids sorted by score;
      `contactScores` holds each id's score `key(id)`. */
  method PickTop(contactIds: seq<UserId>, contactScores: map<UserId, int>, ignore: seq<UsernameSearchResult>,
                 items: seq<UsernameSearchResult>, ghost key: UserId -> int) returns (results: seq<UsernameSearchResult>)
    requires forall j :: 0 <= j < |contactIds| ==> contactIds[j] in Ids(items) && contactIds[j] in contactScores
    requires forall id :: id in contactScores ==> contactScores[id] == key(id)
    ensures results == Picked(contactIds, key, ignore, items, TOP_CONTACT_COUNT - |ignore|, 0)
  {
    results := [];
    var limit := TOP_CONTACT_COUNT - |ignore|;
    var count := 0;
    for k := 0 to |contactIds|
      invariant results + Picked(contactIds[k..], key, ignore, items, limit, count) == Picked(contactIds, key, ignore, items, limit, 0)
    {
      var id := contactIds[k];
      PickedStep(contactIds, key, ignore, items, limit, count, k);
      if contactScores[id] != 0 && !Mentions(ignore, id) {
        var found := FindById(items, id);
        results := results + [found.value];
        count := count + 1;
        if count == limit {
          break;
        }
      }
    }
  }

  /** `getTopContacts`: scores every established contact by its counted
      transactions, sorts the ids by score and picks. */
  method GetTopContacts(items: seq<UsernameSearchResult>, ignore: seq<UsernameSearchResult>,
                        ledger: Ledger, since: int, sent: bool) returns (results: seq<UsernameSearchResult>)
    ensures results == TopContacts(items, ignore, ledger, since, sent)
  {
    results := [];
    var contacts := Filter(items, IsContact);
    var contactScores, contactIds := ScoreContacts(contacts, ledger, since, sent);

    var byScore := id => if id in contactScores then contactScores[id] else 0;
    SortKeysAgree(contactIds, byScore, Scores(ledger, since, sent));
    SortDescSorted(contactIds, byScore);
    contactIds := SortDesc(contactIds, byScore);
    forall j | 0 <= j < |contactIds|
      ensures contactIds[j] in contactScores
    {
      assert contactIds[j] in multiset(Ids(contacts));
    }

    assert contactIds == RankedIds(items, ledger, since, sent);
    results := PickTop(contactIds, contactScores, ignore, items, Scores(ledger, since, sent));
  }

  // `getFrequentContacts`.

  /** The outcome of the contact search. */
  datatype Resource = Success(data: seq<UsernameSearchResult>) | Error(message: string) | Loading

  /** What is published: a resource, or nothing. */
  datatype Posting = Post(resource: Resource) | NoPost

  /** `getFrequentContacts` at time `now`, with the identity's ledger when there
      is an identity: a failed or pending search is passed on as it is; with no
      identity nothing is published; otherwise the contacts most paid, topped
      up with those who paid most when fewer than four were found. */
  function Frequent(search: Resource, identity: Option<Ledger>, now: int): (p: Posting)
    ensures p.NoPost? <==> search.Success? && identity.None?
    ensures !search.Success? ==> p == Post(search)
    ensures p.Post? && p.resource.Success? ==> search.Success? && identity.Some?
  {
    match search
    case Success(data) =>
      if identity.None? then NoPost
      else
        var since := now - TIMESPAN;
        var results := TopContacts(data, [], identity.value, since, true);
        if |results| < TOP_CONTACT_COUNT then
          Post(Success(results + TopContacts(data, results, identity.value, since, false)))
        else Post(Success(results))
    case _ => Post(search)
  }

  method GetFrequentContacts(search: Resource, identity: Option<Ledger>, now: int) returns (posting: Posting)
    ensures posting == Frequent(search, identity, now)
  {
    match search
    case Success(data) =>
      if identity.None? {
        return NoPost;
      }
      var threeMonthsAgo := now - TIMESPAN;
      var results := GetTopContacts(data, [], identity.value, threeMonthsAgo, true);
      if |results| < TOP_CONTACT_COUNT {
        var moreResults := GetTopContacts(data, results, identity.value, threeMonthsAgo, false);
        results := results + moreResults;
      }
      posting := Post(Success(results));
    case _ =>
      posting := Post(search);
  }

  // Properties of the ranking.

  /** Every result of `getTopContacts` is one of the items, scored above zero
      and not in `ignore`; there are at most `TOP_CONTACT_COUNT - |ignore|` of
      them; and their scores never increase down the list. */
  lemma TopContactsProperties(items: seq<UsernameSearchResult>, ignore: seq<UsernameSearchResult>,
                              ledger: Ledger, since: int, sent: bool)
    ensures forall r :: r in TopContacts(items, ignore, ledger, since, sent) ==>
      r in items && Score(ledger(r.userId), sent, since) > 0 && !Mentions(ignore, r.userId)
    ensures |ignore| < TOP_CONTACT_COUNT ==> |TopContacts(items, ignore, ledger, since, sent)| <= TOP_CONTACT_COUNT - |ignore|
    ensures forall i, j :: 0 <= i < j < |TopContacts(items, ignore, ledger, since, sent)| ==>
      Score(ledger(TopContacts(items, ignore, ledger, since, sent)[i].userId), sent, since) >=
      Score(ledger(TopContacts(items, ignore, ledger, since, sent)[j].userId), sent, since)
  {
    var ids := RankedIds(items, ledger, since, sent);
    var key := Scores(ledger, since, sent);
    var top := Picked(ids, key, ignore, items, TOP_CONTACT_COUNT - |ignore|, 0);
    assert TopContacts(items, ignore, ledger, since, sent) == top;
    PickedFacts(ids, key, ignore, items, TOP_CONTACT_COUNT - |ignore|);
  }

  /** What the picking loop guarantees from the start: the picked results are
      eligible items, in key order, and no more than the limit. */
  lemma PickedFacts(ids: seq<UserId>, key: UserId -> int, ignore: seq<UsernameSearchResult>,
                    items: seq<UsernameSearchResult>, limit: int)
    requires forall j :: 0 <= j < |ids| ==> ids[j] in Ids(items)
    requires SortedDesc(ids, key)
    ensures forall r :: r in Picked(ids, key, ignore, items, limit, 0) ==>
      r in items && key(r.userId) != 0 && !Mentions(ignore, r.userId)
    ensures forall i, j :: 0 <= i < j < |Picked(ids, key, ignore, items, limit, 0)| ==>
      key(Picked(ids, key, ignore, items, limit, 0)[i].userId) >= key(Picked(ids, key, ignore, items, limit, 0)[j].userId)
    ensures 0 < limit ==> |Picked(ids, key, ignore, items, limit, 0)| <= limit
  {
    var top := Picked(ids, key, ignore, items, limit, 0);
    PickedSound(ids, key, ignore, items, limit, 0);
    PickedOrdered(ids, key, ignore, items, limit, 0);
    forall r | r in top
      ensures r in items && key(r.userId) != 0 && !Mentions(ignore, r.userId)
    {
      var n :| 0 <= n < |top| && top[n] == r;
      assert Eligible(r.userId, key, ignore);
    }
    if 0 < limit {
      PickedBound(ids, key, ignore, items, limit, 0);
    }
  }

  /** Every established contact among the results is ranked. */
  lemma ContactRanked(items: seq<UsernameSearchResult>, ledger: Ledger, since: int, sent: bool, c: UsernameSearchResult)
    requires c in items && IsContact(c)
    ensures c.userId in RankedIds(items, ledger, since, sent)
  {
    var contacts := Filter(items, IsContact);
    var m :| 0 <= m < |contacts| && contacts[m] == c;
    assert Ids(contacts)[m] == c.userId;
    assert c.userId in multiset(RankedIds(items, ledger, since, sent));
  }

  /** A user none of the results belongs to is not among their ids. */
  lemma NotAmongIds(rs: seq<UsernameSearchResult>, id: UserId)
    requires forall r :: r in rs ==> r.userId != id
    ensures id !in Ids(rs)
  {
    forall n | 0 <= n < |rs|
      ensures Ids(rs)[n] != id
    {
      assert rs[n] in rs;
    }
  }

  /** The ranking really is a top list: an established contact with a
      positive score who is neither ignored nor picked scores no more than any
      picked one. */
  lemma TopContactsAreTop(items: seq<UsernameSearchResult>, ignore: seq<UsernameSearchResult>,
                          ledger: Ledger, since: int, sent: bool, c: UsernameSearchResult)
    requires c in items && IsContact(c)
    requires Score(ledger(c.userId), sent, since) > 0 && !Mentions(ignore, c.userId)
    requires forall r :: r in TopContacts(items, ignore, ledger, since, sent) ==> r.userId != c.userId
    ensures forall r :: r in TopContacts(items, ignore, ledger, since, sent) ==>
      Score(ledger(r.userId), sent, since) >= Score(ledger(c.userId), sent, since)
  {
    ContactRanked(items, ledger, since, sent, c);
    assert Eligible(c.userId, Scores(ledger, since, sent), ignore);
    TopContactsAbove(items, ignore, ledger, since, sent, c.userId);
    ScoresAbove(TopContacts(items, ignore, ledger, since, sent), ledger, since, sent, c.userId);
  }

  lemma TopContactsAbove(items: seq<UsernameSearchResult>, ignore: seq<UsernameSearchResult>,
                         ledger: Ledger, since: int, sent: bool, id: UserId)
    requires id in RankedIds(items, ledger, since, sent) && Eligible(id, Scores(ledger, since, sent), ignore)
    requires forall r :: r in TopContacts(items, ignore, ledger, since, sent) ==> r.userId != id
    ensures forall r :: r in TopContacts(items, ignore, ledger, since, sent) ==>
      Scores(ledger, since, sent)(r.userId) >= Scores(ledger, since, sent)(id)
  {
    TopContactsPick(items, ignore, ledger, since, sent);
    PickedAbove(RankedIds(items, ledger, since, sent), Scores(ledger, since, sent), ignore, items,
                TOP_CONTACT_COUNT - |ignore|, id);
  }

  lemma TopContactsPick(items: seq<UsernameSearchResult>, ignore: seq<UsernameSearchResult>,
                        ledger: Ledger, since: int, sent: bool)
    ensures TopContacts(items, ignore, ledger, since, sent) ==
      Picked(RankedIds(items, ledger, since, sent), Scores(ledger, since, sent), ignore, items, TOP_CONTACT_COUNT - |ignore|, 0)
  {
  }

  lemma ScoresAbove(top: seq<UsernameSearchResult>, ledger: Ledger, since: int, sent: bool, id: UserId)
    requires forall r :: r in top ==> Scores(ledger, since, sent)(r.userId) >= Scores(ledger, since, sent)(id)
    ensures forall r :: r in top ==> Score(ledger(r.userId), sent, since) >= Score(ledger(id), sent, since)
  {
  }

  /** An eligible user the picking loop passed over has a key no greater than
      any picked one. */
  lemma PickedAbove(ids: seq<UserId>, key: UserId -> int, ignore: seq<UsernameSearchResult>,
                    items: seq<UsernameSearchResult>, limit: int, id: UserId)
    requires forall j :: 0 <= j < |ids| ==> ids[j] in Ids(items)
    requires SortedDesc(ids, key)
    requires id in ids && Eligible(id, key, ignore)
    requires forall r :: r in Picked(ids, key, ignore, items, limit, 0) ==> r.userId != id
    ensures forall r :: r in Picked(ids, key, ignore, items, limit, 0) ==> key(r.userId) >= key(id)
  {
    var top := Picked(ids, key, ignore, items, limit, 0);
    NotAmongIds(top, id);
    PickedTop(ids, key, ignore, items, limit, 0, id);
    forall r | r in top
      ensures key(r.userId) >= key(id)
    {
      var n :| 0 <= n < |top| && top[n] == r;
    }
  }

  /** What `getFrequentContacts` publishes after a successful search: at most
      four results, each one of the search results with a counted
      transaction, and no user twice across the two passes. */
  lemma FrequentProperties(data: seq<UsernameSearchResult>, ledger: Ledger, now: int)
    ensures Frequent(Success(data), Some(ledger), now).Post?
    ensures Frequent(Success(data), Some(ledger), now).resource.Success?
    ensures |Frequent(Success(data), Some(ledger), now).resource.data| <= TOP_CONTACT_COUNT
    ensures forall r :: r in Frequent(Success(data), Some(ledger), now).resource.data ==>
      r in data && (Score(ledger(r.userId), true, now - TIMESPAN) > 0 || Score(ledger(r.userId), false, now - TIMESPAN) > 0)
  {
    var since := now - TIMESPAN;
    var first := TopContacts(data, [], ledger, since, true);
    TopContactsProperties(data, [], ledger, since, true);
    if |first| < TOP_CONTACT_COUNT {
      TopContactsProperties(data, first, ledger, since, false);
      var more := TopContacts(data, first, ledger, since, false);
    }
  }

  /** `a` can be read off `b` by dropping elements: `a` keeps `b`'s order. */
  predicate IsSubseq<T(==)>(a: seq<T>, b: seq<T>)
    decreases |b|
  {
    a == [] || (b != [] && ((a[0] == b[0] && IsSubseq(a[1..], b[1..])) || IsSubseq(a, b[1..])))
  }

  /** The picking loop takes users in the order of the ranking, skipping some. */
  lemma {:induction false} PickedSubseq(ids: seq<UserId>, key: UserId -> int, ignore: seq<UsernameSearchResult>,
                                        items: seq<UsernameSearchResult>, limit: int, count: int)
    requires forall j :: 0 <= j < |ids| ==> ids[j] in Ids(items)
    ensures IsSubseq(Ids(Picked(ids, key, ignore, items, limit, count)), ids)
  {
    if ids != [] {
      var r := Picked(ids, key, ignore, items, limit, count);
      if Eligible(ids[0], key, ignore) {
        var item := FindById(items, ids[0]).value;
        if count + 1 == limit {
          assert Ids(r) == [ids[0]];
          assert Ids(r)[1..] == [];
        } else {
          var rest := Picked(ids[1..], key, ignore, items, limit, count + 1);
          PickedSubseq(ids[1..], key, ignore, items, limit, count + 1);
          assert r == [item] + rest;
          assert Ids(r)[0] == ids[0] && Ids(r)[1..] == Ids(rest);
        }
      } else {
        PickedSubseq(ids[1..], key, ignore, items, limit, count);
      }
    }
  }

  /** Keeping one key class of both sides keeps a subsequence a subsequence. */
  lemma {:induction false} SubseqKeyClass<T>(a: seq<T>, b: seq<T>, key: T -> int, k: int)
    requires IsSubseq(a, b)
    ensures IsSubseq(KeyClass(a, key, k), KeyClass(b, key, k))
    decreases |b|
  {
    if a != [] {
      var hb := if key(b[0]) == k then [b[0]] else [];
      assert KeyClass(b, key, k) == hb + KeyClass(b[1..], key, k);
      if a[0] == b[0] && IsSubseq(a[1..], b[1..]) {
        SubseqKeyClass(a[1..], b[1..], key, k);
        var ka, kb := KeyClass(a[1..], key, k), KeyClass(b[1..], key, k);
        assert KeyClass(a, key, k) == hb + ka;
        if key(b[0]) == k {
          assert (hb + ka)[0] == b[0] && (hb + ka)[1..] == ka;
          assert (hb + kb)[0] == b[0] && (hb + kb)[1..] == kb;
        } else {
          assert hb + ka == ka && hb + kb == kb;
        }
      } else {
        SubseqKeyClass(a, b[1..], key, k);
        var kb := KeyClass(b[1..], key, k);
        if key(b[0]) == k {
          assert (hb + kb)[1..] == kb;
        } else {
          assert hb + kb == kb;
        }
      }
    }
  }

  /** Ties keep the order of the search results: the top contacts are taken
      in ranking order, and among those with the same score the ranking
      keeps the order in which the contacts came (Kotlin's sort is stable). */
  lemma TopContactsTiesKeepOrder(items: seq<UsernameSearchResult>, ignore: seq<UsernameSearchResult>,
                                 ledger: Ledger, since: int, sent: bool, k: int)
    ensures IsSubseq(Ids(TopContacts(items, ignore, ledger, since, sent)), RankedIds(items, ledger, since, sent))
    ensures IsSubseq(KeyClass(Ids(TopContacts(items, ignore, ledger, since, sent)), Scores(ledger, since, sent), k),
                     KeyClass(Ids(Filter(items, IsContact)), Scores(ledger, since, sent), k))
  {
    TopContactsSubseq(items, ignore, ledger, since, sent);
    RankedIdsSorted(items, ledger, since, sent);
    SubseqOfStableSort(Ids(TopContacts(items, ignore, ledger, since, sent)), Ids(Filter(items, IsContact)),
                       Scores(ledger, since, sent), k);
  }

  lemma TopContactsSubseq(items: seq<UsernameSearchResult>, ignore: seq<UsernameSearchResult>,
                          ledger: Ledger, since: int, sent: bool)
    ensures IsSubseq(Ids(TopContacts(items, ignore, ledger, since, sent)), RankedIds(items, ledger, since, sent))
  {
    TopContactsPick(items, ignore, ledger, since, sent);
    PickedListSubseq(TopContacts(items, ignore, ledger, since, sent), RankedIds(items, ledger, since, sent),
                     Scores(ledger, since, sent), ignore, items, TOP_CONTACT_COUNT - |ignore|);
  }

  lemma PickedListSubseq(top: seq<UsernameSearchResult>, ids: seq<UserId>, key: UserId -> int,
                         ignore: seq<UsernameSearchResult>, items: seq<UsernameSearchResult>, limit: int)
    requires forall j :: 0 <= j < |ids| ==> ids[j] in Ids(items)
    requires top == Picked(ids, key, ignore, items, limit, 0)
    ensures IsSubseq(Ids(top), ids)
  {
    PickedSubseq(ids, key, ignore, items, limit, 0);
  }

  lemma RankedIdsSorted(items: seq<UsernameSearchResult>, ledger: Ledger, since: int, sent: bool)
    ensures RankedIds(items, ledger, since, sent) == SortDesc(Ids(Filter(items, IsContact)), Scores(ledger, since, sent))
  {
  }

  /** A subsequence of a stably sorted list keeps, within each key class, the
      order of the unsorted list. */
  lemma SubseqOfStableSort<T>(a: seq<T>, s: seq<T>, key: T -> int, k: int)
    requires IsSubseq(a, SortDesc(s, key))
    ensures IsSubseq(KeyClass(a, key, k), KeyClass(s, key, k))
  {
    SubseqKeyClass(a, SortDesc(s, key), key, k);
    SortDescStable(s, key, k);
  }

  /** The second pass adds nobody the first pass already found. */
  lemma SecondPassDisjoint(data: seq<UsernameSearchResult>, ledger: Ledger, since: int)
    ensures forall a, b :: a in TopContacts(data, [], ledger, since, true) &&
                           b in TopContacts(data, TopContacts(data, [], ledger, since, true), ledger, since, false) ==>
      a.userId != b.userId
  {
    var first := TopContacts(data, [], ledger, since, true);
    TopContactsProperties(data, first, ledger, since, false);
    forall a, b | a in first && b in TopContacts(data, first, ledger, since, false)
      ensures a.userId != b.userId
    {
      var i :| 0 <= i < |first| && first[i] == a;
    }
  }
}
