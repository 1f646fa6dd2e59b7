/**
 * The contacts screen: how search results become the rows of the list
 * (pending requests first, then established contacts), and the single
 * "accept request" that may be in flight at a time.
 */
module Contacts {
  import opened Wrappers
  import opened SearchResults

  const MODE_SEARCH_CONTACTS := 0
  const MODE_SELECT_CONTACT := 1
  const MODE_VIEW_REQUESTS := 2

  /** The most request rows shown outside the requests-only mode. */
  const MAX_SHOWN_REQUESTS := 3

  /** A row of the list: a section header or a search result. */
  datatype ViewItem =
    | RequestHeader(requestCount: nat)
    | RequestRow(result: UsernameSearchResult)
    | ContactHeader
    | ContactRow(result: UsernameSearchResult)

  predicate IsPending(r: UsernameSearchResult)
  {
    r.isPendingRequest
  }

  /** Kotlin's `indexOf(element)` on an element that is present: the position
      of its first occurrence. */
  function IndexOf(s: seq<UsernameSearchResult>, x: UsernameSearchResult): (i: nat)
    requires x in s
    ensures i < |s| && s[i] == x && x !in s[..i]
  {
    if s[0] == x then 0
    else
      var j := IndexOf(s[1..], x);
      assert s[..j + 1] == [s[0]] + s[1..][..j];
      j + 1
  }

  /** Kotlin's `remove(element)`: drops the FIRST element equal to `x` and
      keeps the others in order. */
  function RemoveFirst(s: seq<UsernameSearchResult>, x: UsernameSearchResult): (r: seq<UsernameSearchResult>)
    requires x in s
    ensures r == s[..IndexOf(s, x)] + s[IndexOf(s, x) + 1..]
    ensures |r| == |s| - 1
    ensures multiset(r) == multiset(s) - multiset{x}
  {
    var i := IndexOf(s, x);
    assert s == s[..i] + [x] + s[i + 1..];
    s[..i] + s[i + 1..]
  }

  /** The truncation loop of `processResults` as written: while more than three
      requests remain, remove the element equal to the last one. */
  function Truncated(requests: seq<UsernameSearchResult>): (r: seq<UsernameSearchResult>)
    ensures |r| == if |requests| > MAX_SHOWN_REQUESTS then MAX_SHOWN_REQUESTS else |requests|
    ensures multiset(r) <= multiset(requests)
    decreases |requests|
  {
    if |requests| > MAX_SHOWN_REQUESTS then Truncated(RemoveFirst(requests, requests[|requests| - 1]))
    else requests
  }

  /** The truncation evidently meant: drop the last element while more than
      three remain. */
  function TruncatedFromEnd(requests: seq<UsernameSearchResult>): (r: seq<UsernameSearchResult>)
    ensures r == requests[..if |requests| > MAX_SHOWN_REQUESTS then MAX_SHOWN_REQUESTS else |requests|]
    decreases |requests|
  {
    if |requests| > MAX_SHOWN_REQUESTS then TruncatedFromEnd(requests[..|requests| - 1])
    else requests
  }

  predicate NoDuplicates(s: seq<UsernameSearchResult>)
  {
    forall i, j :: 0 <= i < j < |s| ==> s[i] != s[j]
  }

  /** Without repeated requests, the truncation as written keeps the first
      three in their order. */
  lemma {:induction false} TruncatedKeepsFirstThree(requests: seq<UsernameSearchResult>)
    requires NoDuplicates(requests)
    ensures Truncated(requests) == TruncatedFromEnd(requests)
    decreases |requests|
  {
    if |requests| > MAX_SHOWN_REQUESTS {
      var init := requests[..|requests| - 1];
      RemoveLastUnique(requests);
      TruncatedDropsLast(requests);
      NoDuplicatesInit(requests);
      TruncatedKeepsFirstThree(init);
    }
  }

  /** One round of the truncation loop, when it removes the last element. */
  lemma TruncatedDropsLast(requests: seq<UsernameSearchResult>)
    requires |requests| > MAX_SHOWN_REQUESTS
    requires RemoveFirst(requests, requests[|requests| - 1]) == requests[..|requests| - 1]
    ensures Truncated(requests) == Truncated(requests[..|requests| - 1])
  {
  }

  /** Dropping the last element keeps the elements distinct. */
  lemma NoDuplicatesInit(s: seq<UsernameSearchResult>)
    requires |s| > 0 && NoDuplicates(s)
    ensures NoDuplicates(s[..|s| - 1])
  {
    var init := s[..|s| - 1];
    forall i, j | 0 <= i < j < |init|
      ensures init[i] != init[j]
    {
      assert init[i] == s[i] && init[j] == s[j];
    }
  }

  /** When the last element occurs once, removing it by value removes the last. */
  lemma RemoveLastUnique(s: seq<UsernameSearchResult>)
    requires |s| > 0 && NoDuplicates(s)
    ensures RemoveFirst(s, s[|s| - 1]) == s[..|s| - 1]
  {
    var i := IndexOf(s, s[|s| - 1]);
    assert i == |s| - 1 by {
      if i < |s| - 1 {
        assert false;
      }
    }
    assert s[i + 1..] == [];
  }

  /** With a repeated request the truncation as written does not keep the
      first three: `[a, b, c, a]` becomes `[b, c, a]`. */
  lemma TruncatedWithRepeat(a: UsernameSearchResult, b: UsernameSearchResult, c: UsernameSearchResult)
    requires a != b && a != c && b != c
    ensures Truncated([a, b, c, a]) == [b, c, a]
    ensures TruncatedFromEnd([a, b, c, a]) == [a, b, c]
  {
    var s := [a, b, c, a];
    assert IndexOf(s, s[3]) == 0;
    assert RemoveFirst(s, s[3]) == [b, c, a];
    assert TruncatedFromEnd(s) == TruncatedFromEnd(s[..3]);
  }

  /** One round of the truncation loop. */
  lemma TruncatedStep(s: seq<UsernameSearchResult>)
    requires |s| > MAX_SHOWN_REQUESTS
    ensures Truncated(s) == Truncated(RemoveFirst(s, s[|s| - 1]))
  {
  }

  /** When the last element also comes first, `remove` takes the first one. */
  lemma RemoveRepeatedHead(s: seq<UsernameSearchResult>)
    requires |s| > 1 && s[0] == s[|s| - 1]
    ensures RemoveFirst(s, s[|s| - 1]) == s[1..]
  {
    assert IndexOf(s, s[|s| - 1]) == 0;
  }

  /** When the last element occurs nowhere before, `remove` takes the last one. */
  lemma RemoveFreshLast(s: seq<UsernameSearchResult>)
    requires |s| > 0 && s[|s| - 1] !in s[..|s| - 1]
    ensures RemoveFirst(s, s[|s| - 1]) == s[..|s| - 1]
  {
    var i := IndexOf(s, s[|s| - 1]);
    assert i == |s| - 1 by {
      if i < |s| - 1 {
        assert false;
      }
    }
    assert s[i + 1..] == [];
  }

  /** Four requests whose last one is new lose that last one. */
  lemma TruncatedFreshFour(t: seq<UsernameSearchResult>)
    requires |t| == 4 && t[3] !in t[..3]
    ensures Truncated(t) == t[..3]
  {
    TruncatedStep(t);
    RemoveFreshLast(t);
    assert |t[..3]| == MAX_SHOWN_REQUESTS;
  }

  /** A first round that removes the head. */
  lemma TruncatedSkipsHead(s: seq<UsernameSearchResult>)
    requires |s| > MAX_SHOWN_REQUESTS && s[0] == s[|s| - 1]
    ensures Truncated(s) == Truncated(s[1..])
  {
    TruncatedStep(s);
    RemoveRepeatedHead(s);
  }

  /** After the head is gone, the last of four is new and is dropped. */
  lemma TruncatedTail(s: seq<UsernameSearchResult>)
    requires |s| == 5 && s[4] !in s[1..4]
    ensures Truncated(s[1..]) == s[1..4]
  {
    var t := s[1..];
    assert t[..3] == s[1..4];
    assert t[3] == s[4];
    TruncatedFreshFour(t);
  }

  /** A request listed twice can vanish altogether: `[a, b, c, d, a]`, with
      `a` none of `b`, `c`, `d`, becomes `[b, c, d]`, so `a` is not shown
      while the fourth request `d` is; keeping the first three would show
      `[a, b, c]`. */
  lemma TruncatedHidesRepeated(s: seq<UsernameSearchResult>)
    requires |s| == 5 && s[4] == s[0] && s[0] !in s[1..4]
    ensures Truncated(s) == s[1..4]
    ensures s[0] !in Truncated(s)
    ensures TruncatedFromEnd(s) == s[..3]
  {
    // the first round's `remove(a)` takes the leading `a`; the second the last
    TruncatedSkipsHead(s);
    TruncatedTail(s);
  }

  function RequestRows(rs: seq<UsernameSearchResult>): seq<ViewItem>
  {
    seq(|rs|, i requires 0 <= i < |rs| => RequestRow(rs[i]))
  }

  function ContactRows(cs: seq<UsernameSearchResult>): seq<ViewItem>
  {
    seq(|cs|, i requires 0 <= i < |cs| => ContactRow(cs[i]))
  }

  /** The requests `processResults` collects before truncating. */
  function PendingRequests(data: seq<UsernameSearchResult>, mode: int): seq<UsernameSearchResult>
  {
    if mode != MODE_SELECT_CONTACT then Filter(data, IsPending) else []
  }

  /** The requests `processResults` lists. */
  function ShownRequests(data: seq<UsernameSearchResult>, mode: int): (r: seq<UsernameSearchResult>)
    ensures mode != MODE_VIEW_REQUESTS ==> |r| <= MAX_SHOWN_REQUESTS
    ensures mode == MODE_VIEW_REQUESTS ==> r == PendingRequests(data, mode)
    ensures multiset(r) <= multiset(PendingRequests(data, mode))
  {
    var requests := PendingRequests(data, mode);
    if mode != MODE_VIEW_REQUESTS then Truncated(requests) else requests
  }

  /** The contacts `processResults` lists. */
  function ShownContacts(data: seq<UsernameSearchResult>, mode: int): seq<UsernameSearchResult>
  {
    if mode != MODE_VIEW_REQUESTS then Filter(data, IsContact) else []
  }

  /** The request header `processResults` adds, with its count, if any. */
  function RequestHeaderCount(data: seq<UsernameSearchResult>, mode: int): Option<nat>
  {
    if ShownRequests(data, mode) != [] && mode != MODE_VIEW_REQUESTS then Some(|PendingRequests(data, mode)|) else None
  }

  /** Rows made of an optional request header, request rows, and contact rows
      under a header when there are any. */
  function Sections(header: Option<nat>, requests: seq<UsernameSearchResult>, contacts: seq<UsernameSearchResult>)
    : (rows: seq<ViewItem>)
    ensures |rows| == (if header.Some? then 1 else 0) + |requests| + (if contacts != [] then 1 else 0) + |contacts|
    ensures header.Some? ==> rows[0] == RequestHeader(header.value)
    ensures header.None? && requests != [] ==> rows[0] == RequestRow(requests[0])
  {
    (if header.Some? then [RequestHeader(header.value)] else [])
    + RequestRows(requests)
    + (if contacts != [] then [ContactHeader] else [])
    + ContactRows(contacts)
  }

  /** The rows `processResults` hands to the adapter. */
  function Layout(data: seq<UsernameSearchResult>, mode: int): (rows: seq<ViewItem>)
    ensures |rows| == (if RequestHeaderCount(data, mode).Some? then 1 else 0) + |ShownRequests(data, mode)|
                      + (if ShownContacts(data, mode) != [] then 1 else 0) + |ShownContacts(data, mode)|
    ensures mode != MODE_VIEW_REQUESTS && ShownRequests(data, mode) != [] ==>
      rows[0] == RequestHeader(|PendingRequests(data, mode)|)
  {
    Sections(RequestHeaderCount(data, mode), ShownRequests(data, mode), ShownContacts(data, mode))
  }

  // What a list of rows shows, section by section.

  function RequestsIn(rows: seq<ViewItem>): seq<UsernameSearchResult>
  {
    if rows == [] then []
    else (if rows[0].RequestRow? then [rows[0].result] else []) + RequestsIn(rows[1..])
  }

  function ContactsIn(rows: seq<ViewItem>): seq<UsernameSearchResult>
  {
    if rows == [] then []
    else (if rows[0].ContactRow? then [rows[0].result] else []) + ContactsIn(rows[1..])
  }

  function RequestHeadersIn(rows: seq<ViewItem>): seq<nat>
  {
    if rows == [] then []
    else (if rows[0].RequestHeader? then [rows[0].requestCount] else []) + RequestHeadersIn(rows[1..])
  }

  function ContactHeadersIn(rows: seq<ViewItem>): nat
  {
    if rows == [] then 0
    else (if rows[0].ContactHeader? then 1 else 0) + ContactHeadersIn(rows[1..])
  }

  lemma {:induction false} RequestsConcat(a: seq<ViewItem>, b: seq<ViewItem>)
    ensures RequestsIn(a + b) == RequestsIn(a) + RequestsIn(b)
  {
    if a == [] {
      assert a + b == b;
    } else {
      assert (a + b)[0] == a[0] && (a + b)[1..] == a[1..] + b;
      RequestsConcat(a[1..], b);
    }
  }

  lemma {:induction false} ContactsConcat(a: seq<ViewItem>, b: seq<ViewItem>)
    ensures ContactsIn(a + b) == ContactsIn(a) + ContactsIn(b)
  {
    if a == [] {
      assert a + b == b;
    } else {
      assert (a + b)[0] == a[0] && (a + b)[1..] == a[1..] + b;
      ContactsConcat(a[1..], b);
    }
  }

  lemma {:induction false} RequestHeadersConcat(a: seq<ViewItem>, b: seq<ViewItem>)
    ensures RequestHeadersIn(a + b) == RequestHeadersIn(a) + RequestHeadersIn(b)
  {
    if a == [] {
      assert a + b == b;
    } else {
      assert (a + b)[0] == a[0] && (a + b)[1..] == a[1..] + b;
      RequestHeadersConcat(a[1..], b);
    }
  }

  lemma {:induction false} ContactHeadersConcat(a: seq<ViewItem>, b: seq<ViewItem>)
    ensures ContactHeadersIn(a + b) == ContactHeadersIn(a) + ContactHeadersIn(b)
  {
    if a == [] {
      assert a + b == b;
    } else {
      assert (a + b)[0] == a[0] && (a + b)[1..] == a[1..] + b;
      ContactHeadersConcat(a[1..], b);
    }
  }

  lemma {:induction false} SectionsOfRequestRows(rs: seq<UsernameSearchResult>)
    ensures RequestsIn(RequestRows(rs)) == rs && ContactsIn(RequestRows(rs)) == []
    ensures RequestHeadersIn(RequestRows(rs)) == [] && ContactHeadersIn(RequestRows(rs)) == 0
  {
    if rs != [] {
      assert RequestRows(rs)[1..] == RequestRows(rs[1..]);
      SectionsOfRequestRows(rs[1..]);
    }
  }

  lemma {:induction false} SectionsOfContactRows(cs: seq<UsernameSearchResult>)
    ensures ContactsIn(ContactRows(cs)) == cs && RequestsIn(ContactRows(cs)) == []
    ensures RequestHeadersIn(ContactRows(cs)) == [] && ContactHeadersIn(ContactRows(cs)) == 0
  {
    if cs != [] {
      assert ContactRows(cs)[1..] == ContactRows(cs[1..]);
      SectionsOfContactRows(cs[1..]);
    }
  }

  lemma RequestsReadBack(header: Option<nat>, requests: seq<UsernameSearchResult>, contacts: seq<UsernameSearchResult>)
    ensures RequestsIn(Sections(header, requests, contacts)) == requests
  {
    var h1: seq<ViewItem> := if header.Some? then [RequestHeader(header.value)] else [];
    var h2: seq<ViewItem> := if contacts != [] then [ContactHeader] else [];
    assert h1 == [] || h1[1..] == [];
    assert h2 == [] || h2[1..] == [];
    RequestsConcat(h1, RequestRows(requests));
    RequestsConcat(h1 + RequestRows(requests), h2);
    RequestsConcat(h1 + RequestRows(requests) + h2, ContactRows(contacts));
    SectionsOfRequestRows(requests);
    SectionsOfContactRows(contacts);
  }

  lemma ContactsReadBack(header: Option<nat>, requests: seq<UsernameSearchResult>, contacts: seq<UsernameSearchResult>)
    ensures ContactsIn(Sections(header, requests, contacts)) == contacts
  {
    var h1: seq<ViewItem> := if header.Some? then [RequestHeader(header.value)] else [];
    var h2: seq<ViewItem> := if contacts != [] then [ContactHeader] else [];
    assert h1 == [] || h1[1..] == [];
    assert h2 == [] || h2[1..] == [];
    ContactsConcat(h1, RequestRows(requests));
    ContactsConcat(h1 + RequestRows(requests), h2);
    ContactsConcat(h1 + RequestRows(requests) + h2, ContactRows(contacts));
    SectionsOfRequestRows(requests);
    SectionsOfContactRows(contacts);
  }

  lemma RequestHeadersReadBack(header: Option<nat>, requests: seq<UsernameSearchResult>, contacts: seq<UsernameSearchResult>)
    ensures RequestHeadersIn(Sections(header, requests, contacts)) == if header.Some? then [header.value] else []
  {
    var h1: seq<ViewItem> := if header.Some? then [RequestHeader(header.value)] else [];
    var h2: seq<ViewItem> := if contacts != [] then [ContactHeader] else [];
    assert h1 == [] || h1[1..] == [];
    assert h2 == [] || h2[1..] == [];
    RequestHeadersConcat(h1, RequestRows(requests));
    RequestHeadersConcat(h1 + RequestRows(requests), h2);
    RequestHeadersConcat(h1 + RequestRows(requests) + h2, ContactRows(contacts));
    SectionsOfRequestRows(requests);
    SectionsOfContactRows(contacts);
  }

  lemma ContactHeadersReadBack(header: Option<nat>, requests: seq<UsernameSearchResult>, contacts: seq<UsernameSearchResult>)
    ensures ContactHeadersIn(Sections(header, requests, contacts)) == if contacts != [] then 1 else 0
  {
    var h1: seq<ViewItem> := if header.Some? then [RequestHeader(header.value)] else [];
    var h2: seq<ViewItem> := if contacts != [] then [ContactHeader] else [];
    assert h1 == [] || h1[1..] == [];
    assert h2 == [] || h2[1..] == [];
    ContactHeadersConcat(h1, RequestRows(requests));
    ContactHeadersConcat(h1 + RequestRows(requests), h2);
    ContactHeadersConcat(h1 + RequestRows(requests) + h2, ContactRows(contacts));
    SectionsOfRequestRows(requests);
    SectionsOfContactRows(contacts);
  }

  /** Reading the sections back from rows built by `Sections`. */
  lemma SectionsReadBack(header: Option<nat>, requests: seq<UsernameSearchResult>, contacts: seq<UsernameSearchResult>)
    ensures RequestsIn(Sections(header, requests, contacts)) == requests
    ensures ContactsIn(Sections(header, requests, contacts)) == contacts
    ensures RequestHeadersIn(Sections(header, requests, contacts)) == if header.Some? then [header.value] else []
    ensures ContactHeadersIn(Sections(header, requests, contacts)) == if contacts != [] then 1 else 0
  {
    RequestsReadBack(header, requests, contacts);
    ContactsReadBack(header, requests, contacts);
    RequestHeadersReadBack(header, requests, contacts);
    ContactHeadersReadBack(header, requests, contacts);
  }

  /** The sections of the list, read back from its rows: the listed requests
      under at most one request header that carries the count before
      truncation, then the listed contacts under a contact header exactly when
      there are any. */
  lemma LayoutSections(data: seq<UsernameSearchResult>, mode: int)
    ensures RequestsIn(Layout(data, mode)) == ShownRequests(data, mode)
    ensures ContactsIn(Layout(data, mode)) == ShownContacts(data, mode)
    ensures RequestHeadersIn(Layout(data, mode)) ==
      if ShownRequests(data, mode) != [] && mode != MODE_VIEW_REQUESTS then [|PendingRequests(data, mode)|] else []
    ensures ContactHeadersIn(Layout(data, mode)) == if ShownContacts(data, mode) != [] then 1 else 0
  {
    SectionsReadBack(RequestHeaderCount(data, mode), ShownRequests(data, mode), ShownContacts(data, mode));
  }

  /** When picking a contact to pay, no request or request header is listed. */
  lemma SelectModeListsNoRequests(data: seq<UsernameSearchResult>)
    ensures RequestsIn(Layout(data, MODE_SELECT_CONTACT)) == []
    ensures RequestHeadersIn(Layout(data, MODE_SELECT_CONTACT)) == []
  {
    LayoutSections(data, MODE_SELECT_CONTACT);
  }

  /** Outside the requests-only mode at most three requests are listed, and
      when no request repeats they are the first three pending ones. */
  lemma AtMostThreeRequests(data: seq<UsernameSearchResult>, mode: int)
    requires mode != MODE_VIEW_REQUESTS
    ensures |RequestsIn(Layout(data, mode))| <= MAX_SHOWN_REQUESTS
    ensures NoDuplicates(PendingRequests(data, mode)) ==>
      RequestsIn(Layout(data, mode)) == TruncatedFromEnd(PendingRequests(data, mode))
  {
    LayoutSections(data, mode);
    if NoDuplicates(PendingRequests(data, mode)) {
      TruncatedKeepsFirstThree(PendingRequests(data, mode));
    }
  }

  /** In the requests-only mode the list is every pending request and nothing
      else: no header and no contacts. */
  lemma ViewRequestsListsAllPending(data: seq<UsernameSearchResult>)
    ensures Layout(data, MODE_VIEW_REQUESTS) == RequestRows(Filter(data, IsPending))
  {
  }

  /** Contact rows are exactly the established contacts, in input order, under
      one header when there is at least one. */
  lemma ContactSection(data: seq<UsernameSearchResult>, mode: int)
    requires mode != MODE_VIEW_REQUESTS
    ensures ContactsIn(Layout(data, mode)) == Filter(data, IsContact)
    ensures ContactHeadersIn(Layout(data, mode)) == if exists r :: r in data && IsContact(r) then 1 else 0
  {
    var contacts := ShownContacts(data, mode);
    assert contacts == Filter(data, IsContact);
    ContactsReadBack(RequestHeaderCount(data, mode), ShownRequests(data, mode), contacts);
    ContactHeadersReadBack(RequestHeaderCount(data, mode), ShownRequests(data, mode), contacts);
    AnyContactIff(data);
  }

  lemma AnyContactIff(data: seq<UsernameSearchResult>)
    ensures Filter(data, IsContact) != [] <==> exists r :: r in data && IsContact(r)
  {
    if exists r :: r in data && IsContact(r) {
      var r :| r in data && IsContact(r);
      assert r in Filter(data, IsContact);
    }
  }

  predicate IsRequestItem(item: ViewItem)
  {
    item.RequestHeader? || item.RequestRow?
  }

  predicate IsContactItem(item: ViewItem)
  {
    item.ContactHeader? || item.ContactRow?
  }

  /** In rows built by `Sections`, requests come before contacts. */
  lemma SectionsOrdered(header: Option<nat>, requests: seq<UsernameSearchResult>, contacts: seq<UsernameSearchResult>)
    ensures forall i, j :: 0 <= i < j < |Sections(header, requests, contacts)| && IsContactItem(Sections(header, requests, contacts)[i]) ==>
      !IsRequestItem(Sections(header, requests, contacts)[j])
  {
    var h1: seq<ViewItem> := if header.Some? then [RequestHeader(header.value)] else [];
    var h2: seq<ViewItem> := if contacts != [] then [ContactHeader] else [];
    var front := h1 + RequestRows(requests);
    var back := h2 + ContactRows(contacts);
    assert Sections(header, requests, contacts) == front + back;
    assert forall i :: 0 <= i < |front| ==> IsRequestItem(front[i]);
    assert forall i :: 0 <= i < |back| ==> IsContactItem(back[i]);
  }

  /** Every request row and header comes before every contact row and header. */
  lemma RequestsPrecedeContacts(data: seq<UsernameSearchResult>, mode: int)
    ensures forall i, j :: 0 <= i < j < |Layout(data, mode)| && IsContactItem(Layout(data, mode)[i]) ==>
      !IsRequestItem(Layout(data, mode)[j])
  {
    SectionsOrdered(RequestHeaderCount(data, mode), ShownRequests(data, mode), ShownContacts(data, mode));
  }

  lemma RequestRowsSnoc(rs: seq<UsernameSearchResult>, i: nat)
    requires i < |rs|
    ensures RequestRows(rs[..i + 1]) == RequestRows(rs[..i]) + [RequestRow(rs[i])]
  {
  }

  lemma ContactRowsSnoc(cs: seq<UsernameSearchResult>, i: nat)
    requires i < |cs|
    ensures ContactRows(cs[..i + 1]) == ContactRows(cs[..i]) + [ContactRow(cs[i])]
  {
  }

  /** The first half of `processResults`: collects the pending requests
      (none when picking a contact to pay), remembers how many there were, and
      outside the requests-only mode removes, while more than three remain, the
      element equal to the last one. */
  method CollectRequests(data: seq<UsernameSearchResult>, mode: int) returns (requests: seq<UsernameSearchResult>, requestCount: nat)
    ensures requests == ShownRequests(data, mode)
    ensures requestCount == |PendingRequests(data, mode)|
  {
    requests := if mode != MODE_SELECT_CONTACT then Filter(data, IsPending) else [];
    ghost var pending := requests;
    requestCount := |requests|;
    if mode != MODE_VIEW_REQUESTS {
      while |requests| > MAX_SHOWN_REQUESTS
        invariant Truncated(requests) == Truncated(pending)
        decreases |requests|
      {
        requests := RemoveFirst(requests, requests[|requests| - 1]);
      }
    }
  }

  /** The second half of `processResults`: the request header when there is
      one, the request rows, the contact header when there are contacts and
      the contact rows, appended one by one. */
  method AppendSections(header: Option<nat>, requests: seq<UsernameSearchResult>, contacts: seq<UsernameSearchResult>)
    returns (results: seq<ViewItem>)
    ensures results == Sections(header, requests, contacts)
  {
    results := [];
    if header.Some? {
      results := results + [RequestHeader(header.value)];
    }
    ghost var head := results;
    for i := 0 to |requests|
      invariant results == head + RequestRows(requests[..i])
    {
      RequestRowsSnoc(requests, i);
      results := results + [RequestRow(requests[i])];
    }
    assert requests[..|requests|] == requests;
    if contacts != [] {
      results := results + [ContactHeader];
    }
    head := results;
    for i := 0 to |contacts|
      invariant results == head + ContactRows(contacts[..i])
    {
      ContactRowsSnoc(contacts, i);
      results := results + [ContactRow(contacts[i])];
    }
    assert contacts[..|contacts|] == contacts;
  }

  /** `processResults` without the final hand-over to the adapter. */
  method AssembleRows(data: seq<UsernameSearchResult>, mode: int) returns (results: seq<ViewItem>)
    ensures results == Layout(data, mode)
  {
    var requests, requestCount := CollectRequests(data, mode);
    var header := if requests != [] && mode != MODE_VIEW_REQUESTS then Some(requestCount) else None;
    var contacts := if mode != MODE_VIEW_REQUESTS then Filter(data, IsContact) else [];
    results := AppendSections(header, requests, contacts);
  }

  /** What the contact-request observer receives. */
  datatype Resource = Loading | Error(message: string) | Success(data: ContactRequest)

  /** What the observer did besides changing the screen's state. */
  datatype Reaction = Nothing | ShowError | Updated | SearchAgain | Thrown

  /** A result row with its outgoing request filled in; headers have no result. */
  function WithOutgoingRequest(item: ViewItem, request: ContactRequest): (r: Option<ViewItem>)
    ensures r.Some? <==> item.RequestRow? || item.ContactRow?
    ensures r.Some? ==> r.value.RequestRow? == item.RequestRow? && r.value.ContactRow? == item.ContactRow?
    ensures r.Some? ==> r.value.result == item.result.(toContactRequest := Some(request))
  {
    match item
    case RequestRow(r) => Some(RequestRow(r.(toContactRequest := Some(request))))
    case ContactRow(r) => Some(ContactRow(r.(toContactRequest := Some(request))))
    case _ => None
  }

  /** The screen's state: its mode, the row whose request is being accepted
      (-1 when none) and the adapter's rows. */
  class ContactsActivity {
    var mode: int
    var currentPosition: int
    var results: seq<ViewItem>

    constructor (mode: int)
      ensures this.mode == mode && currentPosition == -1 && results == []
    {
      this.mode := mode;
      currentPosition := -1;
      results := [];
    }

    /** `processResults`: replaces the adapter's rows. */
    method ProcessResults(data: seq<UsernameSearchResult>)
      modifies this
      ensures results == Layout(data, mode)
      ensures mode == old(mode) && currentPosition == old(currentPosition)
    {
      var rows := AssembleRows(data, mode);
      results := rows;
    }

    /** `onAcceptRequest`: only one accept may be in flight; the request sent
        names the requesting user. */
    method OnAcceptRequest(r: UsernameSearchResult, position: int) returns (sent: Option<UserId>)
      modifies this
      ensures old(currentPosition) == -1 ==> currentPosition == position && sent == Some(r.userId)
      ensures old(currentPosition) != -1 ==> currentPosition == old(currentPosition) && sent == None
      ensures mode == old(mode) && results == old(results)
    {
      sent := None;
      if currentPosition == -1 {
        currentPosition := position;
        sent := Some(r.userId);
      }
    }

    /** The observer of the contact-request result.  On success the accepted
        row gets its outgoing request; in the requests-only mode the row is
        then removed, in the search mode the search runs again; then no accept
        is in flight any more.  An index out of range, a header row or an
        unknown mode throws. */
    method OnContactRequestChanged(resource: Option<Resource>) returns (reaction: Reaction)
      modifies this
      ensures mode == old(mode)
      ensures resource.None? || old(currentPosition) == -1 || !resource.value.Success? ==>
        reaction == (if resource.Some? && old(currentPosition) != -1 && resource.value.Error? then ShowError else Nothing)
        && currentPosition == old(currentPosition) && results == old(results)
      ensures resource.Some? && resource.value.Success? && old(currentPosition) != -1 ==>
        var p := old(currentPosition);
        if !(0 <= p < |old(results)|) || WithOutgoingRequest(old(results)[p], resource.value.data).None? then
          reaction == Thrown && currentPosition == p && results == old(results)
        else
          var updated := old(results)[p := WithOutgoingRequest(old(results)[p], resource.value.data).value];
          if mode == MODE_VIEW_REQUESTS then
            reaction == Updated && currentPosition == -1 && results == updated[..p] + updated[p + 1..]
          else if mode == MODE_SEARCH_CONTACTS then
            reaction == SearchAgain && currentPosition == -1 && results == updated
          else if mode == MODE_SELECT_CONTACT then
            reaction == Updated && currentPosition == -1 && results == updated
          else
            reaction == Thrown && currentPosition == p && results == updated
    {
      reaction := Nothing;
      if resource.Some? && currentPosition != -1 {
        match resource.value
        case Loading =>
        case Error(_) =>
          reaction := ShowError;
        case Success(data) =>
          if !(0 <= currentPosition < |results|) {
            return Thrown;
          }
          var row := WithOutgoingRequest(results[currentPosition], data);
          if row.None? {
            return Thrown;
          }
          results := results[currentPosition := row.value];
          if mode == MODE_VIEW_REQUESTS {
            results := results[..currentPosition] + results[currentPosition + 1..];
            reaction := Updated;
          } else if mode == MODE_SEARCH_CONTACTS {
            reaction := SearchAgain;
          } else if mode == MODE_SELECT_CONTACT {
            reaction := Updated;
          } else {
            return Thrown;
          }
          currentPosition := -1;
      }
    }
  }
}
