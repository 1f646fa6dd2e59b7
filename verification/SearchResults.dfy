/**
 * The view of a username search result shared by the contacts screen and the
 * frequent-contacts ranking.
 */
module SearchResults {
  import opened Wrappers

  type UserId = string

  /** A contact request document; only the requesting user matters here. */
  datatype ContactRequest = ContactRequest(userId: UserId)

  /**
   * A search result.  `userId` is the user id of the incoming request
   * (`fromContactRequest!!.userId`).  `requestSent`, `requestReceived` and
   * `isPendingRequest` are the result's own flags; how they are derived is
   * outside this model.  `toContactRequest` is the outgoing request, which the
   * contacts screen fills in once a request is accepted.
   */
  datatype UsernameSearchResult = UsernameSearchResult(
    username: string,
    userId: UserId,
    requestSent: bool,
    requestReceived: bool,
    isPendingRequest: bool,
    toContactRequest: Option<ContactRequest>)

  /** A fully established contact: requests went both ways. */
  predicate IsContact(r: UsernameSearchResult)
  {
    r.requestSent && r.requestReceived
  }

  /** Kotlin's `filter`: the elements that satisfy `p`, in their order. */
  function Filter<T(!new)>(s: seq<T>, p: T -> bool): (r: seq<T>)
    ensures |r| <= |s|
    ensures forall x :: x in r <==> x in s && p(x)
    ensures forall i :: 0 <= i < |r| ==> p(r[i])
  {
    if s == [] then [] else (if p(s[0]) then [s[0]] else []) + Filter(s[1..], p)
  }

  /** `filter` keeps the order: filtering a concatenation concatenates the
      filtered parts. */
  lemma {:induction false} FilterConcat<T(!new)>(a: seq<T>, b: seq<T>, p: T -> bool)
    ensures Filter(a + b, p) == Filter(a, p) + Filter(b, p)
  {
    if a == [] {
      assert a + b == b;
    } else {
      assert (a + b)[1..] == a[1..] + b;
      FilterConcat(a[1..], b, p);
    }
  }
}
