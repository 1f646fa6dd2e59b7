/**
 * The invitation history list adapter: the list of rows shown on the
 * invitations screen, rebuilt in place when the history is replaced or when
 * the user picks a filter.
 */
module Invites {
  import opened Wrappers

  // view types of the rows
  const INVITE_HEADER := 1
  const INVITE := 2
  const EMPTY_HISTORY := 3
  const INVITE_CREATE := 4

  /** An invitation; `acceptedAt` is 0 until someone claims it. */
  datatype Invitation = Invitation(userId: string, acceptedAt: int)

  /** A row of the list; only rows of type INVITE are meant to carry an invitation. */
  datatype InvitationItem = InvitationItem(itemType: int, invitation: Option<Invitation>)

  const HeaderInvite := InvitationItem(INVITE_HEADER, None)
  const EmptyInvite := InvitationItem(EMPTY_HISTORY, None)
  const CreateInvite := InvitationItem(INVITE_CREATE, None)

  datatype Filter = All | Pending | Claimed

  /** The rows the `history` setter lays out for a new history. */
  function SetterRows(value: seq<InvitationItem>): (rows: seq<InvitationItem>)
    ensures |rows| >= 3 && rows[..2] == [CreateInvite, HeaderInvite]
    ensures value != [] ==> rows[2..] == value
    ensures value == [] ==> rows[2..] == [EmptyInvite]
  {
    [CreateInvite, HeaderInvite] + (if |value| > 0 then value else [EmptyInvite])
  }

  /** `filter()` reads `invitation!!` of every INVITE row unless the filter is
      ALL; this holds when none of those reads throws. */
  predicate CanFilter(history: seq<InvitationItem>, f: Filter)
  {
    f == All || forall i :: 0 <= i < |history| && history[i].itemType == INVITE ==> history[i].invitation.Some?
  }

  /** Whether an INVITE row passes the filter. */
  predicate Passes(item: InvitationItem, f: Filter)
    requires f == All || item.invitation.Some?
  {
    match f
    case All => true
    case Pending => item.invitation.value.acceptedAt == 0
    case Claimed => item.invitation.value.acceptedAt != 0
  }

  /** The history rows `filter()` keeps, in their order. */
  function Kept(history: seq<InvitationItem>, f: Filter): (r: seq<InvitationItem>)
    requires CanFilter(history, f)
    ensures |r| <= |history|
  {
    if history == [] then []
    else
      var last := history[|history| - 1];
      Kept(history[..|history| - 1], f) + (if last.itemType == INVITE && Passes(last, f) then [last] else [])
  }

  /** The list `filter()` leaves behind, exactly as written: the two fixed rows,
      the kept invites and the placeholder when the list has one row.  None when
      the loop throws, in which case the list is left as it was. */
  function FilteredRows(history: seq<InvitationItem>, f: Filter): (r: Option<seq<InvitationItem>>)
    ensures r.Some? <==> CanFilter(history, f)
    ensures r.Some? ==> |r.value| >= 2 && r.value[..2] == [CreateInvite, HeaderInvite]
  {
    if !CanFilter(history, f) then None
    else
      var rows := [CreateInvite, HeaderInvite] + Kept(history, f);
      Some(if |rows| == 1 then rows + [EmptyInvite] else rows)
  }

  /** The list `filter()` evidently means to leave behind: the placeholder
      appears when no invite passes, as it does in the `history` setter. */
  function IntendedFilteredRows(history: seq<InvitationItem>, f: Filter): (r: Option<seq<InvitationItem>>)
    ensures r.Some? <==> CanFilter(history, f)
    ensures r.Some? ==> |r.value| >= 2 && r.value[..2] == [CreateInvite, HeaderInvite]
    ensures r.Some? ==> (EmptyInvite in r.value <==> Kept(history, f) == [])
  {
    if !CanFilter(history, f) then None
    else
      KeptTypes(history, f);
      var rows := [CreateInvite, HeaderInvite] + Kept(history, f);
      Some(if |rows| == 2 then rows + [EmptyInvite] else rows)
  }

  /** Every kept row is an INVITE row. */
  lemma {:induction false} KeptTypes(history: seq<InvitationItem>, f: Filter)
    requires CanFilter(history, f)
    ensures forall i :: 0 <= i < |Kept(history, f)| ==> Kept(history, f)[i].itemType == INVITE
  {
    if history != [] {
      KeptTypes(history[..|history| - 1], f);
    }
  }

  /** A row is kept exactly when it is an INVITE row of the history that
      passes the filter. */
  lemma {:induction false} KeptMembers(history: seq<InvitationItem>, f: Filter, x: InvitationItem)
    requires CanFilter(history, f)
    ensures x in Kept(history, f) <==> x in history && x.itemType == INVITE && Passes(x, f)
  {
    if history != [] {
      var init := history[..|history| - 1];
      KeptMembers(init, f, x);
      assert history == init + [history[|history| - 1]];
    }
  }

  /** PENDING keeps exactly the unclaimed invites, CLAIMED exactly the claimed
      ones and ALL every invite. */
  lemma FilterMeaning(history: seq<InvitationItem>, x: InvitationItem)
    requires CanFilter(history, Pending)
    ensures x in Kept(history, Pending) <==> x in history && x.itemType == INVITE && x.invitation.value.acceptedAt == 0
    ensures x in Kept(history, Claimed) <==> x in history && x.itemType == INVITE && x.invitation.value.acceptedAt != 0
    ensures x in Kept(history, All) <==> x in history && x.itemType == INVITE
  {
    KeptMembers(history, Pending, x);
    KeptMembers(history, Claimed, x);
    KeptMembers(history, All, x);
  }

  /** Filtering keeps the history's order: filtering a concatenation is
      concatenating the filtered parts. */
  lemma {:induction false} KeptConcat(a: seq<InvitationItem>, b: seq<InvitationItem>, f: Filter)
    requires CanFilter(a + b, f)
    ensures CanFilter(a, f) && CanFilter(b, f)
    ensures Kept(a + b, f) == Kept(a, f) + Kept(b, f)
  {
    assert forall i :: 0 <= i < |a| ==> a[i] == (a + b)[i];
    assert forall i :: 0 <= i < |b| ==> b[i] == (a + b)[|a| + i];
    if b != [] {
      var init := b[..|b| - 1];
      assert (a + b)[..|a + b| - 1] == a + init;
      KeptConcat(a, init, f);
    } else {
      assert a + b == a;
    }
  }

  /** PENDING and CLAIMED split the invites that ALL shows between them. */
  lemma {:induction false} PendingClaimedPartition(history: seq<InvitationItem>)
    requires CanFilter(history, Pending)
    ensures |Kept(history, Pending)| + |Kept(history, Claimed)| == |Kept(history, All)|
    ensures multiset(Kept(history, Pending)) + multiset(Kept(history, Claimed)) == multiset(Kept(history, All))
  {
    if history != [] {
      PendingClaimedPartition(history[..|history| - 1]);
    }
  }

  /** The list `filter()` leaves always starts with its two fixed rows followed
      by the kept invites, and never holds the "empty" placeholder: the
      one-row check comes after two rows were added. */
  lemma FilterNeverAddsPlaceholder(history: seq<InvitationItem>, f: Filter)
    requires CanFilter(history, f)
    ensures FilteredRows(history, f) == Some([CreateInvite, HeaderInvite] + Kept(history, f))
    ensures EmptyInvite !in FilteredRows(history, f).value
  {
    KeptTypes(history, f);
  }

  /** With no history, the setter shows the placeholder but `filter()` with
      ALL does not. */
  lemma EmptyHistoryDisagreement()
    ensures SetterRows([]) == [CreateInvite, HeaderInvite, EmptyInvite]
    ensures FilteredRows([], All) == Some([CreateInvite, HeaderInvite])
  {
    assert Kept([], All) == [];
    assert [CreateInvite, HeaderInvite] + Kept([], All) == [CreateInvite, HeaderInvite];
  }

  /** ALL keeps a history made only of invites whole. */
  lemma {:induction false} KeptAllInvites(history: seq<InvitationItem>)
    requires forall i :: 0 <= i < |history| ==> history[i].itemType == INVITE
    ensures Kept(history, All) == history
  {
    if history != [] {
      KeptAllInvites(history[..|history| - 1]);
    }
  }

  /** The intended filter agrees with the `history` setter: ALL over a history
      of invites gives the very rows the setter laid out. */
  lemma IntendedAgreesWithSetter(history: seq<InvitationItem>)
    requires forall i :: 0 <= i < |history| ==> history[i].itemType == INVITE
    ensures IntendedFilteredRows(history, All) == Some(SetterRows(history))
  {
    KeptAllInvites(history);
  }

  /** One more history row: how `CanFilter` and `Kept` extend. */
  lemma KeptStep(history: seq<InvitationItem>, i: nat, f: Filter)
    requires i < |history| && CanFilter(history[..i], f)
    ensures CanFilter(history[..i + 1], f) <==>
      f == All || history[i].itemType != INVITE || history[i].invitation.Some?
    ensures CanFilter(history[..i + 1], f) ==>
      Kept(history[..i + 1], f) == Kept(history[..i], f) +
        (if history[i].itemType == INVITE && Passes(history[i], f) then [history[i]] else [])
  {
    assert history[..i + 1][..i] == history[..i];
  }

  /** An INVITE row without invitation makes a PENDING or CLAIMED filter throw. */
  lemma Unfilterable(history: seq<InvitationItem>, i: nat, f: Filter)
    requires i < |history| && f != All
    requires history[i].itemType == INVITE && history[i].invitation.None?
    ensures !CanFilter(history, f) && FilteredRows(history, f) == None
  {
  }

  /** The loop of `filter()`: the two fixed rows followed by the invites that
      pass, or None when an invite without invitation makes it throw. */
  method CollectFiltered(history: seq<InvitationItem>, filter: Filter) returns (result: Option<seq<InvitationItem>>)
    ensures result.Some? <==> CanFilter(history, filter)
    ensures result.Some? ==> result.value == [CreateInvite, HeaderInvite] + Kept(history, filter)
  {
    var resultTransactions := [CreateInvite, HeaderInvite];
    var i := 0;
    while i < |history|
      invariant 0 <= i <= |history|
      invariant CanFilter(history[..i], filter)
      invariant resultTransactions == [CreateInvite, HeaderInvite] + Kept(history[..i], filter)
    {
      var inviteItem := history[i];
      KeptStep(history, i, filter);
      if inviteItem.itemType == INVITE {
        match filter
        case All =>
          resultTransactions := resultTransactions + [inviteItem];
        case Pending =>
          if inviteItem.invitation.None? {
            Unfilterable(history, i, filter);
            return None;
          }
          if inviteItem.invitation.value.acceptedAt == 0 {
            resultTransactions := resultTransactions + [inviteItem];
          }
        case Claimed =>
          if inviteItem.invitation.None? {
            Unfilterable(history, i, filter);
            return None;
          }
          if inviteItem.invitation.value.acceptedAt != 0 {
            resultTransactions := resultTransactions + [inviteItem];
          }
      }
      i := i + 1;
    }
    assert history[..i] == history;
    return Some(resultTransactions);
  }

  /** The adapter; `filteredResults` is the list the view shows. */
  class InvitesAdapter {
    var filter: Filter
    var history: seq<InvitationItem>
    var filteredResults: seq<InvitationItem>

    /** Before any history arrives the list is empty; from then on it starts
        with the create row and the header. */
    ghost predicate Valid()
      reads this
    {
      filteredResults == [] || (|filteredResults| >= 2 && filteredResults[..2] == [CreateInvite, HeaderInvite])
    }

    constructor ()
      ensures Valid()
      ensures filter == All && history == [] && filteredResults == []
    {
      filter := All;
      history := [];
      filteredResults := [];
    }

    /** The `history` setter. */
    method SetHistory(value: seq<InvitationItem>)
      requires Valid()
      modifies this
      ensures Valid()
      ensures history == value && filter == old(filter)
      ensures filteredResults == SetterRows(value)
    {
      history := value;
      filteredResults := [];
      filteredResults := filteredResults + [CreateInvite];
      filteredResults := filteredResults + [HeaderInvite];
      if |value| > 0 {
        filteredResults := filteredResults + value;
      } else {
        filteredResults := filteredResults + [EmptyInvite];
      }
    }

    /** `onFilter`: records the filter, then runs `filter()`, with the
        placeholder added when no invite passes the filter (the check as
        written compares against one row and never holds; see
        `FilteredRows`).  When `filter()` throws on an invite without
        invitation the list is left as it was. */
    method OnFilter(f: Filter)
      requires Valid()
      modifies this
      ensures Valid()
      ensures filter == f && history == old(history)
      ensures filteredResults == match IntendedFilteredRows(history, f)
                                 case Some(rows) => rows
                                 case None => old(filteredResults)
      ensures CanFilter(history, f) ==> (EmptyInvite in filteredResults <==> Kept(history, f) == [])
    {
      filter := f;
      var resultTransactions := CollectFiltered(history, filter);
      if resultTransactions.None? {
        return;
      }
      filteredResults := [];
      filteredResults := filteredResults + resultTransactions.value;
      filteredResults := filteredResults + if |filteredResults| == 2 then [EmptyInvite] else [];
    }

    /** `getItemCount()`: nothing before the first history, otherwise at least
        the two fixed rows. */
    function ItemCount(): (n: nat)
      requires Valid()
      reads this
      ensures n == |filteredResults|
      ensures n == 0 || n >= 2
    {
      |filteredResults|
    }

    /** `getItem(position)`: the first two positions hold the fixed rows. */
    function GetItem(position: nat): (item: InvitationItem)
      requires Valid() && position < ItemCount()
      reads this
      ensures item == filteredResults[position]
      ensures position == 0 ==> item == CreateInvite
      ensures position == 1 ==> item == HeaderInvite
    {
      filteredResults[position]
    }

    /** `getItemViewType(position)`: the type of the item at that position. */
    function ItemViewType(position: nat): (t: int)
      requires Valid() && position < ItemCount()
      reads this
      ensures t == GetItem(position).itemType
      ensures position == 0 ==> t == INVITE_CREATE
      ensures position == 1 ==> t == INVITE_HEADER
    {
      filteredResults[position].itemType
    }
  }
}
