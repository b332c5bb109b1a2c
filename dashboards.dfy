/**
 * The admin user table: filtering by role, status and a search box, the
 * suspension toggle and deletion.
 */
module UserManagement {
  import opened Text
  import Lists

  datatype Role = AffiliateRole | Business | Admin
  datatype UserStatus = Active | Suspended | Pending

  datatype User = User(id: int, name: string, email: string, role: Role, status: UserStatus)

  /** A filter select: "all", or one value. */
  datatype Filter<T> = All | Only(value: T)

  predicate Passes<T(==)>(f: Filter<T>, v: T) {
    f.All? || f.value == v
  }

  /** The search box: a case-insensitive substring of the name or the email. */
  predicate SearchMatches(u: User, query: string) {
    ContainsIgnoringCase(u.name, query) || ContainsIgnoringCase(u.email, query)
  }

  predicate Shown(u: User, role: Filter<Role>, status: Filter<UserStatus>, query: string) {
    Passes(role, u.role) && Passes(status, u.status) && SearchMatches(u, query)
  }

  /** `filteredUsers`. */
  function FilteredUsers(users: seq<User>, role: Filter<Role>, status: Filter<UserStatus>, query: string): (r: seq<User>)
    ensures forall i :: 0 <= i < |r| ==> r[i] in users && Passes(role, r[i].role) && Passes(status, r[i].status)
                                         && SearchMatches(r[i], query)
    ensures forall i :: 0 <= i < |users| && Shown(users[i], role, status, query) ==> users[i] in r
  {
    Lists.Filter(users, u => Shown(u, role, status, query))
  }

  /** The filtered list keeps the table's order: filtering two parts and joining them is filtering the whole. */
  lemma FilteredUsersKeepOrder(a: seq<User>, b: seq<User>, role: Filter<Role>, status: Filter<UserStatus>, query: string)
    ensures FilteredUsers(a + b, role, status, query) == FilteredUsers(a, role, status, query) + FilteredUsers(b, role, status, query)
  {
    Lists.FilterAppend(a, b, u => Shown(u, role, status, query));
  }

  /** An empty search box with both selects on "all" shows the whole table. */
  lemma EmptySearchShowsAll(users: seq<User>)
    ensures FilteredUsers(users, All, All, "") == users
  {
    forall i | 0 <= i < |users| ensures Shown(users[i], All, All, "") {
      ContainsEmpty(ToLower(users[i].name));
    }
    Lists.FilterKeepsAll(users, u => Shown(u, All, All, ""));
  }

  /** The toggle: suspended becomes active, anything else suspended. */
  function Toggled(s: UserStatus): (r: UserStatus)
    ensures (r == Active) <==> (s == Suspended)
    ensures (r == Suspended) <==> (s != Suspended)
  {
    if s == Suspended then Active else Suspended
  }

  /** `handleSuspend(id)`: the toggle applied to the users with that id. */
  function ToggleSuspension(users: seq<User>, id: int): (r: seq<User>)
    ensures |r| == |users|
    ensures forall i :: 0 <= i < |users| && users[i].id != id ==> r[i] == users[i]
    ensures forall i :: 0 <= i < |users| && users[i].id == id ==>
              r[i] == users[i].(status := Toggled(users[i].status))
  {
    seq(|users|, i requires 0 <= i < |users| =>
      if users[i].id == id then users[i].(status := Toggled(users[i].status)) else users[i])
  }

  /** A pending user toggled twice ends active, not pending; any other user is restored. */
  lemma ToggleTwice(users: seq<User>, id: int)
    ensures var r := ToggleSuspension(ToggleSuspension(users, id), id);
            |r| == |users|
            && (forall i :: 0 <= i < |users| && (users[i].id != id || users[i].status != Pending) ==> r[i] == users[i])
            && (forall i :: 0 <= i < |users| && users[i].id == id && users[i].status == Pending ==>
                  r[i] == users[i].(status := Active))
  {
  }

  /** `handleDelete(id)` once confirmed. */
  function Delete(users: seq<User>, id: int): (r: seq<User>)
    ensures forall i :: 0 <= i < |r| ==> r[i].id != id
    ensures forall u: User :: u.id != id ==> multiset(r)[u] == multiset(users)[u]
  {
    forall u: User | u.id != id ensures multiset(Lists.Filter(users, (v: User) => v.id != id))[u] == multiset(users)[u] {
      Lists.FilterMultiset(users, (v: User) => v.id != id, u);
    }
    Lists.Filter(users, (v: User) => v.id != id)
  }

  /** Deletion keeps the order of the rest. */
  lemma DeleteKeepsOrder(a: seq<User>, b: seq<User>, id: int)
    ensures Delete(a + b, id) == Delete(a, id) + Delete(b, id)
  {
    Lists.FilterAppend(a, b, (v: User) => v.id != id);
  }

  class UserTable {
    var users: seq<User>

    constructor(initial: seq<User>)
      ensures users == initial
    {
      users := initial;
    }

    method HandleSuspend(id: int)
      modifies this
      ensures users == ToggleSuspension(old(users), id)
    {
      users := ToggleSuspension(users, id);
    }

    /** `confirmed` is the answer to the confirmation dialog. */
    method HandleDelete(id: int, confirmed: bool)
      modifies this
      ensures confirmed ==> users == Delete(old(users), id)
      ensures !confirmed ==> users == old(users)
    {
      if confirmed {
        users := Delete(users, id);
      }
    }
  }
}

/**
 * The seller's payout table: a selection of pending payouts, toggled one
 * row at a time or all at once through the header checkbox, and the
 * total of the selected amounts.
 */
module PayoutsManagement {
  import Lists

  /** A pending payout row; the amount is in cents. */
  datatype PendingPayout = PendingPayout(id: int, amount: int)

  function Ids(pending: seq<PendingPayout>): (r: seq<int>)
    ensures |r| == |pending|
    ensures forall i :: 0 <= i < |pending| ==> r[i] == pending[i].id
  {
    seq(|pending|, i requires 0 <= i < |pending| => pending[i].id)
  }

  /** `handleSelect(id)`: a selected id is removed, any other is appended. */
  function Select(selected: seq<int>, id: int): (r: seq<int>)
    ensures id in selected ==> id !in r && forall x :: x != id ==> multiset(r)[x] == multiset(selected)[x]
    ensures id !in selected ==> r == selected + [id]
  {
    if id in selected then Lists.Without(selected, id) else selected + [id]
  }

  /** `handleSelectAll`: clear when the selection is as long as the pending list, else select every pending id. */
  function SelectAll(selected: seq<int>, pending: seq<PendingPayout>): (r: seq<int>)
    ensures |selected| == |pending| ==> r == []
    ensures |selected| != |pending| ==> r == Ids(pending)
  {
    if |selected| == |pending| then [] else Ids(pending)
  }

  /** The header checkbox. */
  predicate HeaderChecked(selected: seq<int>, pending: seq<PendingPayout>) {
    |selected| == |pending|
  }

  /** `totalSelected`: the amounts of the selected pending payouts. */
  function TotalSelected(pending: seq<PendingPayout>, selected: seq<int>): int {
    if pending == [] then 0
    else TotalSelected(pending[..|pending| - 1], selected)
         + (if pending[|pending| - 1].id in selected then pending[|pending| - 1].amount else 0)
  }

  /** The selection holds distinct pending ids. */
  predicate SelectionOk(selected: seq<int>, pending: seq<PendingPayout>) {
    Lists.NoDuplicates(selected) && forall i :: 0 <= i < |selected| ==> selected[i] in Ids(pending)
  }

  lemma SelectKeepsSelectionOk(selected: seq<int>, pending: seq<PendingPayout>, id: int)
    requires SelectionOk(selected, pending) && id in Ids(pending)
    ensures SelectionOk(Select(selected, id), pending)
  {
    var r := Select(selected, id);
    if id in selected {
      Lists.WithoutNoDuplicates(selected, id);
      forall i | 0 <= i < |r| ensures r[i] in Ids(pending) {
        assert r[i] in selected;
      }
    } else {
      forall i, j | 0 <= i < j < |r| ensures r[i] != r[j] {
        if j == |selected| {
          assert r[i] == selected[i];
        }
      }
    }
  }

  lemma SelectAllKeepsSelectionOk(selected: seq<int>, pending: seq<PendingPayout>)
    requires Lists.NoDuplicates(Ids(pending))
    ensures SelectionOk(SelectAll(selected, pending), pending)
  {
  }

  /** A list of distinct entries drawn from `t` is no longer than `t`, and as long only when it holds all of `t`. */
  lemma {:induction false} Pigeonhole(s: seq<int>, t: seq<int>)
    requires Lists.NoDuplicates(s) && Lists.NoDuplicates(t)
    requires forall i :: 0 <= i < |s| ==> s[i] in t
    ensures |s| <= |t|
    ensures |s| == |t| ==> forall j :: 0 <= j < |t| ==> t[j] in s
    decreases |s|
  {
    if s != [] {
      var x := s[0];
      var rest := s[1..];
      var r := Lists.Without(t, x);
      assert Lists.NoDuplicates(rest) by {
        forall i, j | 0 <= i < j < |rest| ensures rest[i] != rest[j] {
          assert rest[i] == s[i + 1] && rest[j] == s[j + 1];
        }
      }
      Lists.WithoutNoDuplicates(t, x);
      CountWithout(t, x);
      forall i | 0 <= i < |rest| ensures rest[i] in r {
        assert rest[i] == s[i + 1] && rest[i] != x;
        assert multiset(r)[rest[i]] == multiset(t)[rest[i]];
      }
      Pigeonhole(rest, r);
      if |s| == |t| {
        forall j | 0 <= j < |t| ensures t[j] in s {
          if t[j] != x {
            assert multiset(r)[t[j]] == multiset(t)[t[j]];
            assert t[j] in r;
            var k :| 0 <= k < |r| && r[k] == t[j];
            assert t[j] in rest;
            var m :| 0 <= m < |rest| && rest[m] == t[j];
            assert s[m + 1] == t[j];
          }
        }
      }
    }
  }

  /** Taking out an element of a list without repeats shortens it by one; taking out anything else changes nothing. */
  lemma CountWithout(s: seq<int>, x: int)
    requires Lists.NoDuplicates(s)
    ensures |Lists.Without(s, x)| == if x in s then |s| - 1 else |s|
  {
    var r := Lists.Without(s, x);
    OnceAtMost(s, x);
    if x in s {
      assert multiset(s) == multiset(r) + multiset{x};
    } else {
      assert multiset(s) == multiset(r);
    }
    assert |multiset(s)| == |s| && |multiset(r)| == |r|;
  }

  lemma {:induction false} OnceAtMost(s: seq<int>, x: int)
    requires Lists.NoDuplicates(s)
    ensures multiset(s)[x] == if x in s then 1 else 0
  {
    if s != [] {
      assert Lists.NoDuplicates(s[1..]) by {
        forall i, j | 0 <= i < j < |s[1..]| ensures s[1..][i] != s[1..][j] {
          assert s[1..][i] == s[i + 1] && s[1..][j] == s[j + 1];
        }
      }
      OnceAtMost(s[1..], x);
      assert s == [s[0]] + s[1..];
      if s[0] == x {
        assert x !in s[1..];
      }
    }
  }

  /**
   * With a well-formed selection and distinct pending ids, the header
   * checkbox is checked exactly when every pending payout is selected.
   */
  lemma HeaderMeansAllSelected(selected: seq<int>, pending: seq<PendingPayout>)
    requires SelectionOk(selected, pending) && Lists.NoDuplicates(Ids(pending))
    ensures HeaderChecked(selected, pending) <==> forall i :: 0 <= i < |pending| ==> pending[i].id in selected
  {
    var ids := Ids(pending);
    Pigeonhole(selected, ids);
    if HeaderChecked(selected, pending) {
      forall i | 0 <= i < |pending| ensures pending[i].id in selected {
        assert ids[i] in selected;
      }
    }
    if forall i :: 0 <= i < |pending| ==> pending[i].id in selected {
      forall i | 0 <= i < |ids| ensures ids[i] in selected {
        assert ids[i] == pending[i].id;
      }
      Pigeonhole(ids, selected);
    }
  }

  /** The total counts exactly the selected rows: all of them when all are selected, none when none. */
  lemma {:induction false} TotalSelectedBounds(pending: seq<PendingPayout>, selected: seq<int>)
    ensures (forall i :: 0 <= i < |pending| ==> pending[i].id !in selected) ==> TotalSelected(pending, selected) == 0
    ensures (forall i :: 0 <= i < |pending| ==> pending[i].id in selected)
            ==> TotalSelected(pending, selected) == TotalSelected(pending, Ids(pending))
  {
    if pending != [] {
      var n := |pending| - 1;
      TotalSelectedBounds(pending[..n], selected);
      TotalSelectedIgnoresLater(pending[..n], Ids(pending), Ids(pending[..n]));
      assert Ids(pending)[n] == pending[n].id;
    }
  }

  /** Only the ids of the listed rows matter to the total. */
  lemma {:induction false} TotalSelectedIgnoresLater(pending: seq<PendingPayout>, s1: seq<int>, s2: seq<int>)
    requires forall i :: 0 <= i < |pending| ==> (pending[i].id in s1 <==> pending[i].id in s2)
    ensures TotalSelected(pending, s1) == TotalSelected(pending, s2)
  {
    if pending != [] {
      TotalSelectedIgnoresLater(pending[..|pending| - 1], s1, s2);
    }
  }

  class PayoutTable {
    const pending: seq<PendingPayout>
    var selected: seq<int>

    constructor(rows: seq<PendingPayout>)
      ensures pending == rows && selected == []
    {
      pending := rows;
      selected := [];
    }

    predicate Valid()
      reads this
    {
      Lists.NoDuplicates(Ids(pending)) && SelectionOk(selected, pending)
    }

    /** A row's checkbox; rows exist only for pending payouts. */
    method HandleSelect(id: int)
      requires Valid() && id in Ids(pending)
      modifies this
      ensures selected == Select(old(selected), id)
      ensures Valid()
    {
      SelectKeepsSelectionOk(selected, pending, id);
      selected := Select(selected, id);
    }

    method HandleSelectAll()
      requires Valid()
      modifies this
      ensures selected == SelectAll(old(selected), pending)
      ensures Valid()
    {
      SelectAllKeepsSelectionOk(selected, pending);
      selected := SelectAll(selected, pending);
    }
  }
}

/** The seller's campaign list and its pause/activate button. */
module ProductsCampaigns {
  datatype CampaignStatus = Active | Paused

  datatype Campaign = Campaign(id: int, name: string, status: CampaignStatus)

  function Flipped(s: CampaignStatus): CampaignStatus {
    if s == Active then Paused else Active
  }

  /** `handleToggleStatus(id)`. */
  function ToggleStatus(campaigns: seq<Campaign>, id: int): (r: seq<Campaign>)
    ensures |r| == |campaigns|
    ensures forall i :: 0 <= i < |r| && campaigns[i].id != id ==> r[i] == campaigns[i]
    ensures forall i :: 0 <= i < |r| && campaigns[i].id == id ==>
              r[i] == campaigns[i].(status := Flipped(campaigns[i].status)) && r[i].status != campaigns[i].status
  {
    seq(|campaigns|, i requires 0 <= i < |campaigns| =>
      if campaigns[i].id == id then campaigns[i].(status := Flipped(campaigns[i].status)) else campaigns[i])
  }

  /** Toggling the same campaign twice gives the list back. */
  lemma ToggleTwiceRestores(campaigns: seq<Campaign>, id: int)
    ensures ToggleStatus(ToggleStatus(campaigns, id), id) == campaigns
  {
  }

  /** The button's label. */
  function ButtonLabel(c: Campaign): (r: string)
    ensures r == "Pause" <==> c.status == Active
  {
    if c.status == Active then "Pause" else "Activate"
  }

  /** After a toggle, the button of the toggled campaign offers the opposite action. */
  lemma ToggleSwapsLabel(campaigns: seq<Campaign>, id: int, i: nat)
    requires i < |campaigns| && campaigns[i].id == id
    ensures ButtonLabel(ToggleStatus(campaigns, id)[i]) != ButtonLabel(campaigns[i])
  {
  }

  class CampaignList {
    var campaigns: seq<Campaign>

    constructor(initial: seq<Campaign>)
      ensures campaigns == initial
    {
      campaigns := initial;
    }

    method HandleToggleStatus(id: int)
      modifies this
      ensures campaigns == ToggleStatus(old(campaigns), id)
    {
      campaigns := ToggleStatus(campaigns, id);
    }
  }
}

/** The seller's product table filter. */
module ProductList {
  import opened Text
  import Lists

  datatype Listing = Listing(id: int, name: string, status: string)

  /** The status select: its value and the status text it stands for. */
  predicate StatusPasses(filter: string, status: string) {
    filter == "all"
    || (filter == "active" && status == "Active")
    || (filter == "low" && status == "Low Stock")
    || (filter == "out" && status == "Out of Stock")
  }

  predicate ProductShown(p: Listing, query: string, filter: string) {
    ContainsIgnoringCase(p.name, query) && StatusPasses(filter, p.status)
  }

  /** `filteredProducts`. */
  function FilteredProducts(products: seq<Listing>, query: string, filter: string): (r: seq<Listing>)
    ensures forall i :: 0 <= i < |r| ==> r[i] in products && ContainsIgnoringCase(r[i].name, query)
                                         && StatusPasses(filter, r[i].status)
    ensures forall i :: 0 <= i < |products| && ProductShown(products[i], query, filter) ==> products[i] in r
  {
    Lists.Filter(products, p => ProductShown(p, query, filter))
  }

  /** A select value outside the four the page offers shows nothing. */
  lemma UnknownFilterShowsNothing(products: seq<Listing>, query: string, filter: string)
    requires filter != "all" && filter != "active" && filter != "low" && filter != "out"
    ensures FilteredProducts(products, query, filter) == []
  {
    Lists.FilterNone(products, p => ProductShown(p, query, filter));
  }

  /** The filtered table is a subsequence in the original order. */
  lemma FilteredProductsKeepOrder(a: seq<Listing>, b: seq<Listing>, query: string, filter: string)
    ensures FilteredProducts(a + b, query, filter) == FilteredProducts(a, query, filter) + FilteredProducts(b, query, filter)
  {
    Lists.FilterAppend(a, b, p => ProductShown(p, query, filter));
  }
}

/** The admin audit log view. */
module AuditLogs {
  import opened Text
  import Lists

  datatype LogStatus = Success | Failed

  datatype AuditLog = AuditLog(id: int, user: string, action: string, resource: string, status: LogStatus)

  function StatusName(s: LogStatus): string {
    match s
    case Success => "success"
    case Failed => "failed"
  }

  predicate LogShown(log: AuditLog, filter: string, query: string) {
    (filter == "all" || StatusName(log.status) == filter)
    && (ContainsIgnoringCase(log.user, query) || ContainsIgnoringCase(log.action, query)
        || ContainsIgnoringCase(log.resource, query))
  }

  /** `filteredLogs`. */
  function FilteredLogs(logs: seq<AuditLog>, filter: string, query: string): (r: seq<AuditLog>)
    ensures forall i :: 0 <= i < |r| ==> r[i] in logs && LogShown(r[i], filter, query)
    ensures forall i :: 0 <= i < |logs| && LogShown(logs[i], filter, query) ==> logs[i] in r
  {
    Lists.Filter(logs, l => LogShown(l, filter, query))
  }

  lemma FilteredLogsKeepOrder(a: seq<AuditLog>, b: seq<AuditLog>, filter: string, query: string)
    ensures FilteredLogs(a + b, filter, query) == FilteredLogs(a, filter, query) + FilteredLogs(b, filter, query)
  {
    Lists.FilterAppend(a, b, l => LogShown(l, filter, query));
  }

  /** Every log appears as often as it occurs when it passes both tests, and not at all otherwise. */
  lemma FilteredLogsCount(logs: seq<AuditLog>, filter: string, query: string, l: AuditLog)
    ensures multiset(FilteredLogs(logs, filter, query))[l] == if LogShown(l, filter, query) then multiset(logs)[l] else 0
  {
    Lists.FilterMultiset(logs, l => LogShown(l, filter, query), l);
  }

  datatype AlertType = Info | Warning | Error

  /** `getAlertColor`: one style for each of the three alert types. */
  function AlertColor(t: AlertType): (r: string)
    ensures forall u :: u != t ==> AlertColorOf(u) != r
  {
    AlertColorOf(t)
  }

  function AlertColorOf(t: AlertType): string {
    match t
    case Info => "bg-blue-50 text-blue-600"
    case Warning => "bg-yellow-50 text-yellow-600"
    case Error => "bg-red-50 text-red-600"
  }
}

/** The affiliate creative library filter. */
module ContentHub {
  import Lists

  datatype CreativeType = Banner | Video | Copy

  datatype Creative = Creative(id: int, kind: CreativeType, name: string)

  /** The type select: "all", or one type. */
  datatype TypeFilter = AllTypes | OfType(kind: CreativeType)

  /** `filteredCreatives`. */
  function FilteredCreatives(creatives: seq<Creative>, selected: TypeFilter): (r: seq<Creative>)
    ensures selected.AllTypes? ==> r == creatives
    ensures selected.OfType? ==> forall i :: 0 <= i < |r| ==> r[i].kind == selected.kind
    ensures selected.OfType? ==> forall c: Creative :: c.kind == selected.kind ==> multiset(r)[c] == multiset(creatives)[c]
  {
    if selected.AllTypes? then creatives
    else
      forall c: Creative | c.kind == selected.kind
        ensures multiset(Lists.Filter(creatives, (x: Creative) => x.kind == selected.kind))[c] == multiset(creatives)[c]
      {
        Lists.FilterMultiset(creatives, (x: Creative) => x.kind == selected.kind, c);
      }
      Lists.Filter(creatives, (x: Creative) => x.kind == selected.kind)
  }

  lemma FilteredCreativesKeepOrder(a: seq<Creative>, b: seq<Creative>, selected: TypeFilter)
    ensures FilteredCreatives(a + b, selected) == FilteredCreatives(a, selected) + FilteredCreatives(b, selected)
  {
    if selected.OfType? {
      Lists.FilterAppend(a, b, (x: Creative) => x.kind == selected.kind);
    }
  }
}
