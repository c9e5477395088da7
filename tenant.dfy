/**
 * The tenant-isolation guard: one "current company" slot, the default-deny
 * scoped manager (`objects`), the unscoped manager (`all_objects`), the
 * `tenant_context` block and the request middleware that fills and clears
 * the slot.
 */
module Tenant {
  import opened Wrappers

  /** Database primary keys are positive integers. */
  type Id = x: int | x >= 1 witness 1
  type CompanyId = Id

  /** The thread-local `company` attribute; `None` until something sets it. */
  class TenantSlot {
    var company: Option<CompanyId>

    constructor ()
      ensures company == None
    {
      company := None;
    }

    /** `set_current_company(company)`. */
    method SetCurrentCompany(c: Option<CompanyId>)
      modifies this
      ensures company == c
    {
      company := c;
    }

    /** `get_current_company()`: the value last set, `None` if never set. */
    function GetCurrentCompany(): (r: Option<CompanyId>)
      reads this
      ensures r == company
    {
      company
    }
  }

  /** `get_current_company` returns the value of the last `set_current_company`. */
  method SetThenGet(slot: TenantSlot, first: Option<CompanyId>, last: Option<CompanyId>) returns (r: Option<CompanyId>)
    modifies slot
    ensures r == last && slot.company == last
  {
    slot.SetCurrentCompany(first);
    slot.SetCurrentCompany(last);
    r := slot.GetCurrentCompany();
  }

  /**
   * `CompanyScopedManager.get_queryset()` over a table whose rows belong to
   * the company `owner(row)`: nothing without a current company, otherwise
   * exactly the current company's rows, in table order.
   */
  function ScopedFilter<T(!new)>(rows: seq<T>, owner: T -> CompanyId, current: Option<CompanyId>): (r: seq<T>)
    ensures current == None ==> r == []
    ensures forall x :: x in r <==> x in rows && current == Some(owner(x))
    ensures |r| <= |rows|
  {
    if current == None || rows == [] then []
    else
      var rest := ScopedFilter(rows[1..], owner, current);
      if owner(rows[0]) == current.value then [rows[0]] + rest else rest
  }

  /** The unscoped `all_objects` manager: the whole table, whatever the slot holds. */
  function AllObjects<T(!new)>(rows: seq<T>): seq<T> {
    rows
  }

  /** Scoped results are always drawn from the unscoped table. */
  lemma ScopedIsSubsetOfAll<T(!new)>(rows: seq<T>, owner: T -> CompanyId, current: Option<CompanyId>)
    ensures forall x :: x in ScopedFilter(rows, owner, current) ==> x in AllObjects(rows)
  {
  }

  /** Scoped filtering keeps the table order: it is the comprehension over matching rows. */
  lemma {:induction false} ScopedKeepsOrder<T(!new)>(rows: seq<T>, owner: T -> CompanyId, c: CompanyId, i: nat, j: nat)
    requires i < j < |rows| && owner(rows[i]) == c && owner(rows[j]) == c
    ensures exists a, b :: (0 <= a < b < |ScopedFilter(rows, owner, Some(c))|
      && ScopedFilter(rows, owner, Some(c))[a] == rows[i]
      && ScopedFilter(rows, owner, Some(c))[b] == rows[j])
  {
    var rest := ScopedFilter(rows[1..], owner, Some(c));
    var r := ScopedFilter(rows, owner, Some(c));
    if i == 0 {
      assert rows[j] == rows[1..][j - 1];
      assert rows[j] in rest;
      var b' :| 0 <= b' < |rest| && rest[b'] == rows[j];
      assert r == [rows[0]] + rest;
      assert r[0] == rows[i] && r[b' + 1] == rows[j];
    } else {
      assert rows[i] == rows[1..][i - 1] && rows[j] == rows[1..][j - 1];
      ScopedKeepsOrder(rows[1..], owner, c, i - 1, j - 1);
      var a', b' :| 0 <= a' < b' < |rest| && rest[a'] == rows[i] && rest[b'] == rows[j];
      if owner(rows[0]) == c {
        assert r == [rows[0]] + rest;
        assert r[a' + 1] == rows[i] && r[b' + 1] == rows[j];
      } else {
        assert r == rest;
      }
    }
  }

  /** A scoped query returns no row more often than the table holds it. */
  lemma {:induction false} ScopedSubMultiset<T(!new)>(rows: seq<T>, owner: T -> CompanyId, current: Option<CompanyId>)
    ensures multiset(ScopedFilter(rows, owner, current)) <= multiset(rows)
  {
    if current != None && rows != [] {
      ScopedSubMultiset(rows[1..], owner, current);
      assert rows == [rows[0]] + rows[1..];
    }
  }

  /** Results scoped to two different tenants share no row. */
  lemma ScopedDisjoint<T(!new)>(rows: seq<T>, owner: T -> CompanyId, a: CompanyId, b: CompanyId)
    requires a != b
    ensures forall x :: x in ScopedFilter(rows, owner, Some(a)) ==> x !in ScopedFilter(rows, owner, Some(b))
  {
  }

  /** `objects.get(id=...)`: the first scoped row carrying that id, `None` for `DoesNotExist`. */
  function GetById<T(!new)>(rows: seq<T>, owner: T -> CompanyId, idOf: T -> int, current: Option<CompanyId>, id: int): (r: Option<T>)
    ensures r.Some? ==> r.value in rows && idOf(r.value) == id && current == Some(owner(r.value))
    ensures r.None? ==> forall x :: x in rows && idOf(x) == id ==> current != Some(owner(x))
  {
    FirstWithId(ScopedFilter(rows, owner, current), idOf, id)
  }

  function FirstWithId<T(!new)>(rows: seq<T>, idOf: T -> int, id: int): (r: Option<T>)
    ensures r.Some? ==> r.value in rows && idOf(r.value) == id
    ensures r.None? <==> forall x :: x in rows ==> idOf(x) != id
  {
    if rows == [] then None
    else if idOf(rows[0]) == id then Some(rows[0])
    else FirstWithId(rows[1..], idOf, id)
  }

  /** Looking up another tenant's row by its id through the scoped manager finds nothing. */
  lemma {:induction false} CrossTenantLookupFindsNothing<T(!new)>(rows: seq<T>, owner: T -> CompanyId, idOf: T -> int, c: CompanyId, x: T)
    requires x in rows && owner(x) != c
    requires forall i, j :: 0 <= i < j < |rows| ==> idOf(rows[i]) != idOf(rows[j])
    ensures GetById(rows, owner, idOf, Some(c), idOf(x)) == None
  {
    var scoped := ScopedFilter(rows, owner, Some(c));
    forall y | y in scoped
      ensures idOf(y) != idOf(x)
    {
      var i :| 0 <= i < |rows| && rows[i] == x;
      var j :| 0 <= j < |rows| && rows[j] == y;
      assert owner(y) == c;
      assert i != j;
    }
  }

  // ---- tenant_context ------------------------------------------------------

  /** Entering `with tenant_context(c)`: the slot now holds `c`. */
  method EnterScope(slot: TenantSlot, c: Option<CompanyId>)
    modifies slot
    ensures slot.company == c
  {
    slot.SetCurrentCompany(c);
  }

  /** Leaving the block, normally or by an exception: the slot is cleared, never restored. */
  method ExitScope(slot: TenantSlot)
    modifies slot
    ensures slot.company == None
  {
    slot.SetCurrentCompany(None);
  }

  /**
   * One `with tenant_context(c):` block whose body reads a scoped table and
   * then finishes normally or raises. The body sees exactly `c`'s rows; on
   * exit the slot is `None` either way and an exception still propagates.
   */
  method RunInContext<T(!new)>(slot: TenantSlot, c: Option<CompanyId>, rows: seq<T>, owner: T -> CompanyId, bodyRaises: bool)
    returns (seen: seq<T>, outcome: Outcome)
    modifies slot
    ensures seen == ScopedFilter(rows, owner, c)
    ensures slot.company == None
    ensures outcome == (if bodyRaises then Raised else Completed)
  {
    EnterScope(slot, c);
    seen := ScopedFilter(rows, owner, slot.GetCurrentCompany());
    outcome := if bodyRaises then Raised else Completed;
    ExitScope(slot);
  }

  /**
   * A block for `inner` nested inside a block for `outer`. Reads before the
   * inner block see `outer`'s rows; reads after it, still inside the outer
   * block, see nothing, because exit clears instead of restoring.
   */
  method NestedScopes<T(!new)>(slot: TenantSlot, outer: CompanyId, inner: CompanyId, rows: seq<T>, owner: T -> CompanyId)
    returns (beforeInner: seq<T>, inInner: seq<T>, afterInner: seq<T>)
    modifies slot
    ensures beforeInner == ScopedFilter(rows, owner, Some(outer))
    ensures inInner == ScopedFilter(rows, owner, Some(inner))
    ensures afterInner == []
    ensures slot.company == None
  {
    EnterScope(slot, Some(outer));
    beforeInner := ScopedFilter(rows, owner, slot.GetCurrentCompany());
    EnterScope(slot, Some(inner));
    inInner := ScopedFilter(rows, owner, slot.GetCurrentCompany());
    ExitScope(slot);
    afterInner := ScopedFilter(rows, owner, slot.GetCurrentCompany());
    ExitScope(slot);
  }

  /** Two blocks one after the other: each sees only its own tenant's rows. */
  method SequentialScopes<T(!new)>(slot: TenantSlot, a: CompanyId, b: CompanyId, rows: seq<T>, owner: T -> CompanyId)
    returns (seenA: seq<T>, seenB: seq<T>)
    modifies slot
    ensures forall x :: x in seenA <==> x in rows && owner(x) == a
    ensures forall x :: x in seenB <==> x in rows && owner(x) == b
    ensures a != b ==> forall x :: x in seenA ==> x !in seenB
    ensures slot.company == None
  {
    var oa, ob;
    seenA, oa := RunInContext(slot, Some(a), rows, owner, false);
    seenB, ob := RunInContext(slot, Some(b), rows, owner, false);
  }

  // ---- CurrentCompanyMiddleware ------------------------------------------

  /** A user profile object; `hasCompany` says whether it has a `company` attribute at all. */
  datatype Profile = Profile(hasCompany: bool, company: Option<CompanyId>)

  /**
   * The authenticated-user flag and the profile objects reachable as
   * attributes of the user; a name missing from the map reads as `None`.
   */
  datatype User = User(isAuthenticated: bool, profiles: map<string, Profile>, isSuperuser: bool)

  /** The request object: the middleware writes its `company` attribute. */
  class Request {
    const user: User
    var company: Option<CompanyId>

    constructor (u: User)
      ensures user == u && company == None
    {
      user := u;
      company := None;
    }
  }

  const ProfileAttrs: seq<string> := ["profile", "userprofile", "driver_profile"]

  /** The first of `names` naming a profile with a `company` attribute gives the company. */
  function FirstProfileCompany(profiles: map<string, Profile>, names: seq<string>): Option<CompanyId> {
    if names == [] then None
    else if names[0] in profiles && profiles[names[0]].hasCompany then profiles[names[0]].company
    else FirstProfileCompany(profiles, names[1..])
  }

  /** The company `process_request` attaches for a user. */
  function RequestCompany(u: User): Option<CompanyId> {
    if u.isAuthenticated then FirstProfileCompany(u.profiles, ProfileAttrs) else None
  }

  /**
   * Profile lookup order: the `k`-th attribute name decides when every name
   * before it has no profile with a `company` attribute.
   */
  lemma {:induction false} ProfileLookupOrder(profiles: map<string, Profile>, names: seq<string>, k: nat)
    requires k < |names|
    requires names[k] in profiles && profiles[names[k]].hasCompany
    requires forall j :: 0 <= j < k ==> !(names[j] in profiles && profiles[names[j]].hasCompany)
    ensures FirstProfileCompany(profiles, names) == profiles[names[k]].company
  {
    if k > 0 {
      assert !(names[0] in profiles && profiles[names[0]].hasCompany);
      ProfileLookupOrder(profiles, names[1..], k - 1);
    }
  }

  /** With no profile having a `company` attribute the company is `None`. */
  lemma {:induction false} NoProfileNoCompany(profiles: map<string, Profile>, names: seq<string>)
    requires forall j :: 0 <= j < |names| ==> !(names[j] in profiles && profiles[names[j]].hasCompany)
    ensures FirstProfileCompany(profiles, names) == None
  {
    if names != [] {
      NoProfileNoCompany(profiles, names[1..]);
    }
  }

  /**
   * `process_request`: try the profile attributes in order, stop at the first
   * present profile that has a `company` attribute, and attach its company
   * (possibly `None`) both to the request and to the slot.
   */
  method ProcessRequest(slot: TenantSlot, request: Request)
    modifies slot, request
    ensures request.company == slot.company == RequestCompany(request.user)
  {
    var company: Option<CompanyId> := None;
    if request.user.isAuthenticated {
      var i := 0;
      while i < |ProfileAttrs|
        invariant 0 <= i <= |ProfileAttrs|
        invariant company == None
        invariant FirstProfileCompany(request.user.profiles, ProfileAttrs)
               == FirstProfileCompany(request.user.profiles, ProfileAttrs[i..])
      {
        var name := ProfileAttrs[i];
        if name in request.user.profiles && request.user.profiles[name].hasCompany {
          company := request.user.profiles[name].company;
          break;
        }
        assert ProfileAttrs[i..][1..] == ProfileAttrs[i + 1..];
        i := i + 1;
      }
    }
    request.company := company;
    slot.SetCurrentCompany(company);
  }

  /** An anonymous request leaves the slot empty, so every scoped read returns nothing. */
  method AnonymousRequestSeesNothing<T(!new)>(slot: TenantSlot, request: Request, rows: seq<T>, owner: T -> CompanyId)
    returns (seen: seq<T>)
    requires !request.user.isAuthenticated
    modifies slot, request
    ensures request.company == None && slot.company == None
    ensures seen == []
  {
    ProcessRequest(slot, request);
    seen := ScopedFilter(rows, owner, slot.GetCurrentCompany());
  }

  /** `process_response`: clear the slot and hand the response back unchanged. */
  method ProcessResponse<R>(slot: TenantSlot, response: R) returns (r: R)
    modifies slot
    ensures r == response && slot.company == None
  {
    slot.SetCurrentCompany(None);
    r := response;
  }

  /** `process_exception`: clear the slot and return `None` so the exception propagates. */
  method ProcessException<R>(slot: TenantSlot) returns (r: Option<R>)
    modifies slot
    ensures r == None && slot.company == None
  {
    slot.SetCurrentCompany(None);
    r := None;
  }
}
