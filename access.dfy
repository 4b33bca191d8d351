/**
 * Role rules of the dashboard: which sale actions a user may take and which sales a user
 * sees. A missing user (nobody logged in) is `None`.
 */
module Access {
  import opened Wrappers
  import opened Types

  datatype Action = Add | Edit | Delete

  /**
   * `userCan`: an admin may add, edit and delete; a gerente may only add; a corretor or a
   * financeiro may do none of them; without a user nothing is allowed.
   */
  function UserCan(action: Action, user: Option<User>): (ok: bool)
    ensures user.None? ==> !ok
    ensures ok <==> user.Some? && (user.value.role == Admin || (user.value.role == Gerente && action == Add))
  {
    match user
    case None => false
    case Some(u) =>
      match u.role
      case Admin => true
      case Gerente => action == Add
      case _ => false
  }

  /** The permission matrix written out as a table, one entry per role and action. */
  const PermissionTable: map<(UserRole, Action), bool> := map[
    (Admin, Add) := true, (Admin, Edit) := true, (Admin, Delete) := true,
    (Gerente, Add) := true, (Gerente, Edit) := false, (Gerente, Delete) := false,
    (Corretor, Add) := false, (Corretor, Edit) := false, (Corretor, Delete) := false,
    (Financeiro, Add) := false, (Financeiro, Edit) := false, (Financeiro, Delete) := false]

  /** `userCan` agrees with the table for every user and every action. */
  lemma UserCanIsTable(action: Action, u: User)
    ensures (u.role, action) in PermissionTable
    ensures UserCan(action, Some(u)) == PermissionTable[(u.role, action)]
  {
    match u.role
    case Admin =>
    case Gerente =>
    case Corretor =>
    case Financeiro =>
  }

  /** Whether a sale is in the user's view: corretores see their own sales, everyone else all. */
  predicate Sees(user: Option<User>, s: Sale)
  {
    user.Some? && (user.value.role == Corretor ==> s.corretor == user.value.name)
  }

  /** The sales whose `corretor` is exactly `name`, in their original order. */
  function SalesOf(sales: seq<Sale>, name: string): (r: seq<Sale>)
    ensures |r| <= |sales|
    ensures forall x :: x in r ==> x.corretor == name
    decreases |sales|
  {
    if sales == [] then []
    else
      var init, last := sales[..|sales| - 1], sales[|sales| - 1];
      SalesOf(init, name) + (if last.corretor == name then [last] else [])
  }

  /** Each sale of the agent keeps every occurrence; no other sale survives. */
  lemma {:induction false} SalesOfCount(sales: seq<Sale>, name: string)
    ensures forall x :: multiset(SalesOf(sales, name))[x] == if x.corretor == name then multiset(sales)[x] else 0
    decreases |sales|
  {
    if sales != [] {
      var init, last := sales[..|sales| - 1], sales[|sales| - 1];
      assert sales == init + [last];
      SalesOfCount(init, name);
    }
  }

  /** Filtering by agent distributes over concatenation, so it keeps the original order. */
  lemma {:induction false} SalesOfAppend(a: seq<Sale>, b: seq<Sale>, name: string)
    ensures SalesOf(a + b, name) == SalesOf(a, name) + SalesOf(b, name)
    decreases |b|
  {
    if b == [] {
      assert a + b == a;
    } else {
      var init, last := b[..|b| - 1], b[|b| - 1];
      var tail := if last.corretor == name then [last] else [];
      assert (a + b)[..|a + b| - 1] == a + init;
      assert (a + b)[|a + b| - 1] == last;
      assert SalesOf(a + b, name) == SalesOf(a + init, name) + tail;
      assert SalesOf(b, name) == SalesOf(init, name) + tail;
      SalesOfAppend(a, init, name);
    }
  }

  /**
   * `visibleSales`: nobody sees nothing, a corretor sees exactly the sales whose `corretor` is
   * their name, every other role sees the whole list. Each sale the user may see keeps all of
   * its occurrences.
   */
  function VisibleSales(sales: seq<Sale>, user: Option<User>): (v: seq<Sale>)
    ensures forall x :: multiset(v)[x] == if Sees(user, x) then multiset(sales)[x] else 0
    ensures forall x :: x in v ==> Sees(user, x)
    ensures user.Some? && user.value.role != Corretor ==> v == sales
  {
    match user
    case None => []
    case Some(u) =>
      if u.role == Corretor then
        SalesOfCount(sales, u.name);
        SalesOf(sales, u.name)
      else sales
  }

  /** The visible list keeps the original order: it distributes over concatenation. */
  lemma VisibleSalesAppend(a: seq<Sale>, b: seq<Sale>, user: Option<User>)
    ensures VisibleSales(a + b, user) == VisibleSales(a, user) + VisibleSales(b, user)
  {
    if user.Some? && user.value.role == Corretor {
      SalesOfAppend(a, b, user.value.name);
    }
  }

  /** Viewing is idempotent: filtering the visible list again changes nothing. */
  lemma {:induction false} VisibleSalesIdempotent(sales: seq<Sale>, user: Option<User>)
    ensures VisibleSales(VisibleSales(sales, user), user) == VisibleSales(sales, user)
    decreases |sales|
  {
    if user.Some? && user.value.role == Corretor && sales != [] {
      var name := user.value.name;
      var init, last := sales[..|sales| - 1], sales[|sales| - 1];
      VisibleSalesIdempotent(init, user);
      SalesOfAppend(SalesOf(init, name), if last.corretor == name then [last] else [], name);
    }
  }
}
