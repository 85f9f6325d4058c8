// The sidebar (components/Sidebar/Sidebar.jsx): the active-commission widget, the masked e-mail
// under the user's name, which link group is highlighted, and deleting a saved view.
module Sidebar {
  import opened Wrappers
  import opened Strings
  import opened Entities
  import opened ListPipeline
  import opened Overview
  import opened Views

  // ---- the active-commission widget ----

  /** The query's `.neq('status', 'completed').neq('status', 'cancelled')` */
  predicate IsActive(c: Commission) { c.status != "completed" && c.status != "cancelled" }

  datatype WidgetStats = WidgetStats(value: real, total: nat)

  /** The widget's figures: how many active commissions there are and their value. */
  function Widget(commissions: seq<Commission>): WidgetStats
  {
    var active := Filter(commissions, IsActive);
    WidgetStats(SumOf(active, Value), |active|)
  }

  /** The widget's value and count are what the completed and cancelled commissions leave of
      the whole. */
  lemma WidgetIsWholeLessClosed(commissions: seq<Commission>)
    ensures Widget(commissions).value + SumOf(Filter(commissions, Not(IsActive)), Value) == SumOf(commissions, Value)
    ensures Widget(commissions).total + |Filter(commissions, Not(IsActive))| == |commissions|
  {
    SumSplits(commissions, Value, IsActive);
    CountSplits(commissions, IsActive);
  }

  /** A commission counts towards the widget exactly when it is neither completed nor cancelled. */
  lemma WidgetMembers(commissions: seq<Commission>, c: Commission)
    ensures c in Filter(commissions, IsActive) <==> c in commissions && c.status != "completed" && c.status != "cancelled"
  {
    FilterMember(commissions, IsActive, c);
  }

  // ---- the masked e-mail ----

  function Max0(n: int): nat { if n < 0 then 0 else n }

  /** `email.replace(/(.{0})(.*)(.{1}@.*)/, '$1' + '*'.repeat(max(0, local.length - 2)) + '$3')`,
      where `local` is `email.split('@')[0]`: without a character before the last "@" nothing
      matches; otherwise all before the character preceding the last "@" becomes the stars. */
  function MaskEmail(email: string): string
    requires forall i :: 0 <= i < |email| ==> !IsLineTerminator(email[i])
  {
    var k := AfterLast(email, '@');
    if k < 2 then email
    else Repeat('*', Max0(|SplitOn(email, "@")[0]| - 2)) + email[k - 2..]
  }

  /** A position just after an `@` with none following is where the last `@` is. */
  lemma LastAtIs(s: string, k: nat)
    requires 0 < k <= |s| && s[k - 1] == '@'
    requires forall i :: k <= i < |s| ==> s[i] != '@'
    ensures AfterLast(s, '@') == k
  {
    var j := AfterLast(s, '@');
    assert j >= k;
  }

  /** The last "@" of `a + "@" + b` is the one between them when `b` has none. */
  lemma LastAtBetween(email: string, a: string, b: string)
    requires '@' !in b && email == a + "@" + b
    ensures AfterLast(email, '@') == |a| + 1
  {
    assert email[|a|] == '@';
    forall i | |a| < i < |email|
      ensures email[i] != '@'
    {
      assert email[i] == b[i - |a| - 1];
    }
    LastAtIs(email, |a| + 1);
  }

  /** `(a + "@" + b).split('@')[0]` is `a` when `a` has no "@". */
  lemma LocalPart(email: string, a: string, b: string)
    requires '@' !in a && email == a + "@" + b
    ensures SplitOn(email, "@")[0] == a
  {
    ContainsChar(a, '@');
    SplitOnAbsent(a, "@");
    SplitAtSeparator(a, '@', b);
    assert email == a + ['@'] + b;
  }

  /** For an address `local@domain` with one "@" and a non-empty local part of n characters,
      the mask is max(0, n - 2) stars, the last local character, and "@domain". */
  lemma MaskOneAt(email: string, local: string, domain: string)
    requires '@' !in local && '@' !in domain && |local| >= 1 && email == local + "@" + domain
    requires forall i :: 0 <= i < |email| ==> !IsLineTerminator(email[i])
    ensures MaskEmail(email) == Repeat('*', Max0(|local| - 2)) + [local[|local| - 1]] + "@" + domain
  {
    LastAtBetween(email, local, domain);
    LocalPart(email, local, domain);
    assert email[|local| - 1..] == [local[|local| - 1]] + "@" + domain;
  }

  /** An address without "@", or starting with it, is shown as it is. */
  lemma MaskNeedsLocalCharacter(email: string)
    requires forall i :: 0 <= i < |email| ==> !IsLineTerminator(email[i])
    requires '@' !in email || (email[0] == '@' && '@' !in email[1..])
    ensures MaskEmail(email) == email
  {
    if '@' in email {
      var k := AfterLast(email, '@');
      assert forall i :: 1 <= i < |email| ==> email[i] == email[1..][i - 1];
      assert k <= 1;
    }
  }

  // ---- the highlighted link group ----

  /** `s.replace(c, "")` with a string pattern: only the first occurrence goes. */
  function RemoveFirst(s: string, c: char): (r: string)
    ensures c !in s ==> r == s
    ensures c in s ==> |r| == |s| - 1
  {
    if s == [] then []
    else if s[0] == c then s[1..]
    else [s[0]] + RemoveFirst(s[1..], c)
  }

  /** `label.toLowerCase().includes(pathname.replace("/", ""))` */
  predicate IsActiveGroup(name: string, pathname: string)
  {
    Contains(Lower(name), RemoveFirst(pathname, '/'))
  }

  /** For a path "/" + p, the group is active iff its lower-cased label contains p; in
      particular every group is active on "/". */
  lemma ActiveGroupIff(name: string, p: string)
    ensures IsActiveGroup(name, "/" + p) <==> Contains(Lower(name), p)
    ensures IsActiveGroup(name, "/")
  {
    assert ("/" + p)[1..] == p;
    assert "/"[1..] == [];
    EmptyIsContained(Lower(name));
  }

  // ---- deleting a saved view ----

  function OtherView(id: int): View -> bool { (v: View) => v.id != id }

  const ViewDeleteFailed := Toast("Whoops!", "An error occurred while deleting the view", "red")
  const ViewDeleted := Toast("Success!", "View has been deleted", "green")

  /** The `panel_views` table. */
  class ViewTable {
    var views: seq<View>

    constructor (views: seq<View>)
      ensures this.views == views
    {
      this.views := views;
    }
  }

  /** `handleDeleteView`: the view is deleted, and only after a successful delete are the
      sidebar's links read again (a failed read keeps the old ones). */
  method DeleteView(table: ViewTable, provider: ViewsProvider, viewId: int, deleteFails: bool, readFails: bool)
    returns (toast: Toast)
    modifies table, provider
    ensures deleteFails ==>
              toast == ViewDeleteFailed && table.views == old(table.views) &&
              provider.viewsData == old(provider.viewsData)
    ensures !deleteFails ==>
              toast == ViewDeleted && table.views == Filter(old(table.views), OtherView(viewId)) &&
              provider.viewsData == (if readFails then old(provider.viewsData) else Transform(table.views))
    // once read again, no link is left for the deleted view
    ensures !deleteFails && !readFails ==> forall k :: 0 <= k < |provider.viewsData| ==> provider.viewsData[k].id != viewId
  {
    if deleteFails {
      return ViewDeleteFailed;
    }
    table.views := Filter(table.views, OtherView(viewId));
    toast := ViewDeleted;
    var answer: Result<seq<View>, string> := if readFails then Err("read failed") else Ok(table.views);
    provider.RefreshData(answer);
    if !readFails {
      forall k | 0 <= k < |provider.viewsData|
        ensures provider.viewsData[k].id != viewId
      {
        assert provider.viewsData[k].id == table.views[k].id;
        FilterMember(old(table.views), OtherView(viewId), table.views[k]);
      }
    }
  }
}
