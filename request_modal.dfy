// The "Create a new request" modal (components/CreateModal/Requests.jsx): the commission picker
// lists each commission once, the picked title selects a commission, and a request is inserted
// only for a description of 3 to 30 characters.
module RequestModal {
  import opened Wrappers
  import opened Strings
  import opened Entities
  import opened ListPipeline

  /** A commission offered in the picker: its id, title and client avatar. */
  datatype CommissionOption = CommissionOption(id: string, title: string, avatarUrl: string)

  function IdOf(c: CommissionOption): string { c.id }
  function TitleOf(c: CommissionOption): string { c.title }

  /** `commissions.reduce((acc, current) => acc.find(item => item.id === current.id) ? acc :
      acc.concat([current]), [])` */
  function UniqueCommissions(commissions: seq<CommissionOption>): seq<CommissionOption>
  {
    if commissions == [] then []
    else
      var acc := UniqueCommissions(commissions[..|commissions| - 1]);
      var current := commissions[|commissions| - 1];
      if FindIndex(acc, IdOf, current.id) != -1 then acc else acc + [current]
  }

  /** Where an id first occurs in the input. */
  function FirstAt(commissions: seq<CommissionOption>, id: string): int
  {
    FindIndex(commissions, IdOf, id)
  }

  /** The first occurrence of an id stays where it was when rows are appended. */
  lemma {:induction false} FindIndexAppend(s: seq<CommissionOption>, x: CommissionOption, id: string)
    ensures FindIndex(s, IdOf, id) != -1 ==> FindIndex(s + [x], IdOf, id) == FindIndex(s, IdOf, id)
    ensures FindIndex(s, IdOf, id) == -1 && x.id == id ==> FindIndex(s + [x], IdOf, id) == |s|
    decreases |s|
  {
    if s != [] {
      assert (s + [x])[1..] == s[1..] + [x];
      FindIndexAppend(s[1..], x, id);
    } else {
      assert [] + [x] == [x];
    }
  }

  /** Each entry of `r` is the input's first row with its id. */
  predicate FirstRows(s: seq<CommissionOption>, r: seq<CommissionOption>)
  {
    forall k :: 0 <= k < |r| ==> 0 <= FirstAt(s, r[k].id) && s[FirstAt(s, r[k].id)] == r[k]
  }

  /** The entries of `r` come in the order of their first rows in the input, so no id twice. */
  predicate InFirstOrder(s: seq<CommissionOption>, r: seq<CommissionOption>)
  {
    forall k, l :: 0 <= k < l < |r| ==> FirstAt(s, r[k].id) < FirstAt(s, r[l].id)
  }

  /** Every id of the input is in `r`. */
  predicate CoversIds(s: seq<CommissionOption>, r: seq<CommissionOption>)
  {
    forall i :: 0 <= i < |s| ==> exists k :: 0 <= k < |r| && r[k].id == s[i].id
  }

  lemma {:induction false} UniqueCoversIds(commissions: seq<CommissionOption>)
    ensures CoversIds(commissions, UniqueCommissions(commissions))
    decreases |commissions|
  {
    if commissions != [] {
      var s := commissions[..|commissions| - 1];
      var x := commissions[|commissions| - 1];
      UniqueCoversIds(s);
      var acc := UniqueCommissions(s);
      var r := UniqueCommissions(commissions);
      assert acc <= r;
      forall i | 0 <= i < |commissions|
        ensures exists k :: 0 <= k < |r| && r[k].id == commissions[i].id
      {
        if i < |s| {
          assert commissions[i] == s[i];
          var k :| 0 <= k < |acc| && acc[k].id == s[i].id;
          assert r[k] == acc[k];
        } else {
          var j := FindIndex(acc, IdOf, x.id);
          if j != -1 {
            assert r[j].id == x.id;
          } else {
            assert r[|acc|] == x;
          }
        }
      }
    }
  }

  /** An id missing from the list is missing from the input. */
  lemma AbsentFromUnique(s: seq<CommissionOption>, id: string)
    requires FindIndex(UniqueCommissions(s), IdOf, id) == -1
    ensures FindIndex(s, IdOf, id) == -1
  {
    UniqueCoversIds(s);
    var acc := UniqueCommissions(s);
    forall i | 0 <= i < |s|
      ensures s[i].id != id
    {
      var k :| 0 <= k < |acc| && acc[k].id == s[i].id;
    }
  }

  /** Appending a row moves no id's first occurrence. */
  lemma AppendedRowKeepsFirst(s: seq<CommissionOption>, x: CommissionOption, acc: seq<CommissionOption>)
    requires FirstRows(s, acc) && InFirstOrder(s, acc)
    ensures FirstRows(s + [x], acc) && InFirstOrder(s + [x], acc)
    ensures forall k :: 0 <= k < |acc| ==> FirstAt(s + [x], acc[k].id) < |s|
  {
    forall k | 0 <= k < |acc|
      ensures FirstAt(s + [x], acc[k].id) == FirstAt(s, acc[k].id)
    {
      FindIndexAppend(s, x, acc[k].id);
    }
  }

  /** A row with a new id joins the list at its end, after every earlier first row. */
  lemma NewRowJoins(s: seq<CommissionOption>, x: CommissionOption, acc: seq<CommissionOption>)
    requires FirstRows(s, acc) && InFirstOrder(s, acc) && FindIndex(s, IdOf, x.id) == -1
    ensures FirstRows(s + [x], acc + [x]) && InFirstOrder(s + [x], acc + [x])
  {
    AppendedRowKeepsFirst(s, x, acc);
    FindIndexAppend(s, x, x.id);
    var r := acc + [x];
    forall k | 0 <= k < |r|
      ensures 0 <= FirstAt(s + [x], r[k].id) && (s + [x])[FirstAt(s + [x], r[k].id)] == r[k]
    {
      if k < |acc| {
        assert r[k] == acc[k];
      }
    }
  }

  lemma {:induction false} UniqueFirstRows(commissions: seq<CommissionOption>)
    ensures FirstRows(commissions, UniqueCommissions(commissions))
    ensures InFirstOrder(commissions, UniqueCommissions(commissions))
    decreases |commissions|
  {
    if commissions != [] {
      var s := commissions[..|commissions| - 1];
      var x := commissions[|commissions| - 1];
      assert commissions == s + [x];
      UniqueFirstRows(s);
      var acc := UniqueCommissions(s);
      if FindIndex(acc, IdOf, x.id) == -1 {
        AbsentFromUnique(s, x.id);
        NewRowJoins(s, x, acc);
      } else {
        AppendedRowKeepsFirst(s, x, acc);
      }
    }
  }

  /** The picker's list keeps the first occurrence of every id and nothing else, in input order. */
  lemma UniqueCommissionsSpec(commissions: seq<CommissionOption>)
    ensures var r := UniqueCommissions(commissions);
            FirstRows(commissions, r) && InFirstOrder(commissions, r) && CoversIds(commissions, r)
  {
    UniqueFirstRows(commissions);
    UniqueCoversIds(commissions);
  }

  predicate DistinctIds(r: seq<CommissionOption>)
  {
    forall k, l :: 0 <= k < l < |r| ==> r[k].id != r[l].id
  }

  /** Every id of the input appears exactly once in the picker. */
  lemma EachIdOnce(commissions: seq<CommissionOption>)
    ensures CoversIds(commissions, UniqueCommissions(commissions))
    ensures DistinctIds(UniqueCommissions(commissions))
  {
    UniqueCommissionsSpec(commissions);
    var r := UniqueCommissions(commissions);
    forall k, l | 0 <= k < l < |r|
      ensures r[k].id != r[l].id
    {
      assert FirstAt(commissions, r[k].id) < FirstAt(commissions, r[l].id);
    }
  }

  /** `uniqueCommissions.find(item => item.title === form.values.commission)` */
  function Selected(unique: seq<CommissionOption>, title: string): (r: Option<CommissionOption>)
    ensures r.Some? ==> r.value in unique && r.value.title == title
    ensures r.None? <==> forall k :: 0 <= k < |unique| ==> unique[k].title != title
  {
    var k := FindIndex(unique, TitleOf, title);
    if k == -1 then None else Some(unique[k])
  }

  /** The selection is the first listed commission with that title. */
  lemma SelectedIsFirst(unique: seq<CommissionOption>, title: string)
    requires Selected(unique, title).Some?
    ensures exists k :: 0 <= k < |unique| && unique[k] == Selected(unique, title).value &&
                        forall j :: 0 <= j < k ==> unique[j].title != title
  {
    var k := FindIndex(unique, TitleOf, title);
    assert unique[k] == Selected(unique, title).value;
  }

  /** The form's values; `commission` holds the picked commission's title. */
  datatype RequestForm = RequestForm(description: string, offeredAmount: real, commission: string,
                                     deadline: int, status: string)

  /** The inserted row: the form's fields with the selected commission's id. */
  datatype NewRequest = NewRequest(description: string, offeredAmount: real, commission: string,
                                   deadline: int, status: string)

  /** What `handleUpdate` receives: the stored row with the commission's title and avatar joined. */
  datatype Created = Created(id: string, row: NewRequest, commissionTitle: string, avatarUrl: string)

  function InitialForm(now: int): RequestForm
  {
    RequestForm("", 0.0, "", now, "not_started")
  }

  function RowOf(form: RequestForm, selected: CommissionOption): NewRequest
  {
    NewRequest(form.description, form.offeredAmount, selected.id, form.deadline, form.status)
  }

  const RequestFailed := Toast("Error!", "New request could not be made!", "red")
  const RequestMade := Toast("Done!", "New request has been made!", "green")

  class Modal {
    const initial: RequestForm
    var form: RequestForm
    var open: bool
    var stored: seq<NewRequest>
    var updates: seq<Created>
    var toast: Option<Toast>

    /** The form starts empty, at status "not_started", with the mount time as deadline. */
    constructor (now: int, open: bool)
      ensures initial == InitialForm(now) && form == initial && initial.status == "not_started"
      ensures this.open == open && stored == [] && updates == [] && toast.None?
    {
      initial := InitialForm(now);
      form := InitialForm(now);
      this.open := open;
      stored := [];
      updates := [];
      toast := None;
    }

    /** `handleCreate`: a description failing its rule stops everything; with no commission
        picked the lookup's `undefined` is dereferenced and the handler throws before the
        insert; otherwise the row is inserted and, on success, handed to the page; the modal
        then closes and the form resets, whatever the store said. */
    method Create(commissions: seq<CommissionOption>, newId: string, insertFails: bool) returns (threw: bool)
      modifies this
      ensures !DotsBetween(old(form).description, 3, 30) ==> !threw && unchanged(this)
      ensures var selected := Selected(UniqueCommissions(commissions), old(form).commission);
              DotsBetween(old(form).description, 3, 30) ==>
                (selected.None? ==> threw && unchanged(this)) &&
                (selected.Some? ==>
                   !threw && open == !old(open) && form == initial &&
                   (insertFails ==> stored == old(stored) && updates == old(updates) && toast == Some(RequestFailed)) &&
                   (!insertFails ==>
                      stored == old(stored) + [RowOf(old(form), selected.value)] &&
                      updates == old(updates) + [Created(newId, RowOf(old(form), selected.value),
                                                         selected.value.title, selected.value.avatarUrl)] &&
                      toast == Some(RequestMade)))
    {
      threw := false;
      if !DotsBetween(form.description, 3, 30) {
        return;
      }
      var selected := Selected(UniqueCommissions(commissions), form.commission);
      if selected.None? {
        return true;
      }
      var row := RowOf(form, selected.value);
      if insertFails {
        toast := Some(RequestFailed);
      } else {
        stored := stored + [row];
        updates := updates + [Created(newId, row, selected.value.title, selected.value.avatarUrl)];
        toast := Some(RequestMade);
      }
      open := !open;
      form := initial;
    }
  }
}
