// The manage menu of one commission (components/ManageButton/Commission.jsx): the edit form's
// rules, the edit save, the paid shortcuts and the pin toggle, with the store writes they issue
// and the refresh callbacks they fire on the commissions page.
module CommissionMenu {
  import opened Wrappers
  import opened Strings
  import opened Entities
  import opened ListPipeline

  /** `matches(/^.{3,30}$/)` */
  predicate TitleOk(title: string)
  {
    DotsBetween(title, 3, 30)
  }

  /** `matches(/^[0-9]{1,8}$/)` on the amount's text. */
  predicate DigitsOk(text: string)
  {
    1 <= |text| <= 8 && forall i :: 0 <= i < |text| ==> IsDigit(text[i])
  }

  /** `value.length > 0 ? (value.length > 1500 ? "Notes are too long" : null) : null` */
  function NotesError(notes: string): Option<string>
  {
    if |notes| > 0 then (if |notes| > 1500 then Some("Notes are too long") else None) else None
  }

  /** A number's decimal text has at most k digits exactly when the number is below 10^k. */
  lemma {:induction false} DigitCount(n: nat, k: nat)
    requires k >= 1
    ensures |NatToString(n)| <= k <==> n < Pow10(k)
    decreases n
  {
    if n >= 10 {
      assert |NatToString(n)| == |NatToString(n / 10)| + 1;
      if k == 1 {
        assert Pow10(1) == 10;
      } else {
        DigitCount(n / 10, k - 1);
      }
    } else {
      assert Pow10(k) >= 10 by {
        assert Pow10(k) == 10 * Pow10(k - 1);
      }
    }
  }

  /** A whole amount passes the 1–8 digit rule iff it is below 100 000 000. */
  lemma WholeAmountRule(n: nat)
    ensures DigitsOk(NatToString(n)) <==> n < 100000000
  {
    DigitCount(n, 8);
    assert Pow10(8) == 100000000;
  }

  /** The notes pass iff they have at most 1500 characters. */
  lemma NotesRule(notes: string)
    ensures NotesError(notes).None? <==> |notes| <= 1500
  {
  }

  /** The edit form's values; amounts are kept as the text the rules test. */
  datatype EditForm = EditForm(title: string, trackingId: string, totalValue: string, totalPaid: string,
                               deadline: int, startDate: int, product: Option<string>, status: string,
                               notes: string)

  predicate FormValid(f: EditForm)
  {
    TitleOk(f.title) && DigitsOk(f.totalValue) && DigitsOk(f.totalPaid) && NotesError(f.notes).None?
  }

  /** The columns `handleEditSave` updates; the notes come from the editor. */
  datatype CommissionUpdate = CommissionUpdate(title: string, totalValue: string, totalPaid: string,
                                               deadline: int, startDate: int, product: Option<string>,
                                               status: string, notes: string)

  /** `{ ...form.values, notes, product }` as handed to the page's edit refresh. */
  datatype EditPayload = EditPayload(values: EditForm, notes: string, product: Option<Product>)

  datatype Write = PinWrite(id: string, pinned: bool) | EditWrite(id: string, update: CommissionUpdate)

  datatype Refresh =
    | PaidRefresh(id: string, percentage: int)
    | PinRefresh(id: string, pinned: bool)
    | EditRefresh(id: string, payload: EditPayload)

  function ProductIdOf(p: Product): string { p.id }

  /** `products.find(p => p.id === form.values.product)` */
  function ProductById(products: seq<Product>, id: Option<string>): (r: Option<Product>)
    ensures r.Some? ==> r.value in products && id == Some(r.value.id)
    ensures r.None? ==> id.None? || forall i :: 0 <= i < |products| ==> products[i].id != id.value
  {
    if id.None? then None
    else
      var k := FindIndex(products, ProductIdOf, id.value);
      if k == -1 then None else Some(products[k])
  }

  /** The shortcut's wording: the percentages on the menu, with 100 read as "fully". */
  function PaidWording(amount: int): Option<string>
  {
    if amount == 10 then Some("10%")
    else if amount == 25 then Some("25%")
    else if amount == 50 then Some("50%")
    else if amount == 75 then Some("75%")
    else if amount == 100 then Some("fully")
    else None
  }

  /** Exactly five amounts have a case in the switch. */
  lemma PaidAmounts(amount: int)
    ensures PaidWording(amount).Some? <==> amount in {10, 25, 50, 75, 100}
    ensures PaidWording(amount) == Some("fully") <==> amount == 100
  {
  }

  const WriteFailed := Toast("Error!", "Something went wrong", "red")

  /** The menu of one commission, with what it has sent to the store and to the page. */
  class Menu {
    const commission: Commission
    var writes: seq<Write>
    var refreshes: seq<Refresh>
    var toast: Option<Toast>
    var editOpen: bool

    constructor (commission: Commission)
      ensures this.commission == commission && writes == [] && refreshes == [] && toast.None? && !editOpen
    {
      this.commission := commission;
      writes := [];
      refreshes := [];
      toast := None;
      editOpen := false;
    }

    /** `markAsPaid`: one of the five amounts goes to the page's paid refresh; any other is
        ignored. */
    method MarkAsPaid(amount: int)
      modifies this
      ensures PaidWording(amount).Some? ==>
                refreshes == old(refreshes) + [PaidRefresh(commission.id, amount)] &&
                toast == Some(Toast("Done!", "Commission " + commission.id + " has been marked as " +
                                            PaidWording(amount).value + " paid!", "green"))
      ensures PaidWording(amount).None? ==> refreshes == old(refreshes) && toast == old(toast)
      ensures writes == old(writes) && editOpen == old(editOpen)
    {
      var wording := PaidWording(amount);
      if wording.Some? {
        refreshes := refreshes + [PaidRefresh(commission.id, amount)];
        toast := Some(Toast("Done!", "Commission " + commission.id + " has been marked as " + wording.value + " paid!", "green"));
      }
    }

    /** `handlePin`: the opposite of the current flag is written; the page hears of it only
        when the write succeeded. */
    method Pin(updateFails: bool)
      modifies this
      ensures writes == old(writes) + [PinWrite(commission.id, !commission.pinned)]
      ensures updateFails ==> refreshes == old(refreshes) && toast == Some(WriteFailed)
      ensures !updateFails ==>
                refreshes == old(refreshes) + [PinRefresh(commission.id, !commission.pinned)] &&
                toast == Some(Toast("Done!", "Commission " + commission.id + " has been " +
                                            (if commission.pinned then "un" else "") + "pinned!", "green"))
      ensures editOpen == old(editOpen)
    {
      var pinned := !commission.pinned;
      writes := writes + [PinWrite(commission.id, pinned)];
      if updateFails {
        toast := Some(WriteFailed);
      } else {
        refreshes := refreshes + [PinRefresh(commission.id, pinned)];
        toast := Some(Toast("Done!", "Commission " + commission.id + " has been " + (if pinned then "" else "un") + "pinned!", "green"));
      }
    }

    /** `handleEditSave`: the form is written whether or not it passes its rules; on success
        the page gets the values with the product resolved from its id; the modal closes
        either way. */
    method EditSave(form: EditForm, html: string, products: seq<Product>, updateFails: bool)
      modifies this
      ensures writes == old(writes) + [EditWrite(commission.id,
                CommissionUpdate(form.title, form.totalValue, form.totalPaid, form.deadline, form.startDate,
                                 form.product, form.status, html))]
      ensures updateFails ==> refreshes == old(refreshes) && toast == Some(WriteFailed)
      ensures !updateFails ==>
                refreshes == old(refreshes) + [EditRefresh(commission.id, EditPayload(form, html, ProductById(products, form.product)))] &&
                toast == Some(Toast("Done!", "Commission " + commission.id + " has been edited!", "green"))
      ensures !editOpen
    {
      writes := writes + [EditWrite(commission.id,
                 CommissionUpdate(form.title, form.totalValue, form.totalPaid, form.deadline, form.startDate,
                                  form.product, form.status, html))];
      if updateFails {
        toast := Some(WriteFailed);
      } else {
        refreshes := refreshes + [EditRefresh(commission.id, EditPayload(form, html, ProductById(products, form.product)))];
        toast := Some(Toast("Done!", "Commission " + commission.id + " has been edited!", "green"));
      }
      editOpen := false;
    }
  }

  /** Pinning, then pinning the refreshed commission again, writes the original flag back. */
  method PinTwice(c: Commission) returns (first: Write, second: Write)
    ensures first == PinWrite(c.id, !c.pinned) && second == PinWrite(c.id, c.pinned)
  {
    var menu := new Menu(c);
    menu.Pin(false);
    var refresh := menu.refreshes[0];
    first := menu.writes[0];
    var again := new Menu(c.(pinned := refresh.pinned));
    again.Pin(false);
    second := again.writes[0];
  }

  /** A one-character title, which the form's rule refuses, still reaches the store. */
  method EditSkipsRules(c: Commission, form: EditForm) returns (written: Write)
    requires |form.title| == 1
    ensures !FormValid(form) && written.EditWrite? && written.update.title == form.title
  {
    var menu := new Menu(c);
    menu.EditSave(form, form.notes, [], false);
    written := menu.writes[0];
  }
}
