// The products page (components/Products.jsx): the tenant's list of products, kept in step with
// the `products` table by create, rename and delete, with case-insensitive duplicate checks and
// the "+ New product" widget shown only below twenty products.
module Products {
  import opened Wrappers
  import opened Strings
  import opened Entities
  import opened ListPipeline

  const Cap := 20

  const DescriptionRequired := "Description is required!"
  const DescriptionTooLong := "Description must be less than 35 characters!"
  const DescriptionTooShort := "Description must be more than 4 characters!"

  /** The create form's rule (the rename form's is the same with "New description" wording):
      blank first, then over 35, then under 4 characters, counted untrimmed. */
  function DescriptionError(value: string): Option<string>
  {
    if Trim(value) == "" then Some(DescriptionRequired)
    else if |value| > 35 then Some(DescriptionTooLong)
    else if |value| < 4 then Some(DescriptionTooShort)
    else None
  }

  /** A description passes iff it is not blank and has 4 to 35 characters, spaces included. */
  lemma DescriptionRule(value: string)
    ensures DescriptionError(value).None? <==> !IsBlank(value) && 4 <= |value| <= 35
    ensures IsBlank(value) ==> DescriptionError(value) == Some(DescriptionRequired)
  {
  }

  /** `products.find(p => p.description.toLowerCase() === name.toLowerCase())` finds one. */
  predicate Taken(products: seq<Product>, name: string)
  {
    exists i | 0 <= i < |products| :: Lower(products[i].description) == Lower(name)
  }

  /** A product's own name in another case counts as taken. */
  lemma OwnNameIsTaken(products: seq<Product>, i: nat, name: string)
    requires i < |products| && Lower(products[i].description) == Lower(name)
    ensures Taken(products, name)
  {
  }

  /** `{products?.length < 20 && <CreateProductWidget />}` */
  predicate ShowsNewProduct(products: seq<Product>)
  {
    |products| < Cap
  }

  /** Every row with an id is the same row: what the table's primary key guarantees. */
  predicate IdsDetermineRows(rows: seq<Product>)
  {
    forall x, y | x in rows && y in rows :: x.id == y.id ==> x == y
  }

  /** `products.map(p => p.id === id ? { ...p, description: name } : p)`, and equally the
      table's `update({ description }).eq('id', id)`. */
  function Rename(rows: seq<Product>, id: string, name: string): (r: seq<Product>)
    ensures |r| == |rows|
    ensures forall i :: 0 <= i < |rows| ==> r[i] == if rows[i].id == id then Product(id, name) else rows[i]
  {
    seq(|rows|, i requires 0 <= i < |rows| => if rows[i].id == id then rows[i].(description := name) else rows[i])
  }

  lemma RenameKeepsKey(rows: seq<Product>, id: string, name: string)
    requires IdsDetermineRows(rows)
    ensures IdsDetermineRows(Rename(rows, id, name))
  {
    var r := Rename(rows, id, name);
    forall x, y | x in r && y in r && x.id == y.id
      ensures x == y
    {
      var i :| 0 <= i < |r| && r[i] == x;
      var j :| 0 <= j < |r| && r[j] == y;
      assert rows[i].id == x.id && rows[j].id == y.id;
    }
  }

  function Other(product: Product): Product -> bool
  {
    p => p != product
  }

  /** Under the key, dropping the row itself (`item !== product`) is dropping its id, as the
      table's `delete().eq('id', product.id)` does; the remaining rows still obey the key. */
  lemma DropIsDeleteById(rows: seq<Product>, product: Product)
    requires IdsDetermineRows(rows) && product in rows
    ensures Filter(rows, Other(product)) == RemoveById(rows, IdOf, product.id)
    ensures IdsDetermineRows(Filter(rows, Other(product)))
  {
    forall i | 0 <= i < |rows|
      ensures Other(product)(rows[i]) == OtherId(IdOf, product.id)(rows[i])
    {
      assert rows[i] in rows;
    }
    FilterAgree(rows, Other(product), OtherId(IdOf, product.id));
    forall x | x in Filter(rows, Other(product))
      ensures x in rows
    {
      FilterMember(rows, Other(product), x);
    }
  }

  function IdOf(p: Product): string { p.id }

  const Duplicate := Toast("Whoops!", "You already have a product with that name.", "red")
  const DuplicateOnEdit := Toast("Whoops!", "You already have a product with that name!.", "red")
  const Created := Toast("Success!", "Your product has been created!", "green")
  const CreateFailed := Toast("Whoops!", "Sorry, there was an error when creating your product.", "red")
  const EditFailed := Toast("Whoops!", "Sorry, there was an error when updating your product.", "red")
  const DeleteFailed := Toast("Whoops!", "Sorry, there was an error when deleting your product.", "red")

  function Updated(oldName: string): Toast { Toast("Success!", "You have updated " + oldName + "!", "green") }
  function Deleted(name: string): Toast { Toast("Success!", "You have deleted " + name + "!", "green") }

  /** The page's state beside the `products` table it mirrors. */
  class ProductsPage {
    var products: seq<Product>
    var stored: seq<Product>
    var createOpen: bool
    var editingId: Option<string>
    var toast: Option<Toast>

    /** The list mirrors the table, the key holds, and the create modal is open only when it
        was opened from the widget, below the cap. */
    predicate Valid()
      reads this
    {
      products == stored && IdsDetermineRows(stored) && (createOpen ==> ShowsNewProduct(products))
    }

    constructor (data: seq<Product>)
      requires IdsDetermineRows(data)
      ensures Valid() && products == data && stored == data
      ensures !createOpen && editingId.None? && toast.None?
    {
      products := data;
      stored := data;
      createOpen := false;
      editingId := None;
      toast := None;
    }

    /** A click on "+ New product", which is only there below the cap; it toggles the modal. */
    method ClickNewProduct()
      requires Valid()
      modifies this
      ensures Valid()
      ensures createOpen == (!old(createOpen) && ShowsNewProduct(products))
      ensures products == old(products) && stored == old(stored) && editingId == old(editingId) && toast == old(toast)
    {
      if ShowsNewProduct(products) {
        createOpen := !createOpen;
      }
    }

    /** `handleCreateProduct`: acts only while the modal is open, which it closes; a name taken
        in any case is refused; the store's new row, with the fresh id `newId`, is appended. */
    method CreateProduct(product: string, newId: string, insertFails: bool)
      requires Valid() && forall p | p in stored :: p.id != newId
      modifies this
      ensures Valid() && !createOpen && editingId == old(editingId)
      ensures !old(createOpen) ==> products == old(products) && toast == old(toast)
      ensures old(createOpen) && Taken(old(products), product) ==> products == old(products) && toast == Some(Duplicate)
      ensures old(createOpen) && !Taken(old(products), product) && insertFails ==>
                products == old(products) && toast == Some(CreateFailed)
      ensures old(createOpen) && !Taken(old(products), product) && !insertFails ==>
                products == old(products) + [Product(newId, product)] && toast == Some(Created)
      // the list grows only from below the cap, so a create never takes it past twenty
      ensures |products| > |old(products)| ==> |products| <= Cap
    {
      if !createOpen {
        return;
      }
      createOpen := false;
      if Taken(products, product) {
        toast := Some(Duplicate);
        return;
      }
      if insertFails {
        toast := Some(CreateFailed);
        return;
      }
      var row := Product(newId, product);
      stored := stored + [row];
      products := products + [row];
      toast := Some(Created);
    }

    /** The create modal's button: its validation runs first. */
    method SubmitCreate(description: string, newId: string, insertFails: bool)
      requires Valid() && forall p | p in stored :: p.id != newId
      modifies this
      ensures Valid()
      ensures DescriptionError(description).Some? ==> unchanged(this)
      ensures products != old(products) ==>
                DescriptionError(description).None? && products == old(products) + [Product(newId, description)]
    {
      if DescriptionError(description).Some? {
        return;
      }
      CreateProduct(description, newId, insertFails);
    }

    /** `handleProductEdit`: renaming to the same or a blank name does nothing; a name taken in
        any case, the product's own included, is refused; otherwise the table and the list
        change the description of that id only, and the edit modal closes whatever the store says. */
    method EditProduct(id: string, oldName: string, newName: string, updateFails: bool)
      requires Valid()
      modifies this
      ensures Valid() && createOpen == old(createOpen)
      ensures oldName == newName || IsBlank(newName) ==> unchanged(this)
      ensures oldName != newName && !IsBlank(newName) && Taken(old(products), newName) ==>
                products == old(products) && editingId == old(editingId) && toast == Some(DuplicateOnEdit)
      ensures oldName != newName && !IsBlank(newName) && !Taken(old(products), newName) ==>
                editingId.None? &&
                (updateFails ==> products == old(products) && toast == Some(EditFailed)) &&
                (!updateFails ==> products == Rename(old(products), id, newName) && toast == Some(Updated(oldName)))
    {
      if oldName == newName || Trim(newName) == "" {
        return;
      }
      CommitRename(id, oldName, newName, updateFails);
    }

    /** The part of `handleProductEdit` past its blank and same-name guards. */
    method CommitRename(id: string, oldName: string, newName: string, updateFails: bool)
      requires Valid()
      modifies this
      ensures Valid() && createOpen == old(createOpen)
      ensures Taken(old(products), newName) ==>
                products == old(products) && editingId == old(editingId) && toast == Some(DuplicateOnEdit)
      ensures !Taken(old(products), newName) ==>
                editingId.None? &&
                (updateFails ==> products == old(products) && toast == Some(EditFailed)) &&
                (!updateFails ==> products == Rename(old(products), id, newName) && toast == Some(Updated(oldName)))
    {
      if Taken(products, newName) {
        toast := Some(DuplicateOnEdit);
        return;
      }
      if updateFails {
        toast := Some(EditFailed);
      } else {
        toast := Some(Updated(oldName));
        RenameKeepsKey(stored, id, newName);
        stored := Rename(stored, id, newName);
        products := Rename(products, id, newName);
      }
      editingId := None;
    }

    /** `handleProductSave`: the rename form checks the new name with the create form's rule
        before the edit runs, so a refused name changes nothing and a stored name obeys it. */
    method SaveRename(product: Product, newName: string, updateFails: bool)
      requires Valid()
      modifies this
      ensures Valid() && createOpen == old(createOpen)
      ensures DescriptionError(newName).Some? ==> unchanged(this)
      ensures products != old(products) ==>
                DescriptionError(newName).None? && products == Rename(old(products), product.id, newName)
    {
      if DescriptionError(newName).Some? {
        return;
      }
      EditProduct(product.id, product.description, newName, updateFails);
    }

    /** A product's delete: the store delete first, and the local list loses exactly that
        product only when it succeeded. */
    method DeleteProduct(product: Product, deleteFails: bool)
      requires Valid() && product in products
      modifies this
      ensures Valid() && createOpen == old(createOpen) && editingId == old(editingId)
      ensures deleteFails ==> products == old(products) && toast == Some(DeleteFailed)
      ensures !deleteFails ==>
                stored == RemoveById(old(stored), IdOf, product.id) &&
                products == Filter(old(products), Other(product)) &&
                product !in products && toast == Some(Deleted(product.description))
    {
      if deleteFails {
        toast := Some(DeleteFailed);
        return;
      }
      toast := Some(Deleted(product.description));
      DropIsDeleteById(products, product);
      FilterMember(products, Other(product), product);
      stored := RemoveById(stored, IdOf, product.id);
      products := Filter(products, Other(product));
    }
  }

  /** Renaming "Logo" to "logo" is refused as a duplicate of itself. */
  method CaseOnlyRenameRefused() returns (names: seq<string>, shown: Option<Toast>)
    ensures names == ["Logo"] && shown == Some(DuplicateOnEdit)
  {
    var rows := [Product("p1", "Logo")];
    assert IdsDetermineRows(rows);
    var page := new ProductsPage(rows);
    assert LowerChar('L') == 'l';
    assert Lower("Logo") == Lower("logo") by {
      assert forall i :: 0 <= i < 4 ==> Lower("Logo")[i] == Lower("logo")[i];
    }
    OwnNameIsTaken(rows, 0, "logo");
    assert !IsSpace("logo"[0]);
    page.EditProduct("p1", "Logo", "logo", false);
    names, shown := [page.products[0].description], page.toast;
  }
}
