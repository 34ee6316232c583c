/** The purchase screen of pages/purchase.js: a page of purchases, the
    suppliers and products its form chooses from, and a modal form with line
    items. */
module PurchaseScreens {
  import opened Wrappers
  import opened JsValues
  import opened Api
  import opened PurchaseItems

  const Purchases: string := "/purchases"

  /** The answer to `GET /purchases/{id}`: the purchase record with the items
      its `attributes.items` holds, or a failure of any kind. */
  datatype RecordOutcome = Fetched(record: Resource, items: seq<Resource>) | FetchFailed

  class PurchaseScreen {
    var list: seq<Resource>
    var links: seq<PageLink>
    var meta: Meta
    var showModal: bool
    var isEditMode: bool
    var current: Option<Resource>
    var form: PurchaseForm
    var suppliers: seq<Resource>
    var products: seq<Resource>
    var errors: Errors
    /** Every API call the screen has issued, oldest first. */
    var requests: seq<Request>

    /** `items` lives only in the line items, and edit mode always has the
        purchase being edited (this screen never drops it). */
    ghost predicate Valid()
      reads this
    {
      NoItemsKey(form) && (isEditMode ==> current.Some?)
    }

    ghost function ListState(): (seq<Resource>, seq<PageLink>, Meta)
      reads this
    {
      (list, links, meta)
    }

    ghost function ModalState(): (bool, bool, Option<Resource>, PurchaseForm, Errors)
      reads this
    {
      (showModal, isEditMode, current, form, errors)
    }

    ghost function Choices(): (seq<Resource>, seq<Resource>)
      reads this
    {
      (suppliers, products)
    }

    /** A freshly mounted screen; `today` is the date the form starts with. */
    constructor(today: string)
      ensures Valid()
      ensures list == [] && links == [] && meta == NoMeta
      ensures !showModal && !isEditMode && current == None
      ensures form == InitialForm(today) && errors == NoErrors
      ensures suppliers == [] && products == [] && requests == []
    {
      list := [];
      links := [];
      meta := NoMeta;
      showModal := false;
      isEditMode := false;
      current := None;
      form := InitialForm(today);
      errors := NoErrors;
      suppliers := [];
      products := [];
      requests := [];
    }

    /** `fetchPurchaseListData(url)`, which is also the page handler this
        screen gives the pagination bar: a null URL is requested as it is. A
        response, which always carries its `meta`, replaces the records, the
        links and the unrenamed meta together. */
    method FetchList(url: Option<string>, o: ListOutcome)
      requires Valid()
      modifies this
      ensures Valid()
      ensures requests == old(requests) + [Get(url)]
      ensures o.Listed? ==> list == o.data && links == o.meta.links && meta == RawMeta(o.meta)
      ensures o.ListFailed? ==> ListState() == old(ListState())
      ensures ModalState() == old(ModalState()) && Choices() == old(Choices())
    {
      requests := requests + [Get(url)];
      if o.Listed? {
        list := o.data;
        links := o.meta.links;
        meta := RawMeta(o.meta);
      }
    }

    /** `fetchSuppliers`: the supplier choices, kept when the request fails. */
    method FetchSuppliers(o: ListOutcome)
      requires Valid()
      modifies this
      ensures Valid()
      ensures requests == old(requests) + [Get(Some("/suppliers"))]
      ensures suppliers == (if o.Listed? then o.data else old(suppliers)) && products == old(products)
      ensures ListState() == old(ListState()) && ModalState() == old(ModalState())
    {
      requests := requests + [Get(Some("/suppliers"))];
      if o.Listed? {
        suppliers := o.data;
      }
    }

    /** `fetchProducts`: the product choices, kept when the request fails. */
    method FetchProducts(o: ListOutcome)
      requires Valid()
      modifies this
      ensures Valid()
      ensures requests == old(requests) + [Get(Some("/products"))]
      ensures products == (if o.Listed? then o.data else old(products)) && suppliers == old(suppliers)
      ensures ListState() == old(ListState()) && ModalState() == old(ModalState())
    {
      requests := requests + [Get(Some("/products"))];
      if o.Listed? {
        products := o.data;
      }
    }

    /** The mount effect: the first page, then the suppliers, then the products. */
    method Mount(o: ListOutcome, sup: ListOutcome, prod: ListOutcome)
      requires Valid()
      modifies this
      ensures Valid()
      ensures requests == old(requests) + [Get(Some(Purchases)), Get(Some("/suppliers")), Get(Some("/products"))]
      ensures o.Listed? ==> list == o.data && links == o.meta.links && meta == RawMeta(o.meta)
      ensures o.ListFailed? ==> ListState() == old(ListState())
      ensures suppliers == (if sup.Listed? then sup.data else old(suppliers))
      ensures products == (if prod.Listed? then prod.data else old(products))
      ensures ModalState() == old(ModalState())
    {
      FetchList(Some(Purchases), o);
      FetchSuppliers(sup);
      FetchProducts(prod);
    }

    /** The Add button: no supplier, `today` as the date, one blank row, no
        errors, add mode, modal open. The current purchase is kept. */
    method OpenAdd(today: string)
      requires Valid()
      modifies this
      ensures Valid()
      ensures form == InitialForm(today) && errors == NoErrors && !isEditMode && showModal
      ensures current == old(current)
      ensures ListState() == old(ListState()) && Choices() == old(Choices()) && requests == old(requests)
    {
      form := InitialForm(today);
      errors := NoErrors;
      isEditMode := false;
      showModal := true;
    }

    /** The Edit button of a row: a GET of that purchase. The fetched record
        seeds the form, its items row by row, and becomes current, with no
        errors, edit mode and the modal open. A failed fetch changes nothing
        but the request log. */
    method OpenEdit(p: Resource, o: RecordOutcome)
      requires Valid()
      modifies this
      ensures Valid()
      ensures requests == old(requests) + [GetOne(Purchases, p.id)]
      ensures o.Fetched? ==> (form == EditForm(o.record.attributes, o.items) && current == Some(o.record)
        && errors == NoErrors && isEditMode && showModal)
      ensures o.FetchFailed? ==> ModalState() == old(ModalState())
      ensures ListState() == old(ListState()) && Choices() == old(Choices())
    {
      requests := requests + [GetOne(Purchases, p.id)];
      if o.Fetched? {
        form := EditForm(o.record.attributes, o.items);
        current := Some(o.record);
        errors := NoErrors;
        isEditMode := true;
        showModal := true;
      }
    }

    /** `handleFormChange`: see `AfterChange`. */
    method FormChange(name: string, value: string)
      requires Valid()
      modifies this
      ensures Valid()
      ensures form == AfterChange(old(form), name, value)
      ensures showModal == old(showModal) && isEditMode == old(isEditMode)
      ensures current == old(current) && errors == old(errors)
      ensures ListState() == old(ListState()) && Choices() == old(Choices()) && requests == old(requests)
    {
      form := AfterChange(form, name, value);
    }

    /** `handleAddItem`: a blank row after the others. */
    method AddItem()
      requires Valid()
      modifies this
      ensures Valid()
      ensures form == WithBlankRow(old(form))
      ensures showModal == old(showModal) && isEditMode == old(isEditMode)
      ensures current == old(current) && errors == old(errors)
      ensures ListState() == old(ListState()) && Choices() == old(Choices()) && requests == old(requests)
    {
      form := WithBlankRow(form);
    }

    /** `handleRemoveItem(index)`: the rows other than the one at `index`. */
    method RemoveItem(index: int)
      requires Valid()
      modifies this
      ensures Valid()
      ensures form == old(form).(items := WithoutItem(old(form).items, index))
      ensures showModal == old(showModal) && isEditMode == old(isEditMode)
      ensures current == old(current) && errors == old(errors)
      ensures ListState() == old(ListState()) && Choices() == old(Choices()) && requests == old(requests)
    {
      form := form.(items := WithoutItem(form.items, index));
    }

    /** The modal's close and Cancel: only the modal closes; unlike the other
        screens the current purchase stays. */
    method Close()
      requires Valid()
      modifies this
      ensures Valid()
      ensures !showModal
      ensures isEditMode == old(isEditMode) && current == old(current)
      ensures form == old(form) && errors == old(errors)
      ensures ListState() == old(ListState()) && Choices() == old(Choices()) && requests == old(requests)
    {
      showModal := false;
    }

    /** `handleSubmit`: the form with its total, PUT to the current purchase in
        edit mode and POSTed otherwise. Accepted, the modal closes, the first
        page is fetched again and the errors are cleared; rejected, the errors
        take the response's message when it has one. */
    method Submit(o: MutationOutcome, reload: ListOutcome)
      requires Valid()
      modifies this
      ensures Valid()
      ensures var sent := if old(isEditMode) then Put(Purchases, old(current).value.id, Payload(old(form)))
                          else Post(Purchases, Payload(old(form)));
        requests == old(requests) + [sent] + (if o.Accepted? then [Get(Some(Purchases))] else [])
      ensures o.Accepted? ==> !showModal && errors == NoErrors
      ensures o.Accepted? && reload.Listed? ==>
        list == reload.data && links == reload.meta.links && meta == RawMeta(reload.meta)
      ensures o.Accepted? && reload.ListFailed? ==> ListState() == old(ListState())
      ensures o.Rejected? ==> errors == ErrorsAfterRejection(old(errors), o.message)
      ensures o.Rejected? ==> showModal == old(showModal) && ListState() == old(ListState())
      ensures form == old(form) && current == old(current) && isEditMode == old(isEditMode)
      ensures Choices() == old(Choices())
    {
      var body := Payload(form);
      var sent := if isEditMode then Put(Purchases, current.value.id, body) else Post(Purchases, body);
      requests := requests + [sent];
      if o.Accepted? {
        showModal := false;
        FetchList(Some(Purchases), reload);
        errors := NoErrors;
      } else {
        errors := ErrorsAfterRejection(errors, o.message);
      }
    }

    /** The Delete button of a row as written: its handler
        `handleDeletePurchaseClick` is not defined anywhere on the screen, so
        the click throws before anything happens. */
    method DeleteClick(id: Value)
      requires Valid()
      modifies this
      ensures Valid()
      ensures requests == old(requests)
      ensures ListState() == old(ListState()) && ModalState() == old(ModalState()) && Choices() == old(Choices())
    {
    }

    /** The Delete handler the button evidently means, the one every other
        screen has: nothing unless the confirm dialog is accepted; then a
        DELETE of the purchase, and the first page fetched again when it is
        accepted. */
    method DeletePurchase(id: Value, confirmed: bool, o: MutationOutcome, reload: ListOutcome)
      requires Valid()
      modifies this
      ensures Valid()
      ensures !confirmed ==> requests == old(requests) && ListState() == old(ListState())
      ensures confirmed ==> (requests == old(requests) + [Delete(Purchases, id)]
        + (if o.Accepted? then [Get(Some(Purchases))] else []))
      ensures confirmed && o.Accepted? && reload.Listed? ==>
        list == reload.data && links == reload.meta.links && meta == RawMeta(reload.meta)
      ensures o.Rejected? || (o.Accepted? && reload.ListFailed?) ==> ListState() == old(ListState())
      ensures ModalState() == old(ModalState()) && Choices() == old(Choices())
    {
      if !confirmed {
        return;
      }
      requests := requests + [Delete(Purchases, id)];
      if o.Accepted? {
        FetchList(Some(Purchases), reload);
      }
    }
  }

  /** A confirmed Delete on a freshly mounted screen: the button as written
      sends no request, the intended handler sends the DELETE of that purchase. */
  method DeleteRequestsCompared(id: Value, today: string) returns (asWritten: seq<Request>, intended: seq<Request>)
    ensures asWritten == []
    ensures intended == [Delete(Purchases, id), Get(Some(Purchases))]
  {
    var written := new PurchaseScreen(today);
    written.DeleteClick(id);
    asWritten := written.requests;
    var fixed := new PurchaseScreen(today);
    fixed.DeletePurchase(id, true, Accepted, ListFailed);
    intended := fixed.requests;
  }
}
