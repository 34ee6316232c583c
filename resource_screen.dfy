/** The four list-and-modal screens of pages/supplier.js, pages/category.js,
    pages/user.js and pages/product.js. They share one shape: a page of records
    with its pagination, a modal form for adding or editing one record, and the
    errors of the last rejected submit that carried a message. They differ in the field template, in
    the collection they talk to, in how they store the pagination meta, and in
    the product screen's SKU derivation. */
module ResourceScreens {
  import opened Wrappers
  import opened JsValues
  import opened Api
  import opened ProductSku

  datatype Kind = Supplier | Category | User | Product

  /** The collection a screen lists, creates in, updates and deletes from. */
  function Collection(kind: Kind): string {
    match kind
    case Supplier => "/suppliers"
    case Category => "/categories"
    case User => "/users"
    case Product => "/products"
  }

  /** The form fields of each screen, in the source's order. */
  function Fields(kind: Kind): seq<string> {
    match kind
    case Supplier => ["name", "contact_info", "address"]
    case Category => ["name", "description"]
    case User => ["name", "email"]
    case Product => ["name", "SKU", "price", "initial_stock_quantity", "category_id"]
  }

  function FieldSet(kind: Kind): set<string> {
    set k | k in Fields(kind)
  }

  /** The form Add opens with: every field of the template, each "". */
  function EmptyForm(kind: Kind): (f: map<string, Value>)
    ensures f.Keys == FieldSet(kind)
    ensures forall k :: k in f ==> f[k] == Str("")
  {
    map k | k in Fields(kind) :: Str("")
  }

  /** The form Edit opens with: each field of the template copied from the
      record's attributes (undefined where the record has none). */
  function SeededForm(kind: Kind, attributes: map<string, Value>): (f: map<string, Value>)
    ensures f.Keys == FieldSet(kind)
    ensures forall k :: k in f ==> f[k] == Prop(attributes, k)
  {
    map k | k in Fields(kind) :: Prop(attributes, k)
  }

  /** The templates of the four screens. */
  lemma Templates()
    ensures FieldSet(Supplier) == {"name", "contact_info", "address"}
    ensures FieldSet(Category) == {"name", "description"}
    ensures FieldSet(User) == {"name", "email"}
    ensures FieldSet(Product) == {"name", "SKU", "price", "initial_stock_quantity", "category_id"}
  {
  }

  /** What the meta slot receives from a list response: the renamed object on
      the supplier, category and user screens, the server's object as it is on
      the product screen. */
  function StoredMeta(kind: Kind, m: ServerMeta): (r: Meta)
    ensures kind == Product ==> r == RawMeta(m)
    ensures kind != Product ==> (r.PageMeta? && r.currentPage == m.current_page
      && r.lastPage == m.last_page && r.perPage == m.per_page
      && r.from == m.from && r.to == m.to && r.total == m.total)
  {
    if kind == Product then RawMeta(m) else Normalise(m)
  }

  class ResourceScreen {
    const kind: Kind
    var list: seq<Resource>
    var links: seq<PageLink>
    var meta: Meta
    var showModal: bool
    var isEditMode: bool
    var current: Option<Resource>
    var form: map<string, Value>
    var errors: Errors
    /** The product screen's category choices. */
    var categories: seq<Resource>
    /** Every API call the screen has issued, oldest first. */
    var requests: seq<Request>

    /** The form always holds the template's fields, and an open edit modal
        always has the record being edited. */
    ghost predicate Valid()
      reads this
    {
      FieldSet(kind) <= form.Keys && (showModal && isEditMode ==> current.Some?)
    }

    ghost function ListState(): (seq<Resource>, seq<PageLink>, Meta)
      reads this
    {
      (list, links, meta)
    }

    ghost function ModalState(): (bool, bool, Option<Resource>, map<string, Value>, Errors)
      reads this
    {
      (showModal, isEditMode, current, form, errors)
    }

    /** The state of a freshly mounted screen, before its first response. */
    constructor(kind: Kind)
      ensures this.kind == kind && Valid()
      ensures list == [] && links == [] && meta == NoMeta
      ensures !showModal && !isEditMode && current == None
      ensures form == EmptyForm(kind) && errors == NoErrors
      ensures categories == [] && requests == []
    {
      this.kind := kind;
      list := [];
      links := [];
      meta := NoMeta;
      showModal := false;
      isEditMode := false;
      current := None;
      form := EmptyForm(kind);
      errors := NoErrors;
      categories := [];
      requests := [];
    }

    /** `fetch...ListData(url)`: a GET of `url`. A response, which always
        carries its `meta`, replaces the records, the links and the meta
        together; a failure leaves all three. */
    method FetchList(url: string, o: ListOutcome)
      requires Valid()
      modifies this
      ensures Valid()
      ensures requests == old(requests) + [Get(Some(url))]
      ensures o.Listed? ==> list == o.data && links == o.meta.links && meta == StoredMeta(kind, o.meta)
      ensures o.ListFailed? ==> ListState() == old(ListState())
      ensures ModalState() == old(ModalState()) && categories == old(categories)
    {
      requests := requests + [Get(Some(url))];
      if o.Listed? {
        list := o.data;
        links := o.meta.links;
        meta := StoredMeta(kind, o.meta);
      }
    }

    /** `fetchCategories` of the product screen: a GET of "/categories" whose
        records become the category choices. */
    method FetchCategories(o: ListOutcome)
      requires Valid() && kind == Product
      modifies this
      ensures Valid()
      ensures requests == old(requests) + [Get(Some("/categories"))]
      ensures categories == (if o.Listed? then o.data else old(categories))
      ensures ListState() == old(ListState()) && ModalState() == old(ModalState())
    {
      requests := requests + [Get(Some("/categories"))];
      if o.Listed? {
        categories := o.data;
      }
    }

    /** The mount effect: the first page of the collection, and on the product
        screen the categories after it. */
    method Mount(o: ListOutcome, cats: ListOutcome)
      requires Valid()
      modifies this
      ensures Valid()
      ensures requests == old(requests) + [Get(Some(Collection(kind)))]
        + (if kind == Product then [Get(Some("/categories"))] else [])
      ensures o.Listed? ==> list == o.data && links == o.meta.links && meta == StoredMeta(kind, o.meta)
      ensures o.ListFailed? ==> ListState() == old(ListState())
      ensures categories == (if kind == Product && cats.Listed? then cats.data else old(categories))
      ensures ModalState() == old(ModalState())
    {
      FetchList(Collection(kind), o);
      if kind == Product {
        FetchCategories(cats);
      }
    }

    /** `handlePageClick(url)`: a null or empty URL does nothing; any other URL
        is fetched as it is. */
    method PageClick(url: Option<string>, o: ListOutcome)
      requires Valid()
      modifies this
      ensures Valid()
      ensures !TruthyText(url) ==> requests == old(requests) && ListState() == old(ListState())
      ensures TruthyText(url) ==> requests == old(requests) + [Get(url)]
      ensures TruthyText(url) && o.Listed? ==>
        list == o.data && links == o.meta.links && meta == StoredMeta(kind, o.meta)
      ensures TruthyText(url) && o.ListFailed? ==> ListState() == old(ListState())
      ensures ModalState() == old(ModalState()) && categories == old(categories)
    {
      if TruthyText(url) {
        FetchList(url.value, o);
      }
    }

    /** The Add button: the empty template, no errors, add mode, modal open. */
    method OpenAdd()
      requires Valid()
      modifies this
      ensures Valid()
      ensures form == EmptyForm(kind) && errors == NoErrors && !isEditMode && showModal
      ensures current == old(current)
      ensures ListState() == old(ListState()) && categories == old(categories) && requests == old(requests)
    {
      form := EmptyForm(kind);
      errors := NoErrors;
      isEditMode := false;
      showModal := true;
    }

    /** The Edit button of a row: the template seeded from the record, the
        record kept as current, no errors, edit mode, modal open. */
    method OpenEdit(r: Resource)
      requires Valid()
      modifies this
      ensures Valid()
      ensures form == SeededForm(kind, r.attributes) && current == Some(r)
      ensures errors == NoErrors && isEditMode && showModal
      ensures ListState() == old(ListState()) && categories == old(categories) && requests == old(requests)
    {
      form := SeededForm(kind, r.attributes);
      current := Some(r);
      errors := NoErrors;
      isEditMode := true;
      showModal := true;
    }

    /** `handleModalClose`: the modal closes and the current record is dropped;
        the form, the mode and the errors stay. */
    method Close()
      requires Valid()
      modifies this
      ensures Valid()
      ensures !showModal && current == None
      ensures form == old(form) && errors == old(errors) && isEditMode == old(isEditMode)
      ensures ListState() == old(ListState()) && categories == old(categories) && requests == old(requests)
    {
      showModal := false;
      current := None;
    }

    /** `handleFormChange`: the named field takes the input's text. On the
        product screen a change of `name` or `category_id` also regenerates the
        SKU, with `suffix` as the random draw. */
    method FormChange(name: string, value: string, suffix: nat)
      requires Valid() && suffix < 1000
      requires kind == Product && name == "category_id" ==> Prop(form, "name").Str?
      modifies this
      ensures Valid()
      ensures kind != Product ==> form == old(form)[name := Str(value)]
      ensures kind == Product ==> form == ChangedProductForm(old(form), name, value, categories, suffix)
      ensures ListState() == old(ListState()) && categories == old(categories) && requests == old(requests)
      ensures showModal == old(showModal) && isEditMode == old(isEditMode)
      ensures current == old(current) && errors == old(errors)
    {
      if kind == Product {
        form := ChangedProductForm(form, name, value, categories, suffix);
      } else {
        form := form[name := Str(value)];
      }
    }

    /** `handleSubmit`: a PUT of the form to the current record in edit mode, a
        POST otherwise. Accepted, the modal closes, the first page is fetched
        again and the errors are cleared; rejected, the errors take the
        response's message when it has one and the modal stays as it is. */
    method Submit(o: MutationOutcome, reload: ListOutcome)
      requires Valid() && showModal
      modifies this
      ensures Valid()
      ensures var sent := if old(isEditMode) then Put(Collection(kind), old(current).value.id, FormBody(old(form)))
                          else Post(Collection(kind), FormBody(old(form)));
        requests == old(requests) + [sent] + (if o.Accepted? then [Get(Some(Collection(kind)))] else [])
      ensures o.Accepted? ==> !showModal && errors == NoErrors
      ensures o.Accepted? && reload.Listed? ==>
        list == reload.data && links == reload.meta.links && meta == StoredMeta(kind, reload.meta)
      ensures o.Accepted? && reload.ListFailed? ==> ListState() == old(ListState())
      ensures o.Rejected? ==> errors == ErrorsAfterRejection(old(errors), o.message)
      ensures o.Rejected? ==> showModal == old(showModal) && ListState() == old(ListState())
      ensures form == old(form) && current == old(current) && isEditMode == old(isEditMode)
      ensures categories == old(categories)
    {
      var sent := if isEditMode then Put(Collection(kind), current.value.id, FormBody(form))
                  else Post(Collection(kind), FormBody(form));
      requests := requests + [sent];
      if o.Accepted? {
        showModal := false;
        FetchList(Collection(kind), reload);
        errors := NoErrors;
      } else {
        errors := ErrorsAfterRejection(errors, o.message);
      }
    }

    /** The Delete button of a row: nothing at all unless the confirm dialog
        is accepted; then a DELETE of the record, and the first page fetched
        again when it is accepted. The form and the modal are not touched. */
    method DeleteRow(id: Value, confirmed: bool, o: MutationOutcome, reload: ListOutcome)
      requires Valid()
      modifies this
      ensures Valid()
      ensures !confirmed ==> requests == old(requests) && ListState() == old(ListState())
      ensures confirmed ==> (requests == old(requests) + [Delete(Collection(kind), id)]
        + (if o.Accepted? then [Get(Some(Collection(kind)))] else []))
      ensures confirmed && o.Accepted? && reload.Listed? ==>
        list == reload.data && links == reload.meta.links && meta == StoredMeta(kind, reload.meta)
      ensures o.Rejected? || (o.Accepted? && reload.ListFailed?) ==> ListState() == old(ListState())
      ensures ModalState() == old(ModalState()) && categories == old(categories)
    {
      if !confirmed {
        return;
      }
      requests := requests + [Delete(Collection(kind), id)];
      if o.Accepted? {
        FetchList(Collection(kind), reload);
      }
    }
  }
}
