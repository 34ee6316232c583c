/** What the screens receive from and send to the REST API. The API is not
    modelled; each handler is given the outcome of its call as a parameter,
    and every call it issues is recorded as a `Request`. */
module Api {
  import opened Wrappers
  import opened JsValues

  /** A record as the list and item endpoints return it: `{id, attributes}`.
      `topName` is a `name` property beside `id` and `attributes`, which the
      API's records do not carry (None); the SKU helper of the product screen
      reads it. */
  datatype Resource = Resource(id: Value, attributes: map<string, Value>, topName: Option<string>)

  /** One entry of `meta.links`: `{url, label, active}`. `url` is None for a
      disabled link (null); `caption` is the link's `label` (a Dafny keyword). */
  datatype PageLink = PageLink(url: Option<string>, caption: string, active: bool)

  /** The `meta` object of a list response, with its snake_case fields
      (`current_page`, `last_page`, `per_page`) and its `links`. */
  datatype ServerMeta = ServerMeta(
    from: int, to: int, current_page: int, last_page: int, total: int, per_page: int,
    links: seq<PageLink>)

  /** The `paginationMeta` slot of a screen: `{}` before the first load, the
      camelCase object the supplier, category and user screens build, or the
      server's object as the product and purchase screens store it. */
  datatype Meta =
    | NoMeta
    | PageMeta(from: int, to: int, currentPage: int, lastPage: int, total: int, perPage: int)
    | RawMeta(server: ServerMeta)

  /** The renaming of supplier.js, category.js and user.js: snake_case fields
      become camelCase ones, and `links` is not kept in the meta slot. */
  function Normalise(m: ServerMeta): (r: Meta)
    ensures r.PageMeta?
    ensures r.from == m.from && r.to == m.to && r.total == m.total
    ensures r.currentPage == m.current_page && r.lastPage == m.last_page && r.perPage == m.per_page
  {
    PageMeta(m.from, m.to, m.current_page, m.last_page, m.total, m.per_page)
  }

  /** The outcome of a GET on a list endpoint: the envelope
      `{data, meta: {..., links}}`, or a failure of any kind. */
  datatype ListOutcome = Listed(data: seq<Resource>, meta: ServerMeta) | ListFailed

  /** The `errors` slot: the `message` of a rejected request. The API sends
      field messages (`{field: [text, ...]}`); a plain text message is stored
      just the same. */
  datatype Errors = FieldErrors(fields: map<string, seq<string>>) | TextError(text: string)

  /** `{}`, the value every handler clears the errors slot to. */
  const NoErrors: Errors := FieldErrors(map[])

  /** The outcome of a POST, PUT or DELETE: accepted, or rejected with the
      response's `data.message` when there is one (None when there is no
      response, no data or no message). */
  datatype MutationOutcome = Accepted | Rejected(message: Option<Errors>)

  /** `if (error.response?.data?.message)`: the message is present and truthy.
      Every object is truthy; a text is truthy unless it is empty. */
  predicate IsTruthy(message: Option<Errors>) {
    message.Some? && (message.value.TextError? ==> message.value.text != "")
  }

  /** What a rejected submit leaves in the errors slot. */
  function ErrorsAfterRejection(errors: Errors, message: Option<Errors>): (r: Errors)
    ensures IsTruthy(message) ==> r == message.value
    ensures !IsTruthy(message) ==> r == errors
  {
    if IsTruthy(message) then message.value else errors
  }

  /** A request body: a flat form, or the purchase form with its line items
      and its `total_amount` (None when the sum is NaN). */
  datatype Body =
    | FormBody(fields: map<string, Value>)
    | PurchaseBody(fields: map<string, Value>, items: seq<map<string, Value>>, totalAmount: Option<real>)

  /** A call a screen made. `Get(None)` is a GET whose URL argument was null. */
  datatype Request =
    | Get(url: Option<string>)
    | GetOne(collection: string, id: Value)
    | Post(collection: string, body: Body)
    | Put(collection: string, id: Value, body: Body)
    | Delete(collection: string, id: Value)
}
