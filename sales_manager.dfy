/**
 * The state of the `SalesManager` component and its event handlers, each run
 * to completion once the outcome of its network call is known.
 */
module SalesManagerComponent {
  import opened Js
  import opened Sales

  /** The form draft: `id` is `null` when the form creates a sale; amounts are text. */
  datatype FormData = FormData(id: Nullable<Number>, name: string, price: string, delivery: string)

  /** The draft every reset goes back to. */
  const EmptyForm := FormData(Null, "", "", "")

  /**
   * The outcome of a `fetch`: a successful status with its decoded body, a
   * status that is not ok, or an exception (a network failure, or a body
   * that is not JSON) with its message.
   */
  datatype Response<+T> = Ok(body: T) | NotOk | Thrown(message: string)

  /** The JSON body of a create or update request. */
  datatype RequestBody = RequestBody(name: string, price: Number, delivery: Number)

  /**
   * The requests a handler sends: POST to `/api/sales`, PUT to
   * `/api/sales/{id}` or DELETE of `/api/sales/{id}`.
   */
  datatype Request = Post(body: RequestBody) | Put(id: Number, body: RequestBody) | Delete(id: Number)

  const FetchFailed := "Failed to fetch sales"
  const DeleteFailed := "Failed to delete sale"

  /** The message of a submit whose status is not ok. */
  function SubmitFailed(update: bool): string {
    "Failed to " + (if update then "update" else "create") + " sale"
  }

  /**
   * The request `handleSubmit` sends for a draft: the truthiness of the
   * draft's id alone decides between update and create.
   */
  function SubmitRequest(conv: Conversions, form: FormData): (req: Request)
    ensures req.Put? <==> Truthy(form.id)
    ensures req.Post? <==> !Truthy(form.id)
    ensures req.Put? ==> form.id == NonNull(req.id)
    ensures !req.Delete? && req.body == RequestBody(form.name, conv.parseFloat(form.price), conv.parseFloat(form.delivery))
  {
    var body := RequestBody(form.name, conv.parseFloat(form.price), conv.parseFloat(form.delivery));
    if Truthy(form.id) then Put(form.id.value, body) else Post(body)
  }

  /** A draft with no id, with id `0` or with id NaN creates a sale. */
  lemma FalsyIdCreates(conv: Conversions, form: FormData)
    requires form.id in {Null, NonNull(Finite(0.0)), NonNull(NaN)}
    ensures SubmitRequest(conv, form).Post?
  {
  }

  /** The draft `handleViewOrEdit` loads for editing a sale. */
  function EditDraft(conv: Conversions, sale: Sale): FormData {
    FormData(NonNull(sale.id), sale.name, conv.toText(sale.price), conv.toText(sale.delivery))
  }

  /**
   * Submitting a draft loaded by Edit updates that sale exactly when its id is
   * truthy; a sale whose id is `0` or NaN is created anew instead. The amounts
   * sent back are the sale's own whenever `parseFloat` reads back what
   * `toString` wrote.
   */
  lemma EditThenSubmit(conv: Conversions, sale: Sale)
    ensures var req := SubmitRequest(conv, EditDraft(conv, sale));
            && (req.Put? <==> sale.id != NaN && sale.id != Finite(0.0))
            && (req.Put? ==> req.id == sale.id)
            && req.body.name == sale.name
            && (conv.parseFloat(conv.toText(sale.price)) == sale.price ==> req.body.price == sale.price)
            && (conv.parseFloat(conv.toText(sale.delivery)) == sale.delivery ==> req.body.delivery == sale.delivery)
  {
  }

  class SalesManager {
    var sales: seq<Sale>
    var formData: FormData
    var error: Nullable<string>
    var selectedSale: Nullable<Sale>

    /**
     * Every row in the list has numeric amounts. A fetch establishes it; a
     * create or update keeps it only when the server's response is sound,
     * since that response is stored without being checked.
     */
    predicate SalesSound()
      reads this
    {
      AllSound(sales)
    }

    /** The component's initial state. */
    constructor ()
      ensures sales == [] && formData == EmptyForm && error == Null && selectedSale == Null
      ensures SalesSound()
    {
      sales := [];
      formData := EmptyForm;
      error := Null;
      selectedSale := Null;
    }

    /**
     * `fetchSales` once the GET of `/api/sales` has an outcome: an accepted
     * batch replaces the list and clears the error; anything else keeps the
     * list and sets the error. The draft and the selection never change.
     */
    method FetchSales(conv: Conversions, response: Response<seq<RawSale>>)
      modifies this
      ensures formData == old(formData) && selectedSale == old(selectedSale)
      ensures match response
              case Ok(raw) =>
                (match Normalize(conv, raw)
                 case Accepted(data) => sales == data && error == Null
                 case Rejected(message) => sales == old(sales) && error == NonNull(message))
              case NotOk => sales == old(sales) && error == NonNull(FetchFailed)
              case Thrown(message) => sales == old(sales) && error == NonNull(message)
      ensures response.Ok? && Normalize(conv, response.body).Accepted? ==> SalesSound()
      ensures old(SalesSound()) ==> SalesSound()
    {
      match response {
        case NotOk =>
          error := NonNull(FetchFailed);
        case Thrown(message) =>
          error := NonNull(message);
        case Ok(raw) =>
          match Normalize(conv, raw) {
            case Rejected(message) =>
              error := NonNull(message);
            case Accepted(data) =>
              NormalizeSound(conv, raw);
              sales := data;
              error := Null;
          }
      }
    }

    /**
     * `handleSubmit` once its request has an outcome; returns the request
     * sent. On success an update replaces the rows of the draft's id by the
     * response and a create appends it, then the draft, the selection and the
     * error reset. On failure only the error changes.
     */
    method HandleSubmit(conv: Conversions, response: Response<Sale>) returns (req: Request)
      modifies this
      ensures req == SubmitRequest(conv, old(formData))
      ensures response.Ok? ==>
                && sales == (if req.Put? then ReplaceById(old(sales), req.id, response.body)
                             else old(sales) + [response.body])
                && formData == EmptyForm && selectedSale == Null && error == Null
      ensures !response.Ok? ==>
                && sales == old(sales) && formData == old(formData) && selectedSale == old(selectedSale)
                && error == NonNull(if response.NotOk? then SubmitFailed(req.Put?) else response.message)
      ensures old(SalesSound()) && (response.Ok? ==> Sound(response.body)) ==> SalesSound()
    {
      var id := formData.id;
      req := SubmitRequest(conv, formData);
      match response {
        case NotOk =>
          error := NonNull(SubmitFailed(Truthy(id)));
        case Thrown(message) =>
          error := NonNull(message);
        case Ok(data) =>
          if Truthy(id) {
            if AllSound(sales) && Sound(data) {
              ReplaceByIdSound(sales, id.value, data);
            }
            sales := ReplaceById(sales, id.value, data);
          } else {
            if AllSound(sales) && Sound(data) {
              AppendSound(sales, data);
            }
            sales := sales + [data];
          }
          formData := EmptyForm;
          selectedSale := Null;
          error := Null;
      }
    }

    /**
     * `handleDelete(id)` once its request has an outcome; returns the request
     * sent. On success every row whose id is `=== id` goes and the selection,
     * draft and error reset; on failure only the error changes.
     */
    method HandleDelete(id: Number, response: Response<()>) returns (req: Request)
      modifies this
      ensures req == Delete(id)
      ensures response.Ok? ==>
                && sales == RemoveById(old(sales), id)
                && formData == EmptyForm && selectedSale == Null && error == Null
      ensures !response.Ok? ==>
                && sales == old(sales) && formData == old(formData) && selectedSale == old(selectedSale)
                && error == NonNull(if response.NotOk? then DeleteFailed else response.message)
      ensures old(SalesSound()) ==> SalesSound()
    {
      req := Delete(id);
      match response {
        case NotOk =>
          error := NonNull(DeleteFailed);
        case Thrown(message) =>
          error := NonNull(message);
        case Ok(_) =>
          if AllSound(sales) {
            RemoveByIdSound(sales, id);
          }
          sales := RemoveById(sales, id);
          selectedSale := Null;
          formData := EmptyForm;
          error := Null;
      }
    }

    /**
     * `handleViewOrEdit`: selects the sale, and loads it into the draft for
     * editing or resets the draft for viewing. The list and the error stay.
     */
    method HandleViewOrEdit(conv: Conversions, sale: Sale, isEdit: bool)
      modifies this
      ensures selectedSale == NonNull(sale)
      ensures formData == if isEdit then EditDraft(conv, sale) else EmptyForm
      ensures sales == old(sales) && error == old(error)
      ensures old(SalesSound()) ==> SalesSound()
    {
      selectedSale := NonNull(sale);
      if isEdit {
        formData := EditDraft(conv, sale);
      } else {
        formData := EmptyForm;
      }
    }

    /** `handleCloseDetails`: clears the selection and nothing else. */
    method HandleCloseDetails()
      modifies this
      ensures selectedSale == Null
      ensures sales == old(sales) && formData == old(formData) && error == old(error)
      ensures old(SalesSound()) ==> SalesSound()
    {
      selectedSale := Null;
    }

    /** `handleResetForm`: clears the draft and the selection; the list and the error stay. */
    method HandleResetForm()
      modifies this
      ensures formData == EmptyForm && selectedSale == Null
      ensures sales == old(sales) && error == old(error)
      ensures old(SalesSound()) ==> SalesSound()
    {
      formData := EmptyForm;
      selectedSale := Null;
    }
  }
}
