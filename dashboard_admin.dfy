/** The management view shown to administrators: a product table with a
    create/edit form above it and a confirmation dialog for deletes.

    `AdminState` holds the view's state slots. Each handler is first given as a
    step function from the state before to the state after and the store
    requests it issued (`Step`); the class `AdminView` at the end holds the same
    slots as mutable fields and runs the handlers step by step, each method
    proved to end in the state its step function describes. Store answers are
    parameters: a handler that awaits the store takes the answer it gets. */
module DashboardAdmin {
  import opened Gateway

  /** The kind of the form's status line; the view writes "", "error" or "success". */
  datatype Kind = Blank | ErrorKind | SuccessKind

  datatype FormMessage = FormMessage(kind: Kind, text: string)

  const NoMessage := FormMessage(Blank, "")

  /** The draft a reset leaves: no id and three empty text fields. */
  const EmptyDraft := Product(None, "", Text(""), Text(""))

  const MissingFieldsText := "Semua field harus diisi!"
  const UpdatedText := "Produk berhasil diperbarui!"
  const AddedText := "Produk berhasil ditambahkan!"

  /** The three form inputs, by their `name` attribute. */
  datatype Field = NamaProduk | HargaSatuan | Quantity

  datatype AdminState = AdminState(
    products: seq<Product>,
    loading: bool,
    error: string,
    isEditing: bool,
    isModalOpen: bool,
    productToDelete: Option<Product>,
    formMessage: FormMessage,
    formValues: Product)

  /** The state the view is created with: loading, no rows, nothing pending. */
  const Initial := AdminState([], true, "", false, false, None, NoMessage, EmptyDraft)

  /** What one handler did: the state it left and the store requests it sent, in order. */
  datatype Step = Step(state: AdminState, calls: seq<StoreCall>)

  /** `after` holds what a completed refresh leaves, starting from `before`:
      the rows replaced wholesale on success, the page error set to the failure
      text otherwise, and loading over in both cases. */
  ghost predicate Refreshed(before: AdminState, after: AdminState, fetch: FetchReply) {
    && !after.loading
    && (fetch.Rows? ==> after.products == fetch.rows && after.error == before.error)
    && (fetch.FetchFailed? ==> after.products == before.products && after.error == fetch.message)
  }

  // ---------------------------------------------------------------------------
  // The handlers as step functions
  // ---------------------------------------------------------------------------

  /** Refresh: one select; the rows or the failure text; loading cleared at the end. */
  function FetchStep(s: AdminState, fetch: FetchReply): (r: Step)
    ensures r.calls == [SelectProducts]
    ensures Refreshed(s, r.state, fetch)
    ensures r.state.(products := s.products, error := s.error, loading := s.loading) == s
  {
    var pending := s.(loading := true);
    match fetch
    case Rows(rows) => Step(pending.(products := rows, loading := false), [SelectProducts])
    case FetchFailed(message) => Step(pending.(error := message, loading := false), [SelectProducts])
  }

  /** The value a form field holds. */
  function FieldValue(d: Product, field: Field): Cell {
    match field
    case NamaProduk => Text(d.name)
    case HargaSatuan => d.price
    case Quantity => d.quantity
  }

  /** The draft with one field replaced by what was typed into it. */
  function WithField(d: Product, field: Field, value: string): (r: Product)
    ensures r.id == d.id
    ensures FieldValue(r, field) == Text(value)
    ensures forall g: Field :: g != field ==> FieldValue(r, g) == FieldValue(d, g)
  {
    match field
    case NamaProduk => d.(name := value)
    case HargaSatuan => d.(price := Text(value))
    case Quantity => d.(quantity := Text(value))
  }

  /** Typing into a field changes that field of the draft and nothing else. */
  function InputChangeStep(s: AdminState, field: Field, value: string): (r: Step)
    ensures r.calls == []
    ensures FieldValue(r.state.formValues, field) == Text(value)
    ensures r.state.formValues.id == s.formValues.id
    ensures forall g: Field :: g != field ==> FieldValue(r.state.formValues, g) == FieldValue(s.formValues, g)
    ensures r.state.(formValues := s.formValues) == s
  {
    Step(s.(formValues := WithField(s.formValues, field, value)), [])
  }

  /** The presence check of a submit: some required field is falsy, so an
      empty input counts, and so does a price or quantity of 0 that Edit
      copied from a row. */
  predicate HasEmptyField(d: Product)
  {
    d.name == "" || Falsy(d.price) || Falsy(d.quantity)
  }

  /** Reset of the form: an empty draft and create mode. */
  function ResetStep(s: AdminState): (r: Step)
    ensures r.calls == []
    ensures r.state.formValues == EmptyDraft && !r.state.isEditing
    ensures r.state.(formValues := s.formValues, isEditing := s.isEditing) == s
  {
    Step(s.(formValues := EmptyDraft, isEditing := false), [])
  }

  /** Submit of the form. The status line is cleared first, so what it shows
      afterwards never depends on what it showed before. */
  function SubmitStep(s: AdminState, write: WriteReply, fetch: FetchReply): (r: Step)
    // an empty field: the validation message, and no request at all
    ensures HasEmptyField(s.formValues) ==>
      r.calls == [] && r.state == s.(formMessage := FormMessage(ErrorKind, MissingFieldsText))
    // otherwise exactly one write: an update keyed by the draft's id in edit
    // mode, a one-record insert in create mode
    ensures !HasEmptyField(s.formValues) ==>
      && |r.calls| >= 1
      && var d := s.formValues;
      && (s.isEditing ==> r.calls[0] == UpdateProduct(Record(d.name, d.price, d.quantity), d.id))
      && (!s.isEditing ==> r.calls[0] == InsertProduct([Record(d.name, d.price, d.quantity)]))
    // a failed write: the provider's text, draft and mode kept for a retry
    ensures !HasEmptyField(s.formValues) && write.WriteFailed? ==>
      |r.calls| == 1 && r.state == s.(formMessage := FormMessage(ErrorKind, write.message))
    // a successful write: the success text, a reset form, then a refresh
    ensures !HasEmptyField(s.formValues) && write.WriteOk? ==>
      && r.calls[1..] == [SelectProducts]
      && r.state.formMessage == FormMessage(SuccessKind, if s.isEditing then UpdatedText else AddedText)
      && r.state.formValues == EmptyDraft
      && !r.state.isEditing
      && Refreshed(s, r.state, fetch)
      && r.state.isModalOpen == s.isModalOpen
      && r.state.productToDelete == s.productToDelete
  {
    var cleared := s.(formMessage := NoMessage);
    if HasEmptyField(cleared.formValues) then
      Step(cleared.(formMessage := FormMessage(ErrorKind, MissingFieldsText)), [])
    else
      var draft := cleared.formValues;
      var record := Record(draft.name, draft.price, draft.quantity);
      var call := if cleared.isEditing then UpdateProduct(record, cleared.formValues.id)
                  else InsertProduct([record]);
      match write
      case WriteFailed(message) =>
        Step(cleared.(formMessage := FormMessage(ErrorKind, message)), [call])
      case WriteOk =>
        var text := if cleared.isEditing then UpdatedText else AddedText;
        var reset := ResetStep(cleared.(formMessage := FormMessage(SuccessKind, text))).state;
        var refresh := FetchStep(reset, fetch);
        Step(refresh.state, [call] + refresh.calls)
  }

  /** Edit of a row: the row becomes the draft, edit mode, status line cleared. */
  function EditStep(s: AdminState, product: Product): (r: Step)
    ensures r.calls == []
    ensures r.state.isEditing && r.state.formValues == product && r.state.formMessage == NoMessage
    ensures r.state.(isEditing := s.isEditing, formValues := s.formValues, formMessage := s.formMessage) == s
  {
    Step(s.(isEditing := true, formValues := product, formMessage := NoMessage), [])
  }

  /** Cancel of an edit: a reset form and a cleared status line. */
  function CancelStep(s: AdminState): (r: Step)
    ensures r.calls == []
    ensures r.state.formValues == EmptyDraft && !r.state.isEditing && r.state.formMessage == NoMessage
    ensures r.state.(formValues := s.formValues, isEditing := s.isEditing, formMessage := s.formMessage) == s
  {
    var reset := ResetStep(s).state;
    Step(reset.(formMessage := NoMessage), [])
  }

  /** Delete request: the row is recorded as pending and the dialog opens. */
  function DeleteStep(s: AdminState, product: Product): (r: Step)
    ensures r.calls == []
    ensures r.state.productToDelete == Some(product) && r.state.isModalOpen
    ensures r.state.(productToDelete := s.productToDelete, isModalOpen := s.isModalOpen) == s
  {
    Step(s.(productToDelete := Some(product), isModalOpen := true), [])
  }

  /** A click on a row's delete button, which passes the request on only for a
      row that has an id. */
  function DeleteClickStep(s: AdminState, product: Product): (r: Step)
    ensures r.calls == []
    ensures product.id.None? ==> r.state == s
    ensures product.id.Some? ==> r.state.productToDelete == Some(product) && r.state.isModalOpen
    ensures r.state.(productToDelete := s.productToDelete, isModalOpen := s.isModalOpen) == s
  {
    if product.id.Some? then DeleteStep(s, product) else Step(s, [])
  }

  /** A pending deletion that a confirm acts on: a recorded row with an id. */
  predicate DeletePending(s: AdminState) {
    s.productToDelete.Some? && s.productToDelete.value.id.Some?
  }

  /** Confirm of the dialog. */
  function ConfirmDeleteStep(s: AdminState, delete: WriteReply, fetch: FetchReply): (r: Step)
    // in every case the dialog closes and nothing stays pending; the form is untouched
    ensures !r.state.isModalOpen && r.state.productToDelete == None
    ensures r.state.formMessage == s.formMessage
    ensures r.state.formValues == s.formValues && r.state.isEditing == s.isEditing
    // nothing pending: no request at all
    ensures !DeletePending(s) ==>
      r.calls == [] && r.state == s.(isModalOpen := false, productToDelete := None)
    // one delete keyed by the pending row's id
    ensures DeletePending(s) ==>
      |r.calls| >= 1 && r.calls[0] == DeleteProduct(s.productToDelete.value.id.value)
    // a failed delete goes to the page error, with no refresh
    ensures DeletePending(s) && delete.WriteFailed? ==>
      && |r.calls| == 1
      && r.state.error == delete.message
      && r.state.products == s.products && r.state.loading == s.loading
    // a successful delete is followed by a refresh
    ensures DeletePending(s) && delete.WriteOk? ==>
      r.calls[1..] == [SelectProducts] && Refreshed(s, r.state, fetch)
  {
    var attempt :=
      if DeletePending(s) then
        var call := DeleteProduct(s.productToDelete.value.id.value);
        match delete
        case WriteFailed(message) => Step(s.(error := message), [call])
        case WriteOk =>
          var refresh := FetchStep(s, fetch);
          Step(refresh.state, [call] + refresh.calls)
      else
        Step(s, []);
    Step(attempt.state.(isModalOpen := false, productToDelete := None), attempt.calls)
  }

  /** The dialog's close callback: it hides the dialog and leaves the pending
      row recorded. */
  function CloseModalStep(s: AdminState): (r: Step)
    ensures r.calls == []
    ensures !r.state.isModalOpen
    ensures r.state.(isModalOpen := s.isModalOpen) == s
  {
    Step(s.(isModalOpen := false), [])
  }

  // ---------------------------------------------------------------------------
  // Rendering
  // ---------------------------------------------------------------------------

  /** What the view shows. */
  datatype Screen =
    | LoadingProducts
    | ErrorScreen(message: string)
    | Management(
        cancelShown: bool,          // the cancel button, shown only while editing
        messageShown: bool,         // the status line, shown when it has text
        deleteEnabled: seq<bool>,   // per row, whether its delete button is enabled
        placeholderShown: bool,     // the "no products" row
        modalOpen: bool,
        modalProductName: string)   // the name the dialog asks about

  /** The screen for a state: loading takes precedence over the error, and the
      error replaces the whole management view. */
  function Render(s: AdminState): (v: Screen)
    ensures v == LoadingProducts <==> s.loading
    ensures v.ErrorScreen? <==> !s.loading && s.error != ""
    ensures v.ErrorScreen? ==> v.message == s.error
    ensures v.Management? ==>
      && v.cancelShown == s.isEditing
      && v.messageShown == (s.formMessage.text != "")
      && |v.deleteEnabled| == |s.products|
      && (forall i :: 0 <= i < |s.products| ==> v.deleteEnabled[i] == s.products[i].id.Some?)
      && v.placeholderShown == (|s.products| == 0)
      && v.modalOpen == s.isModalOpen
      && v.modalProductName == (if s.productToDelete.Some? then s.productToDelete.value.name else "")
  {
    if s.loading then LoadingProducts
    else if s.error != "" then ErrorScreen(s.error)
    else
      Management(
        s.isEditing,
        s.formMessage.text != "",
        seq(|s.products|, i requires 0 <= i < |s.products| => s.products[i].id.Some?),
        |s.products| == 0,
        s.isModalOpen,
        match s.productToDelete
        case Some(p) => p.name
        case None => "")
  }

  // ---------------------------------------------------------------------------
  // Event traces
  // ---------------------------------------------------------------------------

  /** The things that can happen to the view, each carrying the store answers
      its handler awaits. */
  datatype Event =
    | Mount(fetch: FetchReply)
    | InputChange(field: Field, value: string)
    | Submit(write: WriteReply, refetch: FetchReply)
    | Edit(product: Product)
    | Cancel
    | DeleteClick(product: Product)
    | ConfirmDelete(delete: WriteReply, refetch: FetchReply)
    | CloseModal

  function Apply(s: AdminState, e: Event): Step {
    match e
    case Mount(fetch) => FetchStep(s, fetch)
    case InputChange(field, value) => InputChangeStep(s, field, value)
    case Submit(write, fetch) => SubmitStep(s, write, fetch)
    case Edit(product) => EditStep(s, product)
    case Cancel => CancelStep(s)
    case DeleteClick(product) => DeleteClickStep(s, product)
    case ConfirmDelete(delete, fetch) => ConfirmDeleteStep(s, delete, fetch)
    case CloseModal => CloseModalStep(s)
  }

  /** The events handled one after another: the final state and every request sent. */
  function Run(s: AdminState, es: seq<Event>): Step
    decreases |es|
  {
    if es == [] then Step(s, [])
    else
      var first := Apply(s, es[0]);
      var rest := Run(first.state, es[1..]);
      Step(rest.state, first.calls + rest.calls)
  }

  /** The invariant every handler keeps:
      - the dialog is open only over a pending row that has an id;
      - a draft carries an id only in edit mode;
      - a blank status line has no text, and a success line is one of the two
        success texts. */
  ghost predicate Consistent(s: AdminState) {
    && (s.isModalOpen ==> DeletePending(s))
    && (!s.isEditing ==> s.formValues.id == None)
    && (s.formMessage.kind == Blank ==> s.formMessage.text == "")
    && (s.formMessage.kind == SuccessKind ==> s.formMessage.text == AddedText || s.formMessage.text == UpdatedText)
  }

  lemma ApplyKeepsConsistent(s: AdminState, e: Event)
    requires Consistent(s)
    ensures Consistent(Apply(s, e).state)
  {
  }

  lemma {:induction false} RunKeepsConsistent(s: AdminState, es: seq<Event>)
    requires Consistent(s)
    ensures Consistent(Run(s, es).state)
    decreases |es|
  {
    if es != [] {
      ApplyKeepsConsistent(s, es[0]);
      RunKeepsConsistent(Apply(s, es[0]).state, es[1..]);
    }
  }

  /** Every state the view can reach from its initial state is consistent. */
  lemma Reachable(es: seq<Event>)
    ensures Consistent(Run(Initial, es).state)
  {
    RunKeepsConsistent(Initial, es);
  }

  /** Confirming an open dialog always sends the delete for the pending row. */
  lemma OpenDialogConfirmDeletes(s: AdminState, delete: WriteReply, fetch: FetchReply)
    requires Consistent(s) && s.isModalOpen
    ensures ConfirmDeleteStep(s, delete, fetch).calls[0] == DeleteProduct(s.productToDelete.value.id.value)
  {
  }

  /** Once loading has finished it never shows again: every handler that
      refreshes clears the flag before it returns. */
  lemma {:induction false} LoadingStaysSettled(s: AdminState, es: seq<Event>)
    requires !s.loading
    ensures !Run(s, es).state.loading
    decreases |es|
  {
    if es != [] {
      LoadingStaysSettled(Apply(s, es[0]).state, es[1..]);
    }
  }

  /** The failure texts an event would write into the page error are all non-empty. */
  predicate PageErrorTextsNonEmpty(e: Event) {
    match e
    case Mount(fetch) => fetch.FetchFailed? ==> fetch.message != ""
    case Submit(_, fetch) => fetch.FetchFailed? ==> fetch.message != ""
    case ConfirmDelete(delete, fetch) =>
      (delete.WriteFailed? ==> delete.message != "") && (fetch.FetchFailed? ==> fetch.message != "")
    case _ => true
  }

  /** The page error is never reset: once it holds text, it keeps holding text
      as long as every later failure brings some text of its own. */
  lemma {:induction false} ErrorIsSticky(s: AdminState, es: seq<Event>)
    requires s.error != ""
    requires forall i :: 0 <= i < |es| ==> PageErrorTextsNonEmpty(es[i])
    ensures Run(s, es).state.error != ""
    decreases |es|
  {
    if es != [] {
      ErrorIsSticky(Apply(s, es[0]).state, es[1..]);
    }
  }

  /** Events handled without the store: typing, edit, cancel, a delete request
      and closing the dialog. */
  predicate IsLocal(e: Event) {
    e.InputChange? || e.Edit? || e.Cancel? || e.DeleteClick? || e.CloseModal?
  }

  /** Local events send no request and leave the rows, the page error and the
      loading flag as they were. */
  lemma {:induction false} LocalEventsSendNothing(s: AdminState, es: seq<Event>)
    requires forall i :: 0 <= i < |es| ==> IsLocal(es[i])
    ensures Run(s, es).calls == []
    ensures Run(s, es).state.products == s.products
    ensures Run(s, es).state.error == s.error
    ensures Run(s, es).state.loading == s.loading
    decreases |es|
  {
    if es != [] {
      LocalEventsSendNothing(Apply(s, es[0]).state, es[1..]);
    }
  }

  /** What a submit leaves does not depend on the status line shown before it. */
  lemma SubmitIgnoresOldMessage(s: AdminState, m: FormMessage, write: WriteReply, fetch: FetchReply)
    ensures SubmitStep(s.(formMessage := m), write, fetch) == SubmitStep(s, write, fetch)
  {
  }

  /** Editing a stored row whose quantity is 0 and submitting it unchanged is
      refused by the presence check: the 0 copied from the row is falsy, so no
      update is sent. Typing "0" into the quantity input makes the same row
      acceptable, since the text "0" is not falsy. */
  lemma EditedZeroIsRefused(s: AdminState, id: int, name: string, price: Cell,
                            write: WriteReply, fetch: FetchReply)
    ensures var edited := EditStep(s, Product(Some(id), name, price, Number(0))).state;
      && SubmitStep(edited, write, fetch).calls == []
      && SubmitStep(edited, write, fetch).state.formMessage == FormMessage(ErrorKind, MissingFieldsText)
    ensures var edited := EditStep(s, Product(Some(id), name, price, Number(0))).state;
      var retyped := InputChangeStep(edited, Quantity, "0").state;
      name != "" && !Falsy(price) ==>
        SubmitStep(retyped, write, fetch).calls[0]
          == UpdateProduct(Record(name, price, Text("0")), Some(id))
  {
  }

  // ---------------------------------------------------------------------------
  // The view as an object with mutable state
  // ---------------------------------------------------------------------------

  class AdminView {
    var products: seq<Product>
    var loading: bool
    var error: string
    var isEditing: bool
    var isModalOpen: bool
    var productToDelete: Option<Product>
    var formMessage: FormMessage
    var formValues: Product
    /** Every request sent to the store so far, in order. */
    ghost var calls: seq<StoreCall>

    function State(): AdminState
      reads this
    {
      AdminState(products, loading, error, isEditing, isModalOpen, productToDelete, formMessage, formValues)
    }

    constructor ()
      ensures State() == Initial && calls == []
    {
      products := [];
      loading := true;
      error := "";
      isEditing := false;
      isModalOpen := false;
      productToDelete := None;
      formMessage := NoMessage;
      formValues := EmptyDraft;
      calls := [];
    }

    method FetchProducts(fetch: FetchReply)
      modifies this
      ensures State() == FetchStep(old(State()), fetch).state
      ensures calls == old(calls) + FetchStep(old(State()), fetch).calls
    {
      loading := true;
      calls := calls + [SelectProducts];
      match fetch {
        case Rows(rows) => products := rows;
        case FetchFailed(message) => error := message;
      }
      loading := false;
    }

    method HandleInputChange(field: Field, value: string)
      modifies this
      ensures State() == InputChangeStep(old(State()), field, value).state
      ensures calls == old(calls)
    {
      match field {
        case NamaProduk => formValues := formValues.(name := value);
        case HargaSatuan => formValues := formValues.(price := Text(value));
        case Quantity => formValues := formValues.(quantity := Text(value));
      }
    }

    method ResetForm()
      modifies this
      ensures State() == ResetStep(old(State())).state
      ensures calls == old(calls)
    {
      formValues := EmptyDraft;
      isEditing := false;
    }

    method HandleSubmit(write: WriteReply, fetch: FetchReply)
      modifies this
      ensures State() == SubmitStep(old(State()), write, fetch).state
      ensures calls == old(calls) + SubmitStep(old(State()), write, fetch).calls
    {
      formMessage := NoMessage;
      if formValues.name == "" || Falsy(formValues.price) || Falsy(formValues.quantity) {
        formMessage := FormMessage(ErrorKind, MissingFieldsText);
        return;
      }
      var record := Record(formValues.name, formValues.price, formValues.quantity);
      if isEditing {
        calls := calls + [UpdateProduct(record, formValues.id)];
      } else {
        calls := calls + [InsertProduct([record])];
      }
      match write {
        case WriteFailed(message) =>
          formMessage := FormMessage(ErrorKind, message);
        case WriteOk =>
          formMessage := FormMessage(SuccessKind, if isEditing then UpdatedText else AddedText);
          ResetForm();
          FetchProducts(fetch);
      }
    }

    method HandleEdit(product: Product)
      modifies this
      ensures State() == EditStep(old(State()), product).state
      ensures calls == old(calls)
    {
      isEditing := true;
      formValues := product;
      formMessage := NoMessage;
    }

    method HandleCancel()
      modifies this
      ensures State() == CancelStep(old(State())).state
      ensures calls == old(calls)
    {
      ResetForm();
      formMessage := NoMessage;
    }

    method HandleDelete(product: Product)
      modifies this
      ensures State() == DeleteStep(old(State()), product).state
      ensures calls == old(calls)
    {
      productToDelete := Some(product);
      isModalOpen := true;
    }

    method DeleteClicked(product: Product)
      modifies this
      ensures State() == DeleteClickStep(old(State()), product).state
      ensures calls == old(calls)
    {
      if product.id.Some? {
        HandleDelete(product);
      }
    }

    method HandleConfirmDelete(delete: WriteReply, fetch: FetchReply)
      modifies this
      ensures State() == ConfirmDeleteStep(old(State()), delete, fetch).state
      ensures calls == old(calls) + ConfirmDeleteStep(old(State()), delete, fetch).calls
    {
      if productToDelete.Some? && productToDelete.value.id.Some? {
        calls := calls + [DeleteProduct(productToDelete.value.id.value)];
        match delete {
          case WriteFailed(message) => error := message;
          case WriteOk => FetchProducts(fetch);
        }
      }
      isModalOpen := false;
      productToDelete := None;
    }

    method CloseModal()
      modifies this
      ensures State() == CloseModalStep(old(State())).state
      ensures calls == old(calls)
    {
      isModalOpen := false;
    }
  }
}
