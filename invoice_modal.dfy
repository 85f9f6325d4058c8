// The "Create a new invoice" modal (components/CreateModal/Invoices.jsx): the form's rules and
// defaults, which route a provider posts to, and what `handleCreate` does with the answer.
// The form library's `hasLength` measures the trimmed text and `isInRange` refuses anything
// that is not a number, here an empty amount field.
module InvoiceModal {
  import opened Wrappers
  import opened Strings
  import opened Calendar
  import opened Entities
  import opened ListPipeline
  import StripeInvoice

  const ClientRequired := "Client must be selected"
  const TitleLength := "Title must be between 3 and 50 characters"
  const MemoLength := "Memo must be less than 500 characters"
  const AmountRange := "Amount must be at least $1"

  /** The form's values: the client's id (`null` until one is picked), the amount (`None`
      for an emptied field), the due date in milliseconds, the title and the memo. */
  datatype InvoiceForm = InvoiceForm(client: Option<string>, amount: Option<real>, dueDate: int,
                                     title: string, memo: string)

  /** `initialValues`: no client, amount 0, due thirty days from now, empty title and memo. */
  function InitialForm(now: int): InvoiceForm
  {
    InvoiceForm(None, Some(0.0), now + 30 * DayMs, "", "")
  }

  predicate ClientOk(f: InvoiceForm) { f.client.Some? && f.client.value != "" }
  predicate TitleOk(f: InvoiceForm) { 3 <= |Trim(f.title)| <= 50 }
  predicate MemoOk(f: InvoiceForm) { |Trim(f.memo)| <= 500 }
  predicate AmountOk(f: InvoiceForm) { f.amount.Some? && 1.0 <= f.amount.value <= 1000000.0 }

  function Unless(ok: bool, message: string): seq<string>
  {
    if ok then [] else [message]
  }

  /** The failing rules' messages, in the order the form lists its rules. */
  function Errors(f: InvoiceForm): seq<string>
  {
    Unless(ClientOk(f), ClientRequired) + Unless(TitleOk(f), TitleLength) +
    Unless(MemoOk(f), MemoLength) + Unless(AmountOk(f), AmountRange)
  }

  /** A form passes iff a client is picked, the title has 3 to 50 characters and the memo at
      most 500 once trimmed, and the amount is a number from 1 to 1 000 000. */
  predicate FormValid(f: InvoiceForm)
  {
    ClientOk(f) && TitleOk(f) && MemoOk(f) && AmountOk(f)
  }

  lemma NoErrorsIffValid(f: InvoiceForm)
    ensures Errors(f) == [] <==> FormValid(f)
  {
    var a, b, c, d := Unless(ClientOk(f), ClientRequired), Unless(TitleOk(f), TitleLength),
                      Unless(MemoOk(f), MemoLength), Unless(AmountOk(f), AmountRange);
    assert |Errors(f)| == |a| + |b| + |c| + |d|;
  }

  /** The untouched form never passes: no client is picked, the title is empty and the amount
      is below 1; its due date is the thirty days the Stripe route also defaults to. */
  lemma InitialFormRefused(now: int)
    ensures Errors(InitialForm(now)) == [ClientRequired, TitleLength, AmountRange]
    ensures InitialForm(now).dueDate == now + StripeInvoice.DefaultTermMs
  {
    var f := InitialForm(now);
    assert Trim("") == [];
    assert !ClientOk(f) && !TitleOk(f) && MemoOk(f) && !AmountOk(f);
    assert Errors(f) == [ClientRequired] + [TitleLength] + [] + [AmountRange];
  }

  const StripeRoute := "/api/invoices/create"
  const PayPalRoute := "/api/invoices/create-paypal"

  /** `paymentProvider === 'stripe' ? '/api/invoices/create' : '/api/invoices/create-paypal'` */
  function Endpoint(provider: string): (route: string)
    ensures route == StripeRoute <==> provider == "stripe"
    ensures route == PayPalRoute <==> provider != "stripe"
  {
    if provider == "stripe" then StripeRoute else PayPalRoute
  }

  /** `clients?.find(client => client.id === form.values.client)` */
  function SelectedClient(clients: seq<ClientRef>, id: Option<string>): (r: Option<ClientRef>)
    ensures r.Some? ==> r.value in clients && id == Some(r.value.id)
    ensures r.None? ==> id.None? || forall i :: 0 <= i < |clients| ==> clients[i].id != id.value
  {
    if id.None? then None
    else
      var k := FindIndex(clients, ClientIdOf, id.value);
      if k == -1 then None else Some(clients[k])
  }

  function ClientIdOf(c: ClientRef): string { c.id }

  /** The JSON body posted to the route: the form's amount, due date, title and memo (carried
      here as the form's values), and the selected client in place of its id. */
  datatype PostBody = PostBody(values: InvoiceForm, client: Option<ClientRef>)

  datatype Post = Post(endpoint: string, body: PostBody)

  /** The body of `handleCreate`'s post: the form's values and the selected client. */
  function BodyOf(f: InvoiceForm, clients: seq<ClientRef>): PostBody
  {
    PostBody(f, SelectedClient(clients, f.client))
  }

  /** The route's answer: whether it was OK, its `message` ("" when absent) and its other fields. */
  datatype Reply = Reply(ok: bool, message: string, fields: map<string, string>)

  /** What the invoices page's `handleUpdate` receives: the answer with the client attached. */
  datatype NewInvoice = NewInvoice(fields: map<string, string>, client: Option<ClientRef>)

  /** `data.message || 'New invoice could not be made!'` */
  function FailureToast(reply: Reply): Toast
  {
    Toast("Error!", if reply.message != "" then reply.message else "New invoice could not be made!", "red")
  }

  const InvoiceMade := Toast("Done!", "New invoice has been made!", "green")

  /** What the modal holds: the chosen provider, the form and its shown errors, whether it
      is open or loading, and what it has posted, handed to the page and shown. */
  datatype ModalState = ModalState(provider: string, form: InvoiceForm, errors: seq<string>,
                                   open: bool, loading: bool, posts: seq<Post>,
                                   updates: seq<NewInvoice>, toast: Option<Toast>)

  /** The part of `handleCreate` after validation: one post, the answer handed on or reported,
      then the modal toggles and the form resets to `initial`. */
  function SendOutcome(s: ModalState, initial: InvoiceForm, clients: seq<ClientRef>, reply: Reply): ModalState
  {
    var body := BodyOf(s.form, clients);
    s.(open := !s.open, loading := false, form := initial,
       posts := s.posts + [Post(Endpoint(s.provider), body)],
       updates := if reply.ok then s.updates + [NewInvoice(reply.fields, body.client)] else s.updates,
       toast := Some(if reply.ok then InvoiceMade else FailureToast(reply)))
  }

  /** `handleCreate` on state `s` whose form fails the rules `found`: the form's rules first,
      then the post. */
  function CreateOutcome(s: ModalState, found: seq<string>, initial: InvoiceForm, clients: seq<ClientRef>, reply: Reply): ModalState
  {
    if found != [] then s.(errors := found)
    else SendOutcome(s.(errors := []), initial, clients, reply)
  }

  /** A form failing its rules shows its messages and changes nothing else: no post is sent. */
  lemma RefusedFormSendsNothing(s: ModalState, initial: InvoiceForm, clients: seq<ClientRef>, reply: Reply)
    requires !FormValid(s.form)
    ensures var t := CreateOutcome(s, Errors(s.form), initial, clients, reply);
            t.errors == Errors(s.form) && t.errors != [] && t == s.(errors := t.errors)
  {
    NoErrorsIffValid(s.form);
  }

  /** A passing form is posted once, to the provider's route, with the selected client. */
  lemma ValidFormPostedOnce(s: ModalState, initial: InvoiceForm, clients: seq<ClientRef>, reply: Reply)
    requires FormValid(s.form)
    ensures var t := CreateOutcome(s, Errors(s.form), initial, clients, reply);
            |t.posts| == |s.posts| + 1 && t.posts[..|s.posts|] == s.posts &&
            t.posts[|s.posts|].endpoint == (if s.provider == "stripe" then StripeRoute else PayPalRoute) &&
            t.posts[|s.posts|].body.values == s.form &&
            t.posts[|s.posts|].body.client == SelectedClient(clients, s.form.client)
  {
    NoErrorsIffValid(s.form);
    var t := CreateOutcome(s, Errors(s.form), initial, clients, reply);
    assert t.posts == s.posts + [Post(Endpoint(s.provider), BodyOf(s.form, clients))];
  }

  /** Only an OK answer reaches the page, with the selected client attached; a failed one
      shows its own message or the default one. */
  lemma OnlyOkReachesPage(s: ModalState, initial: InvoiceForm, clients: seq<ClientRef>, reply: Reply)
    requires FormValid(s.form)
    ensures var t := CreateOutcome(s, Errors(s.form), initial, clients, reply);
            (reply.ok ==> t.updates == s.updates + [NewInvoice(reply.fields, SelectedClient(clients, s.form.client))] &&
                          t.toast == Some(InvoiceMade)) &&
            (!reply.ok ==> t.updates == s.updates && t.toast.Some? && t.toast.value.color == "red" &&
                           (reply.message != "" ==> t.toast.value.message == reply.message))
  {
    NoErrorsIffValid(s.form);
  }

  /** Whatever the answer, a sent form closes (toggles) the modal, resets the form and stops
      loading. */
  lemma SentFormResets(s: ModalState, initial: InvoiceForm, clients: seq<ClientRef>, reply: Reply)
    requires FormValid(s.form)
    ensures var t := CreateOutcome(s, Errors(s.form), initial, clients, reply);
            t.open == !s.open && t.form == initial && !t.loading && t.errors == [] && t.provider == s.provider
  {
    NoErrorsIffValid(s.form);
  }

  class Modal {
    const initial: InvoiceForm
    var provider: string
    var form: InvoiceForm
    var errors: seq<string>
    var open: bool
    var loading: bool
    var posts: seq<Post>
    var updates: seq<NewInvoice>
    var toast: Option<Toast>

    function State(): ModalState
      reads this
    {
      ModalState(provider, form, errors, open, loading, posts, updates, toast)
    }

    /** The modal starts with Stripe chosen and the initial form. */
    constructor (now: int, open: bool)
      ensures provider == "stripe" && initial == InitialForm(now) && form == initial
      ensures initial.dueDate == now + 30 * DayMs
      ensures this.open == open && !loading && errors == [] && posts == [] && updates == [] && toast.None?
    {
      initial := InitialForm(now);
      provider := "stripe";
      form := InitialForm(now);
      errors := [];
      this.open := open;
      loading := false;
      posts := [];
      updates := [];
      toast := None;
    }

    /** `handleCreate`: the form's rules decide whether anything is sent. */
    method Create(clients: seq<ClientRef>, reply: Reply)
      modifies this
      ensures State() == CreateOutcome(old(State()), Errors(old(form)), initial, clients, reply)
    {
      var found := Errors(form);
      errors := found;
      if found == [] {
        Send(clients, reply);
      }
    }

    /** Posting the validated form: loading is set while the post is out and cleared after it. */
    method Send(clients: seq<ClientRef>, reply: Reply)
      modifies this
      ensures State() == SendOutcome(old(State()), initial, clients, reply)
    {
      loading := true;
      var body := BodyOf(form, clients);
      posts := posts + [Post(Endpoint(provider), body)];
      if reply.ok {
        updates := updates + [NewInvoice(reply.fields, body.client)];
      }
      toast := Some(if reply.ok then InvoiceMade else FailureToast(reply));
      open := !open;
      form := initial;
      loading := false;
    }
  }

  /** Submitting the untouched form sends nothing. */
  method UntouchedFormSendsNothing(now: int, clients: seq<ClientRef>, reply: Reply) returns (sent: seq<Post>)
    ensures sent == []
  {
    var modal := new Modal(now, true);
    InitialFormRefused(now);
    modal.Create(clients, reply);
    sent := modal.posts;
  }
}
