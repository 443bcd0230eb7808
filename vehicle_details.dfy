/** The vehicle page (`VehicleDetails`): its picture gallery and the
    purchase and financing proposal form. */
module Proposals {
  import opened Wrappers
  import opened Text
  import opened Zod
  import opened Platform
  import opened Vehicles

  // ---- the gallery ----

  /** A row of `vehicle_images`, as the query returns it. */
  datatype VehicleImage = VehicleImage(imageUrl: string)

  const Placeholder := "/placeholder.svg"

  /** `images`: the fetched pictures' URLs in the order received, or else
      the vehicle's own picture, or else the placeholder. `fetched` is
      `None` while the query has no data. */
  function Gallery(fetched: Option<seq<VehicleImage>>, vehicle: Vehicle): (images: seq<string>)
    ensures images != []
    ensures fetched.Some? && fetched.value != [] ==>
      |images| == |fetched.value| && forall i :: 0 <= i < |images| ==> images[i] == fetched.value[i].imageUrl
    ensures fetched.None? || fetched.value == [] ==>
      images == [if IsTruthy(vehicle.imageUrl) then vehicle.imageUrl.value else Placeholder]
  {
    if fetched.Some? && |fetched.value| > 0 then URLs(fetched.value)
    else [if IsTruthy(vehicle.imageUrl) then vehicle.imageUrl.value else Placeholder]
  }

  /** `vehicleImages.map(img => img.image_url)`. */
  function URLs(rows: seq<VehicleImage>): (urls: seq<string>)
    ensures |urls| == |rows|
    ensures forall i :: 0 <= i < |rows| ==> urls[i] == rows[i].imageUrl
  {
    if rows == [] then [] else [rows[0].imageUrl] + URLs(rows[1..])
  }

  /** Every picture shown comes from somewhere: a fetched row, the
      vehicle's own picture, or the placeholder when neither exists. */
  lemma GalleryOrigin(fetched: Option<seq<VehicleImage>>, vehicle: Vehicle, url: string)
    requires url in Gallery(fetched, vehicle)
    ensures || (fetched.Some? && exists i :: 0 <= i < |fetched.value| && fetched.value[i].imageUrl == url)
            || (vehicle.imageUrl == Some(url) && url != "")
            || url == Placeholder
  {
    var images := Gallery(fetched, vehicle);
    var k :| 0 <= k < |images| && images[k] == url;
    if fetched.Some? && fetched.value != [] {
      assert fetched.value[k].imageUrl == url;
    }
  }

  // ---- proposalSchema ----

  /** `formData`: the four inputs, as typed. */
  datatype ProposalForm = ProposalForm(name: string, email: string, phone: string, message: string)

  const EmptyForm := ProposalForm("", "", "", "")

  const ShortName := "Nome deve ter pelo menos 3 caracteres"
  const InvalidEmail := "Email inválido"
  const InvalidPhone := "Telefone inválido"
  const ShortMessage := "Mensagem muito curta"

  /** No key is trimmed. */
  function ProposalIssues(f: ProposalForm, isEmail: string -> bool): seq<Message> {
    StringIssues(f.name, [MinLength(3, Text(ShortName))])
    + StringIssues(f.email, [Email(isEmail, Text(InvalidEmail))])
    + StringIssues(f.phone, [MinLength(10, Text(InvalidPhone))])
    + StringIssues(f.message, [MinLength(10, Text(ShortMessage))])
  }

  /** The conditions of `proposalSchema`, stated directly. */
  predicate AcceptableProposal(f: ProposalForm, isEmail: string -> bool) {
    |f.name| >= 3 && isEmail(f.email) && |f.phone| >= 10 && |f.message| >= 10
  }

  lemma ProposalIssuesIff(f: ProposalForm, isEmail: string -> bool)
    ensures ProposalIssues(f, isEmail) == [] <==> AcceptableProposal(f, isEmail)
  {
    var name := StringIssues(f.name, [MinLength(3, Text(ShortName))]);
    var email := StringIssues(f.email, [Email(isEmail, Text(InvalidEmail))]);
    var phone := StringIssues(f.phone, [MinLength(10, Text(InvalidPhone))]);
    var message := StringIssues(f.message, [MinLength(10, Text(ShortMessage))]);
    LengthAtLeast(f.name, 3, Text(ShortName));
    EmailOnly(f.email, isEmail, Text(InvalidEmail));
    LengthAtLeast(f.phone, 10, Text(InvalidPhone));
    LengthAtLeast(f.message, 10, Text(ShortMessage));
    assert ProposalIssues(f, isEmail) == name + email + phone + message;
    assert |name + email + phone + message| == |name| + |email| + |phone| + |message|;
  }

  /** `proposalSchema.parse(formData)`: accepts exactly the forms meeting
      the schema and returns them unchanged. */
  function ParseProposal(f: ProposalForm, isEmail: string -> bool): (r: Parsed<ProposalForm>)
    ensures r.Valid? <==> AcceptableProposal(f, isEmail)
    ensures r.Valid? ==> r.value == f
  {
    ProposalIssuesIff(f, isEmail);
    FirstIssue(ProposalIssues(f, isEmail), f)
  }

  /** A name of two characters is the first issue reported, whatever else
      is wrong. */
  lemma ShortNameFirst(f: ProposalForm, isEmail: string -> bool)
    requires |f.name| < 3
    ensures ParseProposal(f, isEmail) == Invalid(Text(ShortName))
  {
    StringIssuesOfOne(f.name, MinLength(3, Text(ShortName)));
    var name := StringIssues(f.name, [MinLength(3, Text(ShortName))]);
    assert ProposalIssues(f, isEmail)[0] == name[0];
  }

  // ---- the submission ----

  /** The `type` column of a proposal. */
  datatype ProposalKind = Purchase | Financing

  /** The row inserted into `vehicle_proposals`. */
  datatype ProposalRow = ProposalRow(
    vehicleId: string, kind: ProposalKind,
    customerName: string, customerEmail: string, customerPhone: string, message: string)

  const Table := "vehicle_proposals"

  /** The form's `onSubmit`: a purchase whenever the purchase form is open,
      even when the financing form is open too. */
  function KindFor(showProposalForm: bool): (k: ProposalKind)
    ensures k == Purchase <==> showProposalForm
  {
    if showProposalForm then Purchase else Financing
  }

  /** The row for validated data. */
  function RowFor(vehicleId: string, kind: ProposalKind, v: ProposalForm): (row: ProposalRow)
    ensures row.vehicleId == vehicleId && row.kind == kind
    ensures row.customerName == v.name && row.customerEmail == v.email
    ensures row.customerPhone == v.phone && row.message == v.message
  {
    ProposalRow(vehicleId, kind, v.name, v.email, v.phone, v.message)
  }

  /** The state the submission works on. */
  datatype Page = Page(form: ProposalForm, showProposalForm: bool, showFinancingForm: bool)

  /** What one submission does: its calls, the state afterwards, the toast
      and the values `isSubmitting` takes in turn. */
  datatype SubmitRun = SubmitRun(calls: seq<Exchange<ProposalRow>>, after: Page, toast: Toast,
                                 submitting: seq<bool>)

  function SentToast(): Toast {
    Toast(false, Text("Proposta enviada!"), Some(Text("Entraremos em contato em breve.")))
  }

  function InvalidToast(m: Message): Toast {
    Toast(true, Text("Erro de validação"), Some(m))
  }

  function SendFailedToast(): Toast {
    Toast(true, Text("Erro ao enviar"), Some(Text("Tente novamente mais tarde.")))
  }

  /** `handleSubmitProposal(e, kind)` on the vehicle `vehicleId`, starting
      as the `n`-th call of the page. */
  function SubmitSpec(p: Page, kind: ProposalKind, vehicleId: string, isEmail: string -> bool,
                      env: Environment<ProposalRow>, n: nat): SubmitRun {
    SubmitParsed(p, kind, vehicleId, ParseProposal(p.form, isEmail), env, n)
  }

  /** The rest of the submission once `parsed` is known. */
  function SubmitParsed(p: Page, kind: ProposalKind, vehicleId: string, parsed: Parsed<ProposalForm>,
                        env: Environment<ProposalRow>, n: nat): SubmitRun {
    match parsed
    case Invalid(m) => SubmitRun([], p, InvalidToast(m), [true, false])
    case Valid(v) =>
      var call := Answer(env, n, Insert(Table, RowFor(vehicleId, kind, v)));
      if call.reply.Failed? then SubmitRun([call], p, SendFailedToast(), [true, false])
      else SubmitRun([call], Page(EmptyForm, false, false), SentToast(), [true, false])
  }

  /** No insert unless validation succeeds; then exactly one, of the row
      carrying the vehicle, the kind and the validated fields. */
  lemma SubmitInsertsValidated(p: Page, kind: ProposalKind, vehicleId: string, parsed: Parsed<ProposalForm>,
                               env: Environment<ProposalRow>, n: nat)
    ensures var run := SubmitParsed(p, kind, vehicleId, parsed, env, n);
      && (run.calls == [] <==> parsed.Invalid?)
      && (parsed.Valid? ==>
            && |run.calls| == 1
            && run.calls[0].request == Insert(Table, ProposalRow(vehicleId, kind,
                 parsed.value.name, parsed.value.email, parsed.value.phone, parsed.value.message)))
  {
  }

  /** How a submission ends: `isSubmitting` was set and ends false; a
      success clears the form and closes both forms; a failure keeps the
      state and shows the first issue or the generic error. */
  lemma SubmitOutcome(p: Page, kind: ProposalKind, vehicleId: string, parsed: Parsed<ProposalForm>,
                      env: Environment<ProposalRow>, n: nat)
    ensures var run := SubmitParsed(p, kind, vehicleId, parsed, env, n);
      var succeeded := run.calls != [] && run.calls[0].reply.Done?;
      && run.submitting == [true, false]
      && (succeeded ==> run.after == Page(EmptyForm, false, false) && run.toast == SentToast())
      && (!succeeded ==> run.after == p && run.toast.destructive)
      && (parsed.Invalid? ==> run.toast == InvalidToast(parsed.message))
      && (parsed.Valid? && !succeeded ==> run.toast == SendFailedToast())
  {
  }

  /** The page's controller. */
  class ProposalPage {
    var formData: ProposalForm
    var showProposalForm: bool
    var showFinancingForm: bool
    var isSubmitting: bool
    var toasts: seq<Toast>
    /** Every value `setIsSubmitting` has given `isSubmitting`, in order. */
    ghost var submittingHistory: seq<bool>
    const vehicleId: string
    const service: Service<ProposalRow>

    function State(): Page
      reads this
    {
      Page(formData, showProposalForm, showFinancingForm)
    }

    constructor (vehicleId: string, service: Service<ProposalRow>)
      ensures this.vehicleId == vehicleId && this.service == service
      ensures State() == Page(EmptyForm, false, false) && !isSubmitting
      ensures toasts == [] && submittingHistory == []
    {
      this.vehicleId, this.service := vehicleId, service;
      formData, showProposalForm, showFinancingForm := EmptyForm, false, false;
      isSubmitting, toasts, submittingHistory := false, [], [];
    }

    /** "Enviar Proposta de Compra": shows or hides the purchase form. */
    method ToggleProposalForm()
      modifies this
      ensures State() == old(State()).(showProposalForm := !old(showProposalForm))
      ensures isSubmitting == old(isSubmitting) && toasts == old(toasts)
      ensures submittingHistory == old(submittingHistory)
    {
      showProposalForm := !showProposalForm;
    }

    /** "Solicitar Financiamento": shows or hides the financing form. */
    method ToggleFinancingForm()
      modifies this
      ensures State() == old(State()).(showFinancingForm := !old(showFinancingForm))
      ensures isSubmitting == old(isSubmitting) && toasts == old(toasts)
      ensures submittingHistory == old(submittingHistory)
    {
      showFinancingForm := !showFinancingForm;
    }

    /** "Cancelar": closes both forms and keeps what was typed. */
    method Cancel()
      modifies this
      ensures State() == Page(old(formData), false, false)
      ensures isSubmitting == old(isSubmitting) && toasts == old(toasts)
      ensures submittingHistory == old(submittingHistory)
    {
      showProposalForm, showFinancingForm := false, false;
    }

    /** The inputs' `onChange`. */
    method SetFormData(form: ProposalForm)
      modifies this
      ensures State() == old(State()).(form := form)
      ensures isSubmitting == old(isSubmitting) && toasts == old(toasts)
      ensures submittingHistory == old(submittingHistory)
    {
      formData := form;
    }

    method SetSubmitting(value: bool)
      modifies this
      ensures isSubmitting == value && submittingHistory == old(submittingHistory) + [value]
      ensures State() == old(State()) && toasts == old(toasts)
    {
      isSubmitting := value;
      submittingHistory := submittingHistory + [value];
    }

    /** The form's `onSubmit`: the kind follows the purchase flag. */
    method Submit(isEmail: string -> bool)
      modifies this, service
      ensures var run := SubmitSpec(old(State()), KindFor(old(showProposalForm)), vehicleId, isEmail,
                                    service.env, |old(service.log)|);
        && service.log == old(service.log) + run.calls
        && State() == run.after
        && toasts == old(toasts) + [run.toast]
        && submittingHistory == old(submittingHistory) + run.submitting
        && !isSubmitting
    {
      HandleSubmitProposal(KindFor(showProposalForm), isEmail);
    }

    /** `handleSubmitProposal(e, kind)`. */
    method HandleSubmitProposal(kind: ProposalKind, isEmail: string -> bool)
      modifies this, service
      ensures var run := SubmitSpec(old(State()), kind, vehicleId, isEmail, service.env, |old(service.log)|);
        && service.log == old(service.log) + run.calls
        && State() == run.after
        && toasts == old(toasts) + [run.toast]
        && submittingHistory == old(submittingHistory) + run.submitting
        && !isSubmitting
    {
      SetSubmitting(true);
      var parsed := ParseProposal(formData, isEmail);
      SubmitWith(kind, parsed);
      SetSubmitting(false);
    }

    /** The body of the `try` once `proposalSchema.parse` has run, with its
        `catch`. */
    method SubmitWith(kind: ProposalKind, parsed: Parsed<ProposalForm>)
      modifies this, service
      ensures var run := SubmitParsed(old(State()), kind, vehicleId, parsed, service.env, |old(service.log)|);
        && service.log == old(service.log) + run.calls
        && State() == run.after
        && toasts == old(toasts) + [run.toast]
        && isSubmitting == old(isSubmitting) && submittingHistory == old(submittingHistory)
    {
      if parsed.Invalid? {
        toasts := toasts + [InvalidToast(parsed.message)];
        return;
      }
      var v := parsed.value;
      var reply := service.Call(Insert(Table, ProposalRow(vehicleId, kind, v.name, v.email, v.phone, v.message)));
      if reply.Failed? {
        toasts := toasts + [SendFailedToast()];
        return;
      }
      toasts := toasts + [SentToast()];
      formData := EmptyForm;
      showProposalForm, showFinancingForm := false, false;
    }
  }
}
