/** The sell-your-car page (`VenderVeiculo`): its schema, the selection of
    pictures, and the submission that uploads them one by one before
    writing the request. */
module SellVehicle {
  import opened Wrappers
  import opened Text
  import opened Zod
  import opened Platform

  // ---- sellVehicleSchema ----

  /** `formData`: every input as typed, the numbers too. */
  datatype SaleForm = SaleForm(
    name: string, email: string, phone: string, vehicleName: string,
    vehicleKm: string, desiredPrice: string, observation: string)

  const EmptyForm := SaleForm("", "", "", "", "", "", "")

  /** The object given to the schema: the form with its two numbers
      converted by `Number(...)`. */
  datatype SaleData = SaleData(
    name: string, email: string, phone: string, vehicleName: string,
    vehicleKm: JsNumber, desiredPrice: JsNumber, observation: string)

  /** `{...formData, vehicle_km: Number(...), desired_price: Number(...)}`;
      `toNumber` is JavaScript's `Number` on strings. */
  function Coerce(f: SaleForm, toNumber: string -> JsNumber): (d: SaleData)
    ensures d.vehicleKm == toNumber(f.vehicleKm) && d.desiredPrice == toNumber(f.desiredPrice)
    ensures d.name == f.name && d.email == f.email && d.phone == f.phone
    ensures d.vehicleName == f.vehicleName && d.observation == f.observation
  {
    SaleData(f.name, f.email, f.phone, f.vehicleName, toNumber(f.vehicleKm), toNumber(f.desiredPrice),
             f.observation)
  }

  const ShortName := "Nome deve ter pelo menos 3 caracteres"
  const InvalidEmail := "Email inválido"
  const InvalidPhone := "Telefone inválido"
  const VehicleNameRequired := "Nome do veículo é obrigatório"
  const InvalidKm := "KM inválido"
  const InvalidPrice := "Valor inválido"

  /** No key is trimmed; the observation is always present, as a string. */
  function SaleIssues(d: SaleData, isEmail: string -> bool): seq<Message> {
    StringIssues(d.name, [MinLength(3, Text(ShortName)), MaxLength(100, TooBig(100))])
    + StringIssues(d.email, [Email(isEmail, Text(InvalidEmail))])
    + StringIssues(d.phone, [MinLength(10, Text(InvalidPhone))])
    + StringIssues(d.vehicleName, [MinLength(3, Text(VehicleNameRequired))])
    + NumberIssues(d.vehicleKm, [AtLeast(0, Text(InvalidKm))])
    + NumberIssues(d.desiredPrice, [AtLeast(0, Text(InvalidPrice))])
    + StringIssues(d.observation, [MaxLength(500, TooBig(500))])
  }

  /** A converted number the schema takes as at least 0: not NaN, and
      `Infinity` included. */
  predicate NonNegative(x: JsNumber) {
    x.PosInfinity? || (x.Finite? && x.value >= 0.0)
  }

  /** The conditions of `sellVehicleSchema`, stated directly. */
  predicate AcceptableSale(d: SaleData, isEmail: string -> bool) {
    && 3 <= |d.name| <= 100
    && isEmail(d.email)
    && |d.phone| >= 10
    && |d.vehicleName| >= 3
    && NonNegative(d.vehicleKm)
    && NonNegative(d.desiredPrice)
    && |d.observation| <= 500
  }

  lemma SaleIssuesIff(d: SaleData, isEmail: string -> bool)
    ensures SaleIssues(d, isEmail) == [] <==> AcceptableSale(d, isEmail)
  {
    var name := StringIssues(d.name, [MinLength(3, Text(ShortName)), MaxLength(100, TooBig(100))]);
    var email := StringIssues(d.email, [Email(isEmail, Text(InvalidEmail))]);
    var phone := StringIssues(d.phone, [MinLength(10, Text(InvalidPhone))]);
    var vehicleName := StringIssues(d.vehicleName, [MinLength(3, Text(VehicleNameRequired))]);
    var km := NumberIssues(d.vehicleKm, [AtLeast(0, Text(InvalidKm))]);
    var price := NumberIssues(d.desiredPrice, [AtLeast(0, Text(InvalidPrice))]);
    var observation := StringIssues(d.observation, [MaxLength(500, TooBig(500))]);
    LengthBetween(d.name, 3, 100, Text(ShortName), TooBig(100));
    EmailOnly(d.email, isEmail, Text(InvalidEmail));
    LengthAtLeast(d.phone, 10, Text(InvalidPhone));
    LengthAtLeast(d.vehicleName, 3, Text(VehicleNameRequired));
    NumberAtLeast(d.vehicleKm, 0, Text(InvalidKm));
    NumberAtLeast(d.desiredPrice, 0, Text(InvalidPrice));
    LengthAtMost(d.observation, 500, TooBig(500));
    NoIssueInAnyKey(name, email, phone, vehicleName, km, price, observation);
    assert SaleIssues(d, isEmail) == name + email + phone + vehicleName + km + price + observation;
  }

  /** `sellVehicleSchema.parse(...)`: accepts exactly the data meeting the
      schema and returns it unchanged. */
  function ParseSale(d: SaleData, isEmail: string -> bool): (r: Parsed<SaleData>)
    ensures r.Valid? <==> AcceptableSale(d, isEmail)
    ensures r.Valid? ==> r.value == d
  {
    SaleIssuesIff(d, isEmail);
    FirstIssue(SaleIssues(d, isEmail), d)
  }

  /** A kilometre figure that is not a number reports Zod's own message for
      it, not "KM inválido", once the keys before it pass. */
  lemma NaNKmMessage(d: SaleData, isEmail: string -> bool)
    requires 3 <= |d.name| <= 100 && isEmail(d.email) && |d.phone| >= 10 && |d.vehicleName| >= 3
    requires d.vehicleKm.NaN?
    ensures ParseSale(d, isEmail) == Invalid(NotANumber)
  {
    KeysBeforeKmPass(d, isEmail);
    var name := StringIssues(d.name, [MinLength(3, Text(ShortName)), MaxLength(100, TooBig(100))]);
    var email := StringIssues(d.email, [Email(isEmail, Text(InvalidEmail))]);
    var phone := StringIssues(d.phone, [MinLength(10, Text(InvalidPhone))]);
    var vehicleName := StringIssues(d.vehicleName, [MinLength(3, Text(VehicleNameRequired))]);
    var km := NumberIssues(d.vehicleKm, [AtLeast(0, Text(InvalidKm))]);
    var rest := NumberIssues(d.desiredPrice, [AtLeast(0, Text(InvalidPrice))])
                + StringIssues(d.observation, [MaxLength(500, TooBig(500))]);
    assert SaleIssues(d, isEmail) == name + email + phone + vehicleName + km + rest;
    assert name + email + phone + vehicleName + km + rest == km + rest;
  }

  lemma KeysBeforeKmPass(d: SaleData, isEmail: string -> bool)
    requires 3 <= |d.name| <= 100 && isEmail(d.email) && |d.phone| >= 10 && |d.vehicleName| >= 3
    ensures StringIssues(d.name, [MinLength(3, Text(ShortName)), MaxLength(100, TooBig(100))]) == []
    ensures StringIssues(d.email, [Email(isEmail, Text(InvalidEmail))]) == []
    ensures StringIssues(d.phone, [MinLength(10, Text(InvalidPhone))]) == []
    ensures StringIssues(d.vehicleName, [MinLength(3, Text(VehicleNameRequired))]) == []
  {
    LengthBetween(d.name, 3, 100, Text(ShortName), TooBig(100));
    EmailOnly(d.email, isEmail, Text(InvalidEmail));
    LengthAtLeast(d.phone, 10, Text(InvalidPhone));
    LengthAtLeast(d.vehicleName, 3, Text(VehicleNameRequired));
  }

  // ---- the upload loop ----

  const Bucket := "vehicle-sale-images"
  const Table := "vehicle_sale_requests"

  /** The row inserted into `vehicle_sale_requests`. */
  datatype SaleRow = SaleRow(
    sellerName: string, sellerEmail: string, sellerPhone: string, vehicleName: string,
    vehicleKm: JsNumber, desiredPrice: JsNumber, observation: string, images: seq<string>)

  /** The calls the upload loop makes, the URLs it has collected, and
      whether an upload failed (the loop then throws). */
  datatype Uploads = Uploads(calls: seq<Exchange<SaleRow>>, urls: seq<string>, failed: bool)

  /** The upload loop over `files`, its first call being the page's `n`-th:
      each file under a random name keeping its extension, stopping at the
      first failure. */
  function UploadAll(files: seq<File>, env: Environment<SaleRow>, n: nat): (u: Uploads)
    ensures |u.calls| <= |files|
    ensures !u.failed ==> |u.calls| == |files|
    ensures u.failed || files != [] ==> u.calls != []
    ensures |u.urls| <= |u.calls|
    decreases |files|
  {
    if files == [] then Uploads([], [], false)
    else
      var before := UploadAll(files[..|files| - 1], env, n);
      if before.failed then before
      else UploadNext(before, files[|files| - 1], env, n)
  }

  /** One more turn of the loop after `before`. */
  function UploadNext(before: Uploads, file: File, env: Environment<SaleRow>, n: nat): (u: Uploads)
    ensures |u.calls| == |before.calls| + 1
    ensures |u.urls| <= |before.urls| + 1
  {
    var k := n + |before.calls|;
    var path := UploadName(env.randomName(k), file);
    var call := Answer(env, k, Upload(Bucket, path, file));
    if call.reply.Failed? then Uploads(before.calls + [call], before.urls, true)
    else Uploads(before.calls + [call], before.urls + [env.publicUrl(Bucket, path)], false)
  }

  /** The parts of one turn: the call it makes, whether it failed, and the
      URL it collects. */
  lemma UploadNextParts(before: Uploads, file: File, env: Environment<SaleRow>, n: nat)
    ensures var k := n + |before.calls|;
      var call := Answer(env, k, Upload(Bucket, UploadName(env.randomName(k), file), file));
      var u := UploadNext(before, file, env, n);
      && u.calls == before.calls + [call]
      && u.failed == call.reply.Failed?
      && u.urls == if u.failed then before.urls
                   else before.urls + [env.publicUrl(Bucket, UploadName(env.randomName(k), file))]
  {
  }

  /** The loop over the first `i + 1` files is the loop over the first `i`
      and one more turn, as long as nothing has failed yet. */
  lemma UploadStep(files: seq<File>, i: nat, env: Environment<SaleRow>, n: nat)
    requires i < |files| && !UploadAll(files[..i], env, n).failed
    ensures UploadAll(files[..i + 1], env, n) == UploadNext(UploadAll(files[..i], env, n), files[i], env, n)
  {
    assert files[..i + 1][..i] == files[..i];
  }

  /** The `i`-th call of the loop uploads the `i`-th file, in selection
      order, to the sale bucket under the `i`-th random stem. */
  lemma {:induction false} UploadCalls(files: seq<File>, env: Environment<SaleRow>, n: nat)
    ensures var u := UploadAll(files, env, n);
      forall i :: 0 <= i < |u.calls| ==>
        u.calls[i] == Answer(env, n + i, Upload(Bucket, UploadName(env.randomName(n + i), files[i]), files[i]))
    decreases |files|
  {
    if files != [] {
      var init := files[..|files| - 1];
      UploadCalls(init, env, n);
      var before := UploadAll(init, env, n);
      if !before.failed {
        var u := UploadAll(files, env, n);
        var m := |before.calls|;
        assert u.calls == before.calls + [u.calls[m]];
        forall i | 0 <= i < |u.calls|
          ensures u.calls[i] == Answer(env, n + i, Upload(Bucket, UploadName(env.randomName(n + i), files[i]), files[i]))
        {
          if i < m {
            assert u.calls[i] == before.calls[i] && files[i] == init[i];
          }
        }
      }
    }
  }

  /** The loop fails exactly when its last call failed, and every call
      before that succeeded. */
  lemma {:induction false} UploadReplies(files: seq<File>, env: Environment<SaleRow>, n: nat)
    ensures var u := UploadAll(files, env, n);
      && (u.failed <==> u.calls != [] && u.calls[|u.calls| - 1].reply.Failed?)
      && (forall i :: 0 <= i < |u.calls| - 1 ==> u.calls[i].reply.Done?)
    decreases |files|
  {
    if files != [] {
      var init := files[..|files| - 1];
      UploadReplies(init, env, n);
      var before := UploadAll(init, env, n);
      if !before.failed {
        var u := UploadAll(files, env, n);
        assert u.calls[..|before.calls|] == before.calls;
      }
    }
  }

  /** The loop collects one URL per successful upload. */
  lemma {:induction false} UploadUrlCount(files: seq<File>, env: Environment<SaleRow>, n: nat)
    ensures var u := UploadAll(files, env, n);
      |u.urls| == if u.failed then |u.calls| - 1 else |u.calls|
    decreases |files|
  {
    if files != [] {
      UploadUrlCount(files[..|files| - 1], env, n);
    }
  }

  /** The URLs collected are the public URLs of the uploaded paths, in
      selection order. */
  lemma {:induction false} UploadUrls(files: seq<File>, env: Environment<SaleRow>, n: nat)
    ensures var u := UploadAll(files, env, n);
      forall i :: 0 <= i < |u.urls| ==>
        u.urls[i] == env.publicUrl(Bucket, UploadName(env.randomName(n + i), files[i]))
    decreases |files|
  {
    if files != [] {
      var init := files[..|files| - 1];
      UploadUrls(init, env, n);
      UploadUrlCount(init, env, n);
      var before := UploadAll(init, env, n);
      if !before.failed {
        var u := UploadAll(files, env, n);
        var m := |before.urls|;
        assert u.urls[..m] == before.urls;
        forall i | 0 <= i < |u.urls|
          ensures u.urls[i] == env.publicUrl(Bucket, UploadName(env.randomName(n + i), files[i]))
        {
          if i < m {
            assert u.urls[i] == before.urls[i] && files[i] == init[i];
          }
        }
      }
    }
  }

  /** Once an upload has failed, later files change nothing: no further
      call is made. */
  lemma {:induction false} FailureStopsUploads(files: seq<File>, k: nat, env: Environment<SaleRow>, n: nat)
    requires k <= |files|
    requires UploadAll(files[..k], env, n).failed
    ensures UploadAll(files, env, n) == UploadAll(files[..k], env, n)
    decreases |files| - k
  {
    if k < |files| {
      assert files[..|files| - 1][..k] == files[..k];
      FailureStopsUploads(files[..|files| - 1], k, env, n);
    } else {
      assert files[..k] == files;
    }
  }

  /** With every upload succeeding, the loop collects one URL per file. */
  lemma AllUploadsSucceed(files: seq<File>, env: Environment<SaleRow>, n: nat)
    requires !UploadAll(files, env, n).failed
    ensures |UploadAll(files, env, n).urls| == |files|
  {
    UploadUrlCount(files, env, n);
  }

  // ---- the submission ----

  /** The state the submission works on: the inputs and the selected files. */
  datatype Page = Page(form: SaleForm, images: seq<File>)

  /** The row for validated data and the collected URLs. */
  function RowFor(v: SaleData, urls: seq<string>): (row: SaleRow)
    ensures row.sellerName == v.name && row.sellerEmail == v.email && row.sellerPhone == v.phone
    ensures row.vehicleName == v.vehicleName && row.vehicleKm == v.vehicleKm
    ensures row.desiredPrice == v.desiredPrice && row.observation == v.observation
    ensures row.images == urls
  {
    SaleRow(v.name, v.email, v.phone, v.vehicleName, v.vehicleKm, v.desiredPrice, v.observation, urls)
  }

  /** What one submission does: its calls, the state afterwards, the toast
      and the values `isSubmitting` takes in turn. */
  datatype SubmitRun = SubmitRun(calls: seq<Exchange<SaleRow>>, after: Page, toast: Toast,
                                 submitting: seq<bool>)

  function SentToast(): Toast {
    Toast(false, Text("Solicitação enviada!"), Some(Text("Entraremos em contato em breve.")))
  }

  function InvalidToast(m: Message): Toast {
    Toast(true, Text("Erro de validação"), Some(m))
  }

  function SendFailedToast(): Toast {
    Toast(true, Text("Erro ao enviar"), Some(Text("Tente novamente mais tarde.")))
  }

  /** `handleSubmit`, starting as the `n`-th call of the page. */
  function SubmitSpec(p: Page, toNumber: string -> JsNumber, isEmail: string -> bool,
                      env: Environment<SaleRow>, n: nat): SubmitRun {
    SubmitParsed(p, ParseSale(Coerce(p.form, toNumber), isEmail), env, n)
  }

  /** The rest of the submission once `parsed` is known: the upload loop,
      then the insert. */
  function SubmitParsed(p: Page, parsed: Parsed<SaleData>, env: Environment<SaleRow>, n: nat): SubmitRun {
    match parsed
    case Invalid(m) => SubmitRun([], p, InvalidToast(m), [true, false])
    case Valid(v) =>
      var uploads := UploadAll(p.images, env, n);
      if uploads.failed then SubmitRun(uploads.calls, p, SendFailedToast(), [true, false])
      else
        var call := Answer(env, n + |uploads.calls|, Insert(Table, RowFor(v, uploads.urls)));
        if call.reply.Failed? then SubmitRun(uploads.calls + [call], p, SendFailedToast(), [true, false])
        else SubmitRun(uploads.calls + [call], Page(EmptyForm, []), SentToast(), [true, false])
  }

  /** Validation comes first: a rejected form makes no call, neither upload
      nor insert, keeps the state and shows the first issue. */
  lemma SubmitValidatesFirst(p: Page, parsed: Parsed<SaleData>, env: Environment<SaleRow>, n: nat)
    ensures var run := SubmitParsed(p, parsed, env, n);
      && (parsed.Invalid? ==> run.calls == [] && run.after == p && run.toast == InvalidToast(parsed.message))
      && (parsed.Valid? && p.images != [] ==> run.calls != [])
  {
  }

  /** An insert happens only when every upload succeeded; it is the last
      call, and its row carries the validated fields under the `seller_*`
      and `vehicle_*` keys and one URL per selected file, in order. */
  lemma SubmitInsertsAfterUploads(p: Page, v: SaleData, env: Environment<SaleRow>, n: nat)
    ensures var run := SubmitParsed(p, Valid(v), env, n);
      var uploads := UploadAll(p.images, env, n);
      && (uploads.failed ==>
            run.calls == uploads.calls && forall i :: 0 <= i < |run.calls| ==> run.calls[i].request.Upload?)
      && (!uploads.failed ==>
            && |run.calls| == |p.images| + 1
            && run.calls[..|p.images|] == uploads.calls
            && run.calls[|p.images|].request == Insert(Table, RowFor(v, uploads.urls))
            && |uploads.urls| == |p.images|)
  {
    var uploads := UploadAll(p.images, env, n);
    UploadCalls(p.images, env, n);
    UploadUrlCount(p.images, env, n);
    UploadUrls(p.images, env, n);
    if !uploads.failed {
      var run := SubmitParsed(p, Valid(v), env, n);
      assert run.calls[..|p.images|] == uploads.calls;
    }
  }

  /** How a submission ends: `isSubmitting` was set and ends false; a
      success clears the inputs and the selected files; a failure keeps
      them and shows the generic error. */
  lemma SubmitOutcome(p: Page, parsed: Parsed<SaleData>, env: Environment<SaleRow>, n: nat)
    ensures var run := SubmitParsed(p, parsed, env, n);
      var succeeded := run.calls != [] && run.calls[|run.calls| - 1].request.Insert?
                       && run.calls[|run.calls| - 1].reply.Done?;
      && run.submitting == [true, false]
      && (succeeded ==> run.after == Page(EmptyForm, []) && run.toast == SentToast())
      && (!succeeded ==> run.after == p && run.toast.destructive)
      && (parsed.Valid? && !succeeded ==> run.toast == SendFailedToast())
  {
    if parsed.Valid? {
      var uploads := UploadAll(p.images, env, n);
      UploadCalls(p.images, env, n);
      if uploads.failed {
        assert uploads.calls[|uploads.calls| - 1].request.Upload?;
      }
    }
  }

  /** One turn of the upload loop, as the page's log sees it: with `u` the
      loop so far over the first `i` files and `log1` the log after the
      `i`-th upload, the loop over the first `i + 1` files is one more turn,
      its calls are what the log gained, and it fails exactly when the
      upload did. */
  lemma LoopTurn(files: seq<File>, i: nat, env: Environment<SaleRow>, n: nat, u: Uploads,
                 log0: seq<Exchange<SaleRow>>, logged: seq<Exchange<SaleRow>>, log1: seq<Exchange<SaleRow>>,
                 url: string, ok: bool)
    requires i < |files| && u == UploadAll(files[..i], env, n) && !u.failed
    requires |log0| == n && logged == log0 + u.calls
    requires var path := UploadName(env.randomName(|logged|), files[i]);
      && log1 == logged + [Answer(env, |logged|, Upload(Bucket, path, files[i]))]
      && ok == log1[|logged|].reply.Done?
      && url == env.publicUrl(Bucket, path)
    ensures var next := UploadNext(u, files[i], env, n);
      && next == UploadAll(files[..i + 1], env, n)
      && log1 == log0 + next.calls
      && next.failed == !ok
      && (ok ==> next.urls == u.urls + [url])
  {
    UploadStep(files, i, env, n);
    UploadNextParts(u, files[i], env, n);
    LogGrows(log0, u.calls, log1[|logged|]);
  }

  /** Appending to the log after a run of calls appends to the run. */
  lemma LogGrows(log: seq<Exchange<SaleRow>>, calls: seq<Exchange<SaleRow>>, call: Exchange<SaleRow>)
    ensures log + calls + [call] == log + (calls + [call])
  {
  }

  /** The page's controller. */
  class SalePage {
    var formData: SaleForm
    var images: seq<File>
    var isSubmitting: bool
    var toasts: seq<Toast>
    /** Every value `setIsSubmitting` has given `isSubmitting`, in order. */
    ghost var submittingHistory: seq<bool>
    const service: Service<SaleRow>

    function State(): Page
      reads this
    {
      Page(formData, images)
    }

    constructor (service: Service<SaleRow>)
      ensures this.service == service
      ensures State() == Page(EmptyForm, []) && !isSubmitting
      ensures toasts == [] && submittingHistory == []
    {
      this.service := service;
      formData, images, isSubmitting := EmptyForm, [], false;
      toasts, submittingHistory := [], [];
    }

    /** The inputs' `onChange`. */
    method SetFormData(form: SaleForm)
      modifies this
      ensures State() == old(State()).(form := form)
      ensures isSubmitting == old(isSubmitting) && toasts == old(toasts)
      ensures submittingHistory == old(submittingHistory)
    {
      formData := form;
    }

    /** `handleImageChange`: a new selection replaces the previous one; no
        selection at all leaves it as it was. */
    method HandleImageChange(files: Option<seq<File>>)
      modifies this
      ensures images == if files.Some? then files.value else old(images)
      ensures formData == old(formData) && isSubmitting == old(isSubmitting) && toasts == old(toasts)
      ensures submittingHistory == old(submittingHistory)
    {
      if files.Some? {
        images := files.value;
      }
    }

    method SetSubmitting(value: bool)
      modifies this
      ensures isSubmitting == value && submittingHistory == old(submittingHistory) + [value]
      ensures State() == old(State()) && toasts == old(toasts)
    {
      isSubmitting := value;
      submittingHistory := submittingHistory + [value];
    }

    /** `handleSubmit`; `toNumber` is `Number` and `isEmail` is Zod's email
        pattern. */
    method HandleSubmit(toNumber: string -> JsNumber, isEmail: string -> bool)
      modifies this, service
      ensures var run := SubmitSpec(old(State()), toNumber, isEmail, service.env, |old(service.log)|);
        && service.log == old(service.log) + run.calls
        && State() == run.after
        && toasts == old(toasts) + [run.toast]
        && submittingHistory == old(submittingHistory) + run.submitting
        && !isSubmitting
    {
      SetSubmitting(true);
      var parsed := ParseSale(Coerce(formData, toNumber), isEmail);
      SubmitWith(parsed);
      SetSubmitting(false);
    }

    /** The body of the `try` once the schema has run, with its `catch`. */
    method SubmitWith(parsed: Parsed<SaleData>)
      modifies this, service
      ensures var run := SubmitParsed(old(State()), parsed, service.env, |old(service.log)|);
        && service.log == old(service.log) + run.calls
        && State() == run.after
        && toasts == old(toasts) + [run.toast]
        && isSubmitting == old(isSubmitting) && submittingHistory == old(submittingHistory)
    {
      if parsed.Invalid? {
        toasts := toasts + [InvalidToast(parsed.message)];
        return;
      }
      ghost var uploads := UploadAll(images, service.env, |service.log|);
      var imageUrls, failed := UploadImages(images);
      if failed {
        toasts := toasts + [SendFailedToast()];
        return;
      }
      InsertRow(parsed.value, imageUrls);
    }

    /** The insert after the loop, its toast, and the reset on success. */
    method InsertRow(v: SaleData, imageUrls: seq<string>)
      modifies this, service
      ensures var call := Answer(service.env, |old(service.log)|, Insert(Table, RowFor(v, imageUrls)));
        && service.log == old(service.log) + [call]
        && State() == (if call.reply.Failed? then old(State()) else Page(EmptyForm, []))
        && toasts == old(toasts) + [if call.reply.Failed? then SendFailedToast() else SentToast()]
        && isSubmitting == old(isSubmitting) && submittingHistory == old(submittingHistory)
    {
      var reply := service.Call(Insert(Table, RowFor(v, imageUrls)));
      if reply.Failed? {
        toasts := toasts + [SendFailedToast()];
        return;
      }
      toasts := toasts + [SentToast()];
      formData, images := EmptyForm, [];
    }

    /** The `for` loop over the selected files: uploads each in turn and
        collects its public URL; `failed` when an upload fails, which ends
        the loop. */
    method UploadImages(files: seq<File>) returns (imageUrls: seq<string>, failed: bool)
      modifies service
      ensures var u := UploadAll(files, service.env, |old(service.log)|);
        && service.log == old(service.log) + u.calls
        && imageUrls == u.urls && failed == u.failed
    {
      ghost var n := |service.log|;
      ghost var env := service.env;
      ghost var u := Uploads([], [], false);
      imageUrls := [];
      failed := false;
      var i := 0;
      while i < |files|
        invariant 0 <= i <= |files|
        invariant u == UploadAll(files[..i], env, n)
        invariant !u.failed && service.log == old(service.log) + u.calls && imageUrls == u.urls
        decreases |files| - i
      {
        ghost var logged := service.log;
        var url, ok := UploadImage(files[i]);
        LoopTurn(files, i, env, n, u, old(service.log), logged, service.log, url, ok);
        u := UploadNext(u, files[i], env, n);
        if !ok {
          FailureStopsUploads(files, i + 1, env, n);
          failed := true;
          return;
        }
        imageUrls := imageUrls + [url];
        i := i + 1;
      }
      assert files[..i] == files;
    }

    /** One turn of the loop: the upload under a random name keeping the
        file's extension, and the public URL of that name. */
    method UploadImage(file: File) returns (url: string, ok: bool)
      modifies service
      ensures var k := |old(service.log)|;
        var path := UploadName(service.env.randomName(k), file);
        var call := Answer(service.env, k, Upload(Bucket, path, file));
        && service.log == old(service.log) + [call]
        && ok == call.reply.Done?
        && url == service.env.publicUrl(Bucket, path)
    {
      var path := UploadName(service.env.randomName(|service.log|), file);
      var reply := service.Call(Upload(Bucket, path, file));
      ok := reply.Done?;
      url := service.env.publicUrl(Bucket, path);
    }
  }
}
