/** The admin panel (`Admin`): the vehicle form, its schema, and the
    controller that creates, edits and deletes vehicles. */
module AdminPanel {
  import opened Wrappers
  import opened Text
  import opened Zod
  import opened Platform
  import opened Vehicles

  /** `formData`: the strings as typed, the numbers as `parseInt` and
      `parseFloat` gave them. `vehicleSchema.parse` returns a record of the
      same shape, its strings trimmed. */
  datatype VehicleForm = VehicleForm(
    name: string, model: string, brand: string,
    year: JsNumber, km: JsNumber, price: JsNumber,
    description: string)

  /** The row written to `vehicles`: the parsed fields, and `image_url` only
      when present (`None`: the key is absent, not empty). */
  datatype VehicleRow = VehicleRow(fields: VehicleForm, imageUrl: Option<string>)

  const Table := "vehicles"
  const Bucket := "vehicle-images"
  const SaveFailed := "Erro ao salvar veículo"

  // ---- vehicleSchema ----

  function VehicleIssues(f: VehicleForm): seq<Message> {
    StringIssues(Trim(f.name), [MinLength(1, Text("Nome é obrigatório")), MaxLength(100, TooBig(100))])
    + StringIssues(Trim(f.model), [MinLength(1, Text("Modelo é obrigatório")), MaxLength(100, TooBig(100))])
    + StringIssues(Trim(f.brand), [MinLength(1, Text("Marca é obrigatória")), MaxLength(50, TooBig(50))])
    + NumberIssues(f.year, [AtLeast(1900, TooSmall(1900)), AtMost(2030, TooBig(2030))])
    + NumberIssues(f.km, [AtLeast(0, TooSmall(0))])
    + NumberIssues(f.price, [AtLeast(0, TooSmall(0))])
    + StringIssues(Trim(f.description), [MaxLength(1000, TooBig(1000))])
  }

  predicate Within(x: JsNumber, lo: int, hi: int) {
    x.Finite? && lo as real <= x.value <= hi as real
  }

  predicate NonNegative(x: JsNumber) {
    x.PosInfinity? || (x.Finite? && x.value >= 0.0)
  }

  /** The conditions of `vehicleSchema`, stated directly. */
  predicate AcceptableVehicle(f: VehicleForm) {
    && 1 <= |Trim(f.name)| <= 100
    && 1 <= |Trim(f.model)| <= 100
    && 1 <= |Trim(f.brand)| <= 50
    && Within(f.year, 1900, 2030)
    && NonNegative(f.km)
    && NonNegative(f.price)
    && |Trim(f.description)| <= 1000
  }

  function Trimmed(f: VehicleForm): VehicleForm {
    f.(name := Trim(f.name), model := Trim(f.model), brand := Trim(f.brand),
       description := Trim(f.description))
  }

  /** `vehicleSchema.parse(formData)`: accepts exactly the forms meeting the
      schema's conditions and returns their trimmed fields. */
  function ParseVehicle(f: VehicleForm): (r: Parsed<VehicleForm>)
    ensures r.Valid? <==> AcceptableVehicle(f)
    ensures r.Valid? ==> r.value == Trimmed(f)
  {
    VehicleIssuesIff(f);
    FirstIssue(VehicleIssues(f), Trimmed(f))
  }

  lemma VehicleIssuesIff(f: VehicleForm)
    ensures VehicleIssues(f) == [] <==> AcceptableVehicle(f)
  {
    var name := StringIssues(Trim(f.name), [MinLength(1, Text("Nome é obrigatório")), MaxLength(100, TooBig(100))]);
    var model := StringIssues(Trim(f.model), [MinLength(1, Text("Modelo é obrigatório")), MaxLength(100, TooBig(100))]);
    var brand := StringIssues(Trim(f.brand), [MinLength(1, Text("Marca é obrigatória")), MaxLength(50, TooBig(50))]);
    var year := NumberIssues(f.year, [AtLeast(1900, TooSmall(1900)), AtMost(2030, TooBig(2030))]);
    var km := NumberIssues(f.km, [AtLeast(0, TooSmall(0))]);
    var price := NumberIssues(f.price, [AtLeast(0, TooSmall(0))]);
    var description := StringIssues(Trim(f.description), [MaxLength(1000, TooBig(1000))]);
    LengthBetween(Trim(f.name), 1, 100, Text("Nome é obrigatório"), TooBig(100));
    LengthBetween(Trim(f.model), 1, 100, Text("Modelo é obrigatório"), TooBig(100));
    LengthBetween(Trim(f.brand), 1, 50, Text("Marca é obrigatória"), TooBig(50));
    NumberBetween(f.year, 1900, 2030, TooSmall(1900), TooBig(2030));
    NumberAtLeast(f.km, 0, TooSmall(0));
    NumberAtLeast(f.price, 0, TooSmall(0));
    LengthAtMost(Trim(f.description), 1000, TooBig(1000));
    NoIssueInAnyKey(name, model, brand, year, km, price, description);
    assert VehicleIssues(f) == name + model + brand + year + km + price + description;
  }

  /** Keys are checked in the schema's order: a blank name reports "Nome é
      obrigatório" whatever else is wrong with the form. */
  lemma BlankNameFirst(f: VehicleForm)
    requires Trim(f.name) == []
    ensures ParseVehicle(f) == Invalid(Text("Nome é obrigatório"))
  {
    var name := StringIssues(Trim(f.name), [MinLength(1, Text("Nome é obrigatório")), MaxLength(100, TooBig(100))]);
    assert name[0] == Text("Nome é obrigatório");
    assert VehicleIssues(f)[0] == name[0];
  }

  /** An acceptable form with its price changed to -1 reports Zod's
      built-in minimum message for 0: the keys before the price pass. */
  lemma NegativePriceMessage(f: VehicleForm)
    requires AcceptableVehicle(f)
    ensures ParseVehicle(f.(price := Finite(-1.0))) == Invalid(TooSmall(0))
  {
    var g := f.(price := Finite(-1.0));
    KeysBeforePricePass(g);
    NumberIssuesOfOne(g.price, AtLeast(0, TooSmall(0)));
    SixthIssueFirst(
      StringIssues(Trim(g.name), [MinLength(1, Text("Nome é obrigatório")), MaxLength(100, TooBig(100))]),
      StringIssues(Trim(g.model), [MinLength(1, Text("Modelo é obrigatório")), MaxLength(100, TooBig(100))]),
      StringIssues(Trim(g.brand), [MinLength(1, Text("Marca é obrigatória")), MaxLength(50, TooBig(50))]),
      NumberIssues(g.year, [AtLeast(1900, TooSmall(1900)), AtMost(2030, TooBig(2030))]),
      NumberIssues(g.km, [AtLeast(0, TooSmall(0))]),
      NumberIssues(g.price, [AtLeast(0, TooSmall(0))]),
      StringIssues(Trim(g.description), [MaxLength(1000, TooBig(1000))]));
  }

  lemma KeysBeforePricePass(g: VehicleForm)
    requires 1 <= |Trim(g.name)| <= 100 && 1 <= |Trim(g.model)| <= 100 && 1 <= |Trim(g.brand)| <= 50
    requires Within(g.year, 1900, 2030) && NonNegative(g.km)
    ensures StringIssues(Trim(g.name), [MinLength(1, Text("Nome é obrigatório")), MaxLength(100, TooBig(100))]) == []
    ensures StringIssues(Trim(g.model), [MinLength(1, Text("Modelo é obrigatório")), MaxLength(100, TooBig(100))]) == []
    ensures StringIssues(Trim(g.brand), [MinLength(1, Text("Marca é obrigatória")), MaxLength(50, TooBig(50))]) == []
    ensures NumberIssues(g.year, [AtLeast(1900, TooSmall(1900)), AtMost(2030, TooBig(2030))]) == []
    ensures NumberIssues(g.km, [AtLeast(0, TooSmall(0))]) == []
  {
    LengthBetween(Trim(g.name), 1, 100, Text("Nome é obrigatório"), TooBig(100));
    LengthBetween(Trim(g.model), 1, 100, Text("Modelo é obrigatório"), TooBig(100));
    LengthBetween(Trim(g.brand), 1, 50, Text("Marca é obrigatória"), TooBig(50));
    NumberBetween(g.year, 1900, 2030, TooSmall(1900), TooBig(2030));
    NumberAtLeast(g.km, 0, TooSmall(0));
  }

  // ---- the form state and its transitions ----

  /** The form's state: `formData`, `editingId`, `imageFile`, `showForm`. */
  datatype Draft = Draft(form: VehicleForm, editingId: Option<string>, imageFile: Option<File>, showForm: bool)

  /** `resetForm`; the default year is the current year. */
  function Reset(currentYear: int): Draft {
    Draft(VehicleForm("", "", "", Finite(currentYear as real), Finite(0.0), Finite(0.0), ""), None, None, false)
  }

  /** `handleEdit`: the vehicle's fields, a missing description as "", its id
      as the one being edited, the form shown; the chosen image is kept. */
  function EditDraft(d: Draft, v: Vehicle): (e: Draft)
    ensures e.editingId == Some(v.id) && e.showForm && e.imageFile == d.imageFile
    ensures e.form.name == v.name && e.form.model == v.model && e.form.brand == v.brand
    ensures e.form.year == Finite(v.year as real) && e.form.km == Finite(v.km as real)
    ensures e.form.price == Finite(v.price)
    ensures e.form.description == if v.description.Some? then v.description.value else ""
  {
    var description := if IsTruthy(v.description) then v.description.value else "";
    Draft(VehicleForm(v.name, v.model, v.brand, Finite(v.year as real), Finite(v.km as real),
                      Finite(v.price), description),
          Some(v.id), d.imageFile, true)
  }

  /** `{...validated, ...(imageUrl && {image_url: imageUrl})}`. */
  function Payload(fields: VehicleForm, imageUrl: Option<string>): (row: VehicleRow)
    ensures row.fields == fields
    ensures row.imageUrl.Some? <==> IsTruthy(imageUrl)
    ensures row.imageUrl.Some? ==> row.imageUrl == imageUrl
  {
    VehicleRow(fields, if IsTruthy(imageUrl) then imageUrl else None)
  }

  /** An update keyed by `editingId` when it is set, an insert otherwise. */
  function WriteRequest(editingId: Option<string>, row: VehicleRow): Request<VehicleRow> {
    if IsTruthy(editingId) then Update(Table, row, editingId.value) else Insert(Table, row)
  }

  predicate IsWrite(r: Request<VehicleRow>) {
    r.Insert? || r.Update?
  }

  /** What one save does: the calls made with their replies, the form's
      state afterwards and the toast shown. */
  datatype SaveRun = SaveRun(calls: seq<Exchange<VehicleRow>>, after: Draft, toast: Toast)

  /** `saveMutation` with its `onSuccess` and `onError`, starting as the
      `n`-th call of the page: the form is parsed first. */
  function SaveSpec(d: Draft, currentYear: int, env: Environment<VehicleRow>, n: nat): SaveRun {
    SaveParsed(d, ParseVehicle(d.form), currentYear, env, n)
  }

  /** The rest of the save once `parsed` is known: nothing more when it was
      rejected; otherwise the optional upload, then the write. */
  function SaveParsed(d: Draft, parsed: Parsed<VehicleForm>, currentYear: int,
                      env: Environment<VehicleRow>, n: nat): SaveRun {
    match parsed
    case Invalid(m) => SaveRun([], d, ErrorToast(m))
    case Valid(fields) =>
      match d.imageFile
      case None => WriteSpec(d, currentYear, fields, None, [], env, n)
      case Some(file) =>
        var path := UploadName(env.randomName(n), file);
        var upload := Answer(env, n, Upload(Bucket, path, file));
        if upload.reply.Failed? then SaveRun([upload], d, ErrorToast(Text(SaveFailed)))
        else WriteSpec(d, currentYear, fields, Some(env.publicUrl(Bucket, path)), [upload], env, n + 1)
  }

  function WriteSpec(d: Draft, currentYear: int, fields: VehicleForm, imageUrl: Option<string>,
                     before: seq<Exchange<VehicleRow>>, env: Environment<VehicleRow>, n: nat): SaveRun
  {
    var write := Answer(env, n, WriteRequest(d.editingId, Payload(fields, imageUrl)));
    if write.reply.Failed? then SaveRun(before + [write], d, ErrorToast(Text(SaveFailed)))
    else
      var text := if IsTruthy(d.editingId) then "Veículo atualizado!" else "Veículo adicionado!";
      SaveRun(before + [write], Reset(currentYear), SuccessToast(text))
  }

  /** The write and what follows it. */
  lemma WriteRun(d: Draft, currentYear: int, fields: VehicleForm, imageUrl: Option<string>,
                 before: seq<Exchange<VehicleRow>>, env: Environment<VehicleRow>, n: nat)
    ensures var run := WriteSpec(d, currentYear, fields, imageUrl, before, env, n);
      var w := run.calls[|before|];
      && |run.calls| == |before| + 1 && run.calls[..|before|] == before
      && IsWrite(w.request)
      && (w.request.Update? <==> IsTruthy(d.editingId))
      && (w.request.Update? ==> w.request.id == d.editingId.value)
      && w.request.row == Payload(fields, imageUrl)
      && w.reply == env.respond(n, w.request)
      && (w.reply.Done? ==>
            && run.after == Reset(currentYear)
            && run.toast == SuccessToast(if IsTruthy(d.editingId) then "Veículo atualizado!" else "Veículo adicionado!"))
      && (w.reply.Failed? ==> run.after == d && run.toast == ErrorToast(Text(SaveFailed)))
  {
    var run := WriteSpec(d, currentYear, fields, imageUrl, before, env, n);
    assert run.calls[..|before|] == before;
  }

  /** The save of an accepted form once its upload, if any, is known. */
  lemma SaveSteps(d: Draft, fields: VehicleForm, currentYear: int, env: Environment<VehicleRow>, n: nat)
    ensures d.imageFile.None? ==>
      SaveParsed(d, Valid(fields), currentYear, env, n) == WriteSpec(d, currentYear, fields, None, [], env, n)
    ensures d.imageFile.Some? ==>
      var path := UploadName(env.randomName(n), d.imageFile.value);
      var upload := Answer(env, n, Upload(Bucket, path, d.imageFile.value));
      SaveParsed(d, Valid(fields), currentYear, env, n) ==
        if upload.reply.Failed? then SaveRun([upload], d, ErrorToast(Text(SaveFailed)))
        else WriteSpec(d, currentYear, fields, Some(env.publicUrl(Bucket, path)), [upload], env, n + 1)
  {
  }

  /** Parsing comes before any call: a rejected form makes no call, keeps
      its state and shows the first issue; an accepted one makes a call. */
  lemma SaveValidatesFirst(d: Draft, parsed: Parsed<VehicleForm>, currentYear: int,
                           env: Environment<VehicleRow>, n: nat)
    ensures var run := SaveParsed(d, parsed, currentYear, env, n);
      && (run.calls == [] <==> parsed.Invalid?)
      && (parsed.Invalid? ==> run.after == d && run.toast == ErrorToast(parsed.message))
  {
  }

  /** A price of -1 is rejected before any call, whatever the other fields. */
  lemma NegativePriceMakesNoCall(d: Draft, currentYear: int, env: Environment<VehicleRow>, n: nat)
    requires d.form.price == Finite(-1.0)
    ensures SaveSpec(d, currentYear, env, n).calls == []
    ensures SaveSpec(d, currentYear, env, n).after == d
  {
    assert !AcceptableVehicle(d.form);
    SaveValidatesFirst(d, ParseVehicle(d.form), currentYear, env, n);
  }

  /** With a file chosen, an accepted form first uploads it to the bucket
      under a name keeping its extension; the write follows only when the
      upload succeeds. */
  lemma SaveUploadsFirst(d: Draft, fields: VehicleForm, currentYear: int, env: Environment<VehicleRow>, n: nat)
    requires d.imageFile.Some?
    ensures var run := SaveParsed(d, Valid(fields), currentYear, env, n);
      && 1 <= |run.calls| <= 2
      && run.calls[0].request.Upload?
      && run.calls[0].request.bucket == Bucket
      && run.calls[0].request.file == d.imageFile.value
      && Extension(run.calls[0].request.path) == Extension(d.imageFile.value.name)
      && (|run.calls| == 2 <==> run.calls[0].reply.Done?)
  {
    var run := SaveParsed(d, Valid(fields), currentYear, env, n);
    var path := UploadName(env.randomName(n), d.imageFile.value);
    var upload := Answer(env, n, Upload(Bucket, path, d.imageFile.value));
    UploadNameKeepsExtension(env.randomName(n), d.imageFile.value);
    if upload.reply.Done? {
      var url := Some(env.publicUrl(Bucket, path));
      WriteRun(d, currentYear, fields, url, [upload], env, n + 1);
      assert run.calls[0] == upload;
    }
  }

  /** An accepted form is written once, after the upload if there is one
      and unless it failed: an update keyed by `editingId` in edit mode, an
      insert otherwise. */
  lemma SaveWritesOnce(d: Draft, fields: VehicleForm, currentYear: int, env: Environment<VehicleRow>, n: nat)
    ensures var run := SaveParsed(d, Valid(fields), currentYear, env, n);
      var uploads := if d.imageFile.Some? then 1 else 0;
      && 1 <= |run.calls| <= uploads + 1
      && (|run.calls| == uploads + 1 <==> (d.imageFile.None? || run.calls[0].reply.Done?))
      && (|run.calls| == uploads + 1 ==>
            var w := run.calls[uploads].request;
            && IsWrite(w)
            && (w.Update? <==> IsTruthy(d.editingId))
            && (w.Update? ==> w.id == d.editingId.value))
  {
    match d.imageFile
    case None =>
      WriteRun(d, currentYear, fields, None, [], env, n);
    case Some(file) =>
      var path := UploadName(env.randomName(n), file);
      var upload := Answer(env, n, Upload(Bucket, path, file));
      if upload.reply.Done? {
        WriteRun(d, currentYear, fields, Some(env.publicUrl(Bucket, path)), [upload], env, n + 1);
      }
  }

  /** The written row carries the parsed fields; it has an `image_url` only
      when a file was chosen (its upload then succeeded) and the public URL
      is not empty, and then it is that URL. */
  lemma SavePayload(d: Draft, fields: VehicleForm, currentYear: int, env: Environment<VehicleRow>, n: nat)
    ensures var run := SaveParsed(d, Valid(fields), currentYear, env, n);
      var last := run.calls[|run.calls| - 1].request;
      IsWrite(last) ==>
        && last.row.fields == fields
        && (last.row.imageUrl.Some? <==>
              d.imageFile.Some? && env.publicUrl(Bucket, run.calls[0].request.path) != "")
        && (last.row.imageUrl.Some? ==> last.row.imageUrl.value == env.publicUrl(Bucket, run.calls[0].request.path))
  {
    var run := SaveParsed(d, Valid(fields), currentYear, env, n);
    match d.imageFile
    case None =>
      WriteRun(d, currentYear, fields, None, [], env, n);
    case Some(file) =>
      var path := UploadName(env.randomName(n), file);
      var upload := Answer(env, n, Upload(Bucket, path, file));
      if upload.reply.Done? {
        WriteRun(d, currentYear, fields, Some(env.publicUrl(Bucket, path)), [upload], env, n + 1);
        assert run.calls[0] == upload;
      }
  }

  /** A save that ends with a successful write resets the form (default
      fields, no image, not editing, hidden) and reports the mode it was
      in; any other save leaves the form as it was and shows an error. */
  lemma SaveOutcome(d: Draft, parsed: Parsed<VehicleForm>, currentYear: int,
                    env: Environment<VehicleRow>, n: nat)
    ensures var run := SaveParsed(d, parsed, currentYear, env, n);
      var succeeded := run.calls != [] && IsWrite(run.calls[|run.calls| - 1].request)
                       && run.calls[|run.calls| - 1].reply.Done?;
      && (succeeded ==>
            && run.after == Reset(currentYear)
            && run.toast == SuccessToast(if IsTruthy(d.editingId) then "Veículo atualizado!" else "Veículo adicionado!"))
      && (!succeeded ==> run.after == d && run.toast.destructive)
      && (!succeeded && parsed.Valid? ==> run.toast == ErrorToast(Text(SaveFailed)))
  {
  }

  /** What one delete does: its calls and the toast, if any. */
  datatype DeleteRun = DeleteRun(calls: seq<Exchange<VehicleRow>>, toast: Option<Toast>)

  /** `handleDelete` with `deleteMutation`: nothing unless the user confirms;
      then one delete keyed by the id. */
  function DeleteSpec(id: string, confirmed: bool, env: Environment<VehicleRow>, n: nat): (run: DeleteRun)
    ensures !confirmed ==> run.calls == [] && run.toast == None
    ensures confirmed ==> |run.calls| == 1 && run.calls[0].request == Delete(Table, id)
    ensures confirmed ==> run.toast == Some(
      if run.calls[0].reply.Done? then SuccessToast("Veículo removido!")
      else ErrorToast(Text("Erro ao remover veículo")))
  {
    if !confirmed then DeleteRun([], None)
    else
      var del := Answer(env, n, Delete(Table, id));
      var toast := if del.reply.Done? then SuccessToast("Veículo removido!")
                   else ErrorToast(Text("Erro ao remover veículo"));
      DeleteRun([del], Some(toast))
  }

  /** The admin page's controller. */
  class AdminPage {
    var formData: VehicleForm
    var editingId: Option<string>
    var imageFile: Option<File>
    var showForm: bool
    var toasts: seq<Toast>
    const service: Service<VehicleRow>

    function State(): Draft
      reads this
    {
      Draft(formData, editingId, imageFile, showForm)
    }

    constructor (service: Service<VehicleRow>, currentYear: int)
      ensures this.service == service
      ensures State() == Reset(currentYear) && toasts == []
    {
      this.service := service;
      formData := VehicleForm("", "", "", Finite(currentYear as real), Finite(0.0), Finite(0.0), "");
      editingId, imageFile, showForm := None, None, false;
      toasts := [];
    }

    /** "Adicionar Veículo": shows the form. */
    method OpenForm()
      modifies this
      ensures State() == old(State()).(showForm := true) && toasts == old(toasts)
    {
      showForm := true;
    }

    /** The inputs' `onChange`: the typed values replace `formData`. */
    method SetFormData(form: VehicleForm)
      modifies this
      ensures State() == old(State()).(form := form) && toasts == old(toasts)
    {
      formData := form;
    }

    /** The file input: the first chosen file, or none. */
    method ChooseImage(files: seq<File>)
      modifies this
      ensures State() == old(State()).(imageFile := if files == [] then None else Some(files[0]))
      ensures toasts == old(toasts)
    {
      imageFile := if files == [] then None else Some(files[0]);
    }

    /** `resetForm`, also the "Cancelar" button. */
    method ResetForm(currentYear: int)
      modifies this
      ensures State() == Reset(currentYear) && toasts == old(toasts)
    {
      formData := VehicleForm("", "", "", Finite(currentYear as real), Finite(0.0), Finite(0.0), "");
      imageFile := None;
      editingId := None;
      showForm := false;
    }

    method HandleEdit(v: Vehicle)
      modifies this
      ensures State() == EditDraft(old(State()), v) && toasts == old(toasts)
    {
      formData := VehicleForm(v.name, v.model, v.brand, Finite(v.year as real), Finite(v.km as real),
                              Finite(v.price), if IsTruthy(v.description) then v.description.value else "");
      editingId := Some(v.id);
      showForm := true;
    }

    /** `handleDelete`; `confirmed` is the user's answer to `confirm`. */
    method HandleDelete(id: string, confirmed: bool)
      modifies this, service
      ensures var run := DeleteSpec(id, confirmed, service.env, |old(service.log)|);
        && service.log == old(service.log) + run.calls
        && toasts == old(toasts) + (if run.toast.Some? then [run.toast.value] else [])
      ensures State() == old(State())
    {
      if confirmed {
        var reply := service.Call(Delete(Table, id));
        if reply.Done? {
          toasts := toasts + [SuccessToast("Veículo removido!")];
        } else {
          toasts := toasts + [ErrorToast(Text("Erro ao remover veículo"))];
        }
      }
    }

    /** The form's submit: `saveMutation.mutate()` with its `onSuccess` and
        `onError`. */
    method Save(currentYear: int)
      modifies this, service
      ensures var run := SaveSpec(old(State()), currentYear, service.env, |old(service.log)|);
        && service.log == old(service.log) + run.calls
        && State() == run.after
        && toasts == old(toasts) + [run.toast]
    {
      var parsed := ParseVehicle(formData);
      SaveParsedForm(parsed, currentYear);
    }

    /** The mutation once `vehicleSchema.parse` has run: a rejected form
        only shows the issue; an accepted one is saved. */
    method SaveParsedForm(parsed: Parsed<VehicleForm>, currentYear: int)
      modifies this, service
      ensures var run := SaveParsed(old(State()), parsed, currentYear, service.env, |old(service.log)|);
        && service.log == old(service.log) + run.calls
        && State() == run.after
        && toasts == old(toasts) + [run.toast]
    {
      if parsed.Invalid? {
        toasts := toasts + [ErrorToast(parsed.message)];
      } else {
        SaveValid(parsed.value, currentYear);
      }
    }

    /** The mutation once `vehicleSchema.parse` has accepted the form: the
        upload of the chosen image, if any, then the write. */
    method SaveValid(fields: VehicleForm, currentYear: int)
      modifies this, service
      ensures var run := SaveParsed(old(State()), Valid(fields), currentYear, service.env, |old(service.log)|);
        && service.log == old(service.log) + run.calls
        && State() == run.after
        && toasts == old(toasts) + [run.toast]
    {
      var n := |service.log|;
      SaveSteps(State(), fields, currentYear, service.env, n);
      if imageFile.None? {
        WriteRun(State(), currentYear, fields, None, [], service.env, n);
        Write(fields, None, currentYear, []);
      } else {
        var path := UploadName(service.env.randomName(n), imageFile.value);
        var uploaded := service.Call(Upload(Bucket, path, imageFile.value));
        ghost var upload := Answer(service.env, n, Upload(Bucket, path, imageFile.value));
        if uploaded.Failed? {
          toasts := toasts + [ErrorToast(Text(SaveFailed))];
        } else {
          var imageUrl := Some(service.env.publicUrl(Bucket, path));
          WriteRun(State(), currentYear, fields, imageUrl, [upload], service.env, n + 1);
          Write(fields, imageUrl, currentYear, [upload]);
        }
      }
    }

    /** The insert or update that ends an accepted save, after the calls
        `before` of the same save, with its `onSuccess` or `onError`. */
    method Write(fields: VehicleForm, imageUrl: Option<string>, currentYear: int,
                 ghost before: seq<Exchange<VehicleRow>>)
      modifies this, service
      ensures var run := WriteSpec(old(State()), currentYear, fields, imageUrl, before, service.env, |old(service.log)|);
        && service.log == old(service.log) + run.calls[|before|..]
        && State() == run.after
        && toasts == old(toasts) + [run.toast]
    {
      WriteRun(State(), currentYear, fields, imageUrl, before, service.env, |service.log|);
      var row := Payload(fields, imageUrl);
      var written: Reply;
      if IsTruthy(editingId) {
        written := service.Call(Update(Table, row, editingId.value));
      } else {
        written := service.Call(Insert(Table, row));
      }
      if written.Failed? {
        toasts := toasts + [ErrorToast(Text(SaveFailed))];
        return;
      }
      toasts := toasts + [SuccessToast(if IsTruthy(editingId) then "Veículo atualizado!" else "Veículo adicionado!")];
      ResetForm(currentYear);
    }
  }
}
