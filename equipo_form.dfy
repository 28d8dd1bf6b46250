/** The team form used to create and edit a team: its schema, its default
    values, the crest image checks and upload state, and the request it
    dispatches on submit. */
module EquipoForm {
  import opened Wrappers
  import Text
  import Schema
  import MediaHost
  import EquipoSlice

  /** 5 MB, as `5 * 1024 * 1024` bytes. */
  const MaxImageBytes: nat := 5 * 1024 * 1024

  const NotAnImageAlert: string := "Por favor selecciona un archivo de imagen válido"
  const TooLargeAlert: string := "La imagen no debe superar los 5MB"
  const UploadFailedAlert: string := "Error al subir la imagen. Por favor intenta nuevamente."

  /** The crest stored when the form has none. */
  const DefaultCrest: string := "/default-team-logo.png"

  /** The outcome of the checks `handleImageUpload` runs before uploading. */
  datatype ImageCheck = NoFile | NotAnImage | TooLarge | Accepted(file: MediaHost.ImageFile)

  /** No file: nothing to do; a type not starting with `image/`: refused; more
      than 5 MB: refused; otherwise the file may be uploaded. */
  function CheckImage(file: Option<MediaHost.ImageFile>): (c: ImageCheck)
    ensures c == NoFile <==> file.None?
    ensures c == NotAnImage <==> file.Some? && !Text.StartsWith(file.value.mimeType, "image/")
    ensures c == TooLarge <==>
      file.Some? && Text.StartsWith(file.value.mimeType, "image/") && file.value.size > MaxImageBytes
    ensures c.Accepted? <==>
      file.Some? && Text.StartsWith(file.value.mimeType, "image/") && file.value.size <= MaxImageBytes
    ensures c.Accepted? ==> c.file == file.value
  {
    match file
    case None => NoFile
    case Some(f) =>
      if !Text.StartsWith(f.mimeType, "image/") then NotAnImage
      else if f.size > MaxImageBytes then TooLarge
      else Accepted(f)
  }

  /** The `alert` a refused file raises; none for no file or an accepted one. */
  function CheckAlert(c: ImageCheck): (a: Option<string>)
    ensures a.None? <==> c.NoFile? || c.Accepted?
    ensures c.NotAnImage? ==> a == Some(NotAnImageAlert)
    ensures c.TooLarge? ==> a == Some(TooLargeAlert)
  {
    match c
    case NotAnImage => Some(NotAnImageAlert)
    case TooLarge => Some(TooLargeAlert)
    case _ => None
  }

  /** The size limit is inclusive and the type test is a prefix test. */
  lemma ImageCheckBoundaries()
    ensures CheckImage(Some(MediaHost.ImageFile("a.png", "image/png", 5242880))).Accepted?
    ensures CheckImage(Some(MediaHost.ImageFile("a.png", "image/png", 5242881))) == TooLarge
    ensures CheckImage(Some(MediaHost.ImageFile("a.pdf", "application/pdf", 10))) == NotAnImage
    ensures CheckImage(Some(MediaHost.ImageFile("a", "imagefoo", 10))) == NotAnImage
    ensures CheckImage(Some(MediaHost.ImageFile("a.pdf", "application/pdf", 9999999))) == NotAnImage
  {
    assert "image/" <= "image/png";
    assert "image/"[5] == '/' != "imagefoo"[5];
    assert "image/"[0] != "application/pdf"[0];
  }

  /** What react-hook-form hands to the resolver: each field may be missing. */
  datatype FormValues = FormValues(
    nombre: Option<string>,
    torneoId: Option<string>,
    color: Option<string>,
    fundacion: Option<string>,
    ciudad: Option<string>,
    estadio: Option<string>)

  /** `EquipoFormData`: the values once the schema accepts them. */
  datatype FormData = FormData(
    nombre: string,
    torneoId: string,
    color: string,
    fundacion: Option<string>,
    ciudad: Option<string>,
    estadio: Option<string>)

  /** `equipoSchema.safeParse`: the issues of the three required fields, in
      declaration order; the three optional fields accept anything. */
  function ParseForm(v: FormValues): (r: Result<FormData, seq<Schema.Issue>>)
    ensures r.Success? <==>
      v.nombre.Some? && 1 <= |v.nombre.value| <= 50 &&
      v.torneoId.Some? && |v.torneoId.value| >= 1 &&
      v.color.Some? && |v.color.value| >= 1
    ensures r.Success? ==>
      r.value.nombre == v.nombre.value && r.value.torneoId == v.torneoId.value && r.value.color == v.color.value &&
      r.value.fundacion == v.fundacion && r.value.ciudad == v.ciudad && r.value.estadio == v.estadio
    ensures r.Failure? ==> r.error != []
    ensures r.Failure? ==> forall i :: 0 <= i < |r.error| ==> r.error[i].path in {"nombre", "torneoId", "color"}
  {
    var issues :=
      Schema.StringIssues("nombre", v.nombre, 1, "El nombre es requerido", Some(50), "Máximo 50 caracteres") +
      Schema.StringIssues("torneoId", v.torneoId, 1, "Debe seleccionar un torneo", None, "") +
      Schema.StringIssues("color", v.color, 1, "El color es requerido", None, "");
    if issues == [] then
      Success(FormData(v.nombre.value, v.torneoId.value, v.color.value, v.fundacion, v.ciudad, v.estadio))
    else
      Failure(issues)
  }

  /** `defaultValues`: an existing team's fields, with missing optional fields
      shown as ''; a new team starts with only the colour '#000000'. */
  function DefaultValues(equipo: Option<EquipoSlice.Equipo>): (v: FormValues)
    ensures equipo.None? ==> v == FormValues(None, None, Some("#000000"), None, None, None)
    ensures equipo.Some? ==>
      v.nombre == Some(equipo.value.body.nombre) && v.torneoId == Some(equipo.value.body.torneoId) &&
      v.color == Some(equipo.value.body.color)
    ensures equipo.Some? ==>
      v.fundacion == Some(equipo.value.body.fundacion.GetOr("")) &&
      v.ciudad == Some(equipo.value.body.ciudad.GetOr("")) &&
      v.estadio == Some(equipo.value.body.estadio.GetOr(""))
  {
    match equipo
    case None => FormValues(None, None, Some("#000000"), None, None, None)
    case Some(e) =>
      FormValues(Some(e.body.nombre), Some(e.body.torneoId), Some(e.body.color),
                 Some(e.body.fundacion.GetOr("")), Some(e.body.ciudad.GetOr("")), Some(e.body.estadio.GetOr("")))
  }

  /** The values the resolver sees once every input is registered: a field
      with no default takes its element's empty value '' (the text inputs
      start empty and the tournament select's first option has value ''). */
  function OnRegister(v: FormValues): (w: FormValues)
    ensures w.nombre == Some(v.nombre.GetOr("")) && w.torneoId == Some(v.torneoId.GetOr(""))
    ensures w.color == Some(v.color.GetOr("")) && w.fundacion == Some(v.fundacion.GetOr(""))
    ensures w.ciudad == Some(v.ciudad.GetOr("")) && w.estadio == Some(v.estadio.GetOr(""))
  {
    FormValues(Some(v.nombre.GetOr("")), Some(v.torneoId.GetOr("")), Some(v.color.GetOr("")),
               Some(v.fundacion.GetOr("")), Some(v.ciudad.GetOr("")), Some(v.estadio.GetOr("")))
  }

  /** A new form cannot be submitted untouched: name and tournament fail
      their minimum-length checks, and the default colour passes. */
  lemma NewFormDefaultsFail()
    ensures ParseForm(OnRegister(DefaultValues(None))).Failure?
    ensures ParseForm(OnRegister(DefaultValues(None))).error ==
      [Schema.Issue("nombre", "El nombre es requerido"), Schema.Issue("torneoId", "Debe seleccionar un torneo")]
  {
    assert Schema.StringIssues("nombre", Some(""), 1, "El nombre es requerido", Some(50), "Máximo 50 caracteres") ==
      [Schema.Issue("nombre", "El nombre es requerido")];
    assert Schema.StringIssues("torneoId", Some(""), 1, "Debe seleccionar un torneo", None, "") ==
      [Schema.Issue("torneoId", "Debe seleccionar un torneo")];
    assert Schema.StringIssues("color", Some("#000000"), 1, "El color es requerido", None, "") == [];
  }

  /** Registering changes nothing in an edit form, whose defaults give every field. */
  lemma EditFormRegistered(e: EquipoSlice.Equipo)
    ensures OnRegister(DefaultValues(Some(e))) == DefaultValues(Some(e))
  {
  }

  /** An edit form submitted untouched passes exactly when the stored team
      meets the schema, and then submits the team's own values. */
  lemma EditFormDefaults(e: EquipoSlice.Equipo)
    ensures ParseForm(DefaultValues(Some(e))).Success? <==>
      1 <= |e.body.nombre| <= 50 && |e.body.torneoId| >= 1 && |e.body.color| >= 1
    ensures ParseForm(DefaultValues(Some(e))).Success? ==>
      ParseForm(DefaultValues(Some(e))).value ==
        FormData(e.body.nombre, e.body.torneoId, e.body.color,
                 Some(e.body.fundacion.GetOr("")), Some(e.body.ciudad.GetOr("")), Some(e.body.estadio.GetOr("")))
  {
  }

  /** The crest URL the form starts with: the edited team's crest, or '' for a new team. */
  function InitialEscudoUrl(equipo: Option<EquipoSlice.Equipo>): (u: string)
    ensures equipo.None? ==> u == ""
    ensures equipo.Some? ==> u == equipo.value.body.escudo
  {
    if equipo.Some? then equipo.value.body.escudo else ""
  }

  /** The object sent to the API: the form data plus `escudo`. */
  datatype Payload = Payload(data: FormData, escudo: string)

  /** The payload: the form data with `escudo` set to the crest URL, or to the default crest when the URL is empty. */
  function BuildPayload(data: FormData, escudoUrl: string): (p: Payload)
    ensures p.data == data
    ensures p.escudo != ""
    ensures escudoUrl != "" ==> p.escudo == escudoUrl
    ensures escudoUrl == "" ==> p.escudo == DefaultCrest
  {
    Payload(data, if escudoUrl != "" then escudoUrl else DefaultCrest)
  }

  /** The thunk dispatched on submit. */
  datatype Request = CreateRequest(payload: Payload) | UpdateRequest(id: string, payload: Payload)

  /** `handleFormSubmit`: an existing team is updated under its own id, otherwise a team is created. */
  function SubmitRequest(equipo: Option<EquipoSlice.Equipo>, data: FormData, escudoUrl: string): (q: Request)
    ensures q.UpdateRequest? <==> equipo.Some?
    ensures q.UpdateRequest? ==> q.id == equipo.value.id
    ensures q.payload == BuildPayload(data, escudoUrl)
  {
    if equipo.Some? then UpdateRequest(equipo.value.id, BuildPayload(data, escudoUrl))
    else CreateRequest(BuildPayload(data, escudoUrl))
  }

  /** Editing a team without touching its crest re-sends its stored crest,
      or the default crest when it had none. */
  lemma EditKeepsCrest(e: EquipoSlice.Equipo, data: FormData)
    ensures var q := SubmitRequest(Some(e), data, InitialEscudoUrl(Some(e)));
      q == UpdateRequest(e.id, Payload(data, if e.body.escudo != "" then e.body.escudo else DefaultCrest))
  {
  }

  /** The component state the crest upload touches, plus the alerts shown and
      the files handed to the image host, recorded in order. */
  class FormState {
    var escudoUrl: string
    var isUploadingImage: bool
    var alerts: seq<string>
    var sentToHost: seq<MediaHost.ImageFile>

    /** The state when the form mounts. */
    constructor (equipo: Option<EquipoSlice.Equipo>)
      ensures escudoUrl == InitialEscudoUrl(equipo) && !isUploadingImage
      ensures alerts == [] && sentToHost == []
    {
      escudoUrl := InitialEscudoUrl(equipo);
      isUploadingImage := false;
      alerts := [];
      sentToHost := [];
    }

    /** `handleImageUpload` up to its `await`: the checks, then the uploading
        flag and the request. Returns whether an upload was started. */
    method StartImageUpload(file: Option<MediaHost.ImageFile>) returns (started: bool)
      modifies this`isUploadingImage, this`alerts, this`sentToHost
      ensures started <==> CheckImage(file).Accepted?
      ensures started ==> isUploadingImage && sentToHost == old(sentToHost) + [file.value] && alerts == old(alerts)
      ensures !started ==> isUploadingImage == old(isUploadingImage) && sentToHost == old(sentToHost)
      ensures !started ==> alerts == old(alerts) + (if file.Some? then [CheckAlert(CheckImage(file)).value] else [])
    {
      var c := CheckImage(file);
      if c.NoFile? {
        return false;
      }
      if !c.Accepted? {
        alerts := alerts + [CheckAlert(c).value];
        return false;
      }
      isUploadingImage := true;
      sentToHost := sentToHost + [c.file];
      return true;
    }

    /** `handleImageUpload` after its `await`: the new crest on success, an
        alert on failure, and in both cases (the `finally`) not uploading. */
    method FinishImageUpload(result: MediaHost.UploadResult)
      modifies this`escudoUrl, this`isUploadingImage, this`alerts
      ensures !isUploadingImage
      ensures result.Uploaded? ==> escudoUrl == result.secureUrl && alerts == old(alerts)
      ensures result.UploadFailed? ==> escudoUrl == old(escudoUrl) && alerts == old(alerts) + [UploadFailedAlert]
    {
      if result.Uploaded? {
        escudoUrl := result.secureUrl;
      } else {
        alerts := alerts + [UploadFailedAlert];
      }
      isUploadingImage := false;
    }
  }
}
