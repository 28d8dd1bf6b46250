/** The admin page that creates a team: its schema, its default values, the
    image picker, and the submit flow (user check, crest upload, create). */
module CrearEquipo {
  import opened Wrappers
  import Schema
  import MediaHost
  import AuthSlice

  const AuthAlert: string := "Debe estar autenticado para crear un equipo"
  const CreateFailedAlert: string := "Error al crear el equipo"

  /** What react-hook-form hands to the resolver. */
  datatype FormValues = FormValues(
    nombre: Option<string>,
    ciudad: Option<string>,
    color: Option<string>,
    torneoId: Option<string>,
    escudoUrl: Option<string>)

  /** `EquipoFormData` of this page, which is also what `createEquipo` receives. */
  datatype CreateData = CreateData(
    nombre: string,
    ciudad: string,
    color: string,
    torneoId: string,
    escudoUrl: Option<string>)

  /** `equipoSchema.safeParse`: four required non-empty strings and an optional crest URL. */
  function ParseForm(v: FormValues): (r: Result<CreateData, seq<Schema.Issue>>)
    ensures r.Success? <==>
      v.nombre.Some? && |v.nombre.value| >= 1 && v.ciudad.Some? && |v.ciudad.value| >= 1 &&
      v.color.Some? && |v.color.value| >= 1 && v.torneoId.Some? && |v.torneoId.value| >= 1
    ensures r.Success? ==>
      r.value == CreateData(v.nombre.value, v.ciudad.value, v.color.value, v.torneoId.value, v.escudoUrl)
    ensures r.Failure? ==> r.error != []
    ensures r.Failure? ==>
      forall i :: 0 <= i < |r.error| ==> r.error[i].path in {"nombre", "ciudad", "color", "torneoId"}
  {
    var issues :=
      Schema.StringIssues("nombre", v.nombre, 1, "El nombre del equipo es requerido", None, "") +
      Schema.StringIssues("ciudad", v.ciudad, 1, "La ciudad es requerida", None, "") +
      Schema.StringIssues("color", v.color, 1, "El color es requerido", None, "") +
      Schema.StringIssues("torneoId", v.torneoId, 1, "Debe seleccionar un torneo", None, "");
    if issues == [] then
      Success(CreateData(v.nombre.value, v.ciudad.value, v.color.value, v.torneoId.value, v.escudoUrl))
    else
      Failure(issues)
  }

  /** `defaultValues`: every field, including the crest URL, starts as ''. */
  function DefaultValues(): (v: FormValues)
    ensures v.nombre == Some("") && v.ciudad == Some("") && v.color == Some("") && v.torneoId == Some("")
    ensures v.escudoUrl == Some("")
  {
    FormValues(Some(""), Some(""), Some(""), Some(""), Some(""))
  }

  /** An untouched form fails with one message per required field, in declaration order. */
  lemma DefaultsFail()
    ensures ParseForm(DefaultValues()) == Failure([
      Schema.Issue("nombre", "El nombre del equipo es requerido"),
      Schema.Issue("ciudad", "La ciudad es requerida"),
      Schema.Issue("color", "El color es requerido"),
      Schema.Issue("torneoId", "Debe seleccionar un torneo")])
  {
    assert Schema.StringIssues("nombre", Some(""), 1, "El nombre del equipo es requerido", None, "") ==
      [Schema.Issue("nombre", "El nombre del equipo es requerido")];
    assert Schema.StringIssues("ciudad", Some(""), 1, "La ciudad es requerida", None, "") ==
      [Schema.Issue("ciudad", "La ciudad es requerida")];
    assert Schema.StringIssues("color", Some(""), 1, "El color es requerido", None, "") ==
      [Schema.Issue("color", "El color es requerido")];
    assert Schema.StringIssues("torneoId", Some(""), 1, "Debe seleccionar un torneo", None, "") ==
      [Schema.Issue("torneoId", "Debe seleccionar un torneo")];
    assert [Schema.Issue("nombre", "El nombre del equipo es requerido")] +
      [Schema.Issue("ciudad", "La ciudad es requerida")] +
      [Schema.Issue("color", "El color es requerido")] +
      [Schema.Issue("torneoId", "Debe seleccionar un torneo")] == [
      Schema.Issue("nombre", "El nombre del equipo es requerido"),
      Schema.Issue("ciudad", "La ciudad es requerida"),
      Schema.Issue("color", "El color es requerido"),
      Schema.Issue("torneoId", "Debe seleccionar un torneo")];
  }

  /** `data` with `escudoUrl` overwritten by the uploaded image's URL. */
  function WithCrest(data: CreateData, url: string): (d: CreateData)
    ensures d.escudoUrl == Some(url)
    ensures d.nombre == data.nombre && d.ciudad == data.ciudad && d.color == data.color && d.torneoId == data.torneoId
  {
    data.(escudoUrl := Some(url))
  }

  /** The page's state, together with what it has shown and sent so far. */
  class Page {
    var imageFile: Option<MediaHost.ImageFile>
    var isUploading: bool
    var alerts: seq<string>
    var sentToHost: seq<MediaHost.ImageFile>
    /** The arguments of every `createEquipo` dispatched. */
    var dispatched: seq<CreateData>
    /** Whether the page has navigated to the team list '/admin/equipos'. */
    var navigatedToList: bool

    constructor ()
      ensures imageFile == None && !isUploading
      ensures alerts == [] && sentToHost == [] && dispatched == [] && !navigatedToList
    {
      imageFile, isUploading := None, false;
      alerts, sentToHost, dispatched, navigatedToList := [], [], [], false;
    }

    /** `handleImageChange`: a chosen file replaces the previous one; an emptied picker keeps it. */
    method HandleImageChange(file: Option<MediaHost.ImageFile>)
      modifies this`imageFile
      ensures imageFile == if file.Some? then file else old(imageFile)
    {
      if file.Some? {
        imageFile := file;
      }
    }

    /** `onSubmit(data)`. `upload` is the image host's answer, used only when a
        file is chosen; `created` is whether `createEquipo` fulfils. */
    method OnSubmit(data: CreateData, user: Option<AuthSlice.User>, upload: MediaHost.UploadResult, created: bool)
      modifies this`isUploading, this`alerts, this`sentToHost, this`dispatched, this`navigatedToList
      ensures user.None? ==> alerts == old(alerts) + [AuthAlert]
      ensures user.None? ==>
        isUploading == old(isUploading) && sentToHost == old(sentToHost) &&
        dispatched == old(dispatched) && navigatedToList == old(navigatedToList)
      ensures user.Some? ==> !isUploading
      ensures user.Some? ==> sentToHost == old(sentToHost) + (if imageFile.Some? then [imageFile.value] else [])
      ensures user.Some? && imageFile.Some? && upload.UploadFailed? ==>
        dispatched == old(dispatched) && alerts == old(alerts) + [CreateFailedAlert] &&
        navigatedToList == old(navigatedToList)
      ensures user.Some? && (imageFile.None? || upload.Uploaded?) ==>
        dispatched == old(dispatched) + [if imageFile.Some? then WithCrest(data, upload.secureUrl) else data]
      ensures user.Some? && (imageFile.None? || upload.Uploaded?) ==>
        (created ==> navigatedToList && alerts == old(alerts)) &&
        (!created ==> navigatedToList == old(navigatedToList) && alerts == old(alerts) + [CreateFailedAlert])
    {
      if user.None? {
        alerts := alerts + [AuthAlert];
        return;
      }
      isUploading := true;
      var payload := data;
      var failed := false;
      if imageFile.Some? {
        sentToHost := sentToHost + [imageFile.value];
        if upload.Uploaded? {
          payload := WithCrest(payload, upload.secureUrl);
        } else {
          failed := true;
        }
      }
      if !failed {
        dispatched := dispatched + [payload];
        if created {
          navigatedToList := true;
        } else {
          failed := true;
        }
      }
      if failed {
        alerts := alerts + [CreateFailedAlert];
      }
      isUploading := false;
    }
  }
}
