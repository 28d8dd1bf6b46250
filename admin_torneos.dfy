/** The computations of the admin tournament list: search and status
    filtering, the per-status counters, and the labels of each card. */
module AdminTorneos {
  import opened Wrappers
  import Seqs
  import Text

  datatype Creador = Creador(nombreCompleto: Option<string>, nombre: Option<string>)

  /** The fields of a tournament that the page reads; each may be missing. */
  datatype TorneoView = TorneoView(
    nombre: Option<string>,
    descripcion: Option<string>,
    estado: Option<string>,
    creadoPor: Option<Creador>)

  /** The field, lower-cased and read as '' when missing, contains the lower-cased search term. */
  predicate FieldMatches(field: Option<string>, searchTerm: string) {
    Text.Contains(Text.Lower(field.GetOr("")), Text.Lower(searchTerm))
  }

  predicate MatchesSearch(t: TorneoView, searchTerm: string) {
    FieldMatches(t.nombre, searchTerm) || FieldMatches(t.descripcion, searchTerm)
  }

  predicate MatchesFilter(t: TorneoView, filterEstado: string) {
    filterEstado == "todos" || t.estado == Some(filterEstado)
  }

  /** `filteredTorneos`: the tournaments whose name or description contains the
      search term (ASCII case-insensitively) and whose status passes the filter. */
  function FilteredTorneos(torneos: seq<TorneoView>, searchTerm: string, filterEstado: string): (r: seq<TorneoView>)
    ensures |r| <= |torneos|
    ensures forall i :: 0 <= i < |r| ==>
      r[i] in torneos && MatchesSearch(r[i], searchTerm) && MatchesFilter(r[i], filterEstado)
    ensures forall i :: 0 <= i < |torneos| && MatchesSearch(torneos[i], searchTerm) && MatchesFilter(torneos[i], filterEstado) ==>
      torneos[i] in r
  {
    Seqs.Filter(torneos, (t: TorneoView) => MatchesSearch(t, searchTerm) && MatchesFilter(t, filterEstado))
  }

  /** The filtered list keeps the server's order. */
  lemma FilteredTorneosKeepOrder(torneos: seq<TorneoView>, searchTerm: string, filterEstado: string)
    ensures Seqs.SubseqOf(FilteredTorneos(torneos, searchTerm, filterEstado), torneos)
  {
    Seqs.FilterIsSubseq(torneos, (t: TorneoView) => MatchesSearch(t, searchTerm) && MatchesFilter(t, filterEstado));
  }

  /** An empty search with the 'todos' filter shows every tournament. */
  lemma UnfilteredShowsAll(torneos: seq<TorneoView>)
    ensures FilteredTorneos(torneos, "", "todos") == torneos
  {
    assert Text.Lower("") == "";
    Seqs.FilterKeepsAll(torneos, (t: TorneoView) => MatchesSearch(t, "") && MatchesFilter(t, "todos"));
  }

  /** The test of the counter cards: the tournament's status is exactly `estado`. */
  function HasEstado(estado: string): TorneoView -> bool {
    (t: TorneoView) => t.estado == Some(estado)
  }

  /** A counter card: how many tournaments have status `estado`. */
  function CountEstado(torneos: seq<TorneoView>, estado: string): (n: nat)
    ensures n <= |torneos|
    ensures n == 0 <==> forall i :: 0 <= i < |torneos| ==> torneos[i].estado != Some(estado)
  {
    var r := Seqs.Filter(torneos, HasEstado(estado));
    assert r != [] ==> r[0] in torneos && r[0].estado == Some(estado);
    |r|
  }

  /** A single tournament counts 1 exactly when it has the status. */
  lemma CountEstadoSingleton(t: TorneoView, estado: string)
    ensures CountEstado([t], estado) == if t.estado == Some(estado) then 1 else 0
  {
    assert [t][1..] == [];
  }

  /** The count of a list made of two parts is the sum of the parts' counts;
      with the empty and singleton cases, this fixes the count on every list. */
  lemma CountEstadoAppend(a: seq<TorneoView>, b: seq<TorneoView>, estado: string)
    ensures CountEstado(a + b, estado) == CountEstado(a, estado) + CountEstado(b, estado)
  {
    Seqs.FilterLengthAppend(a, b, HasEstado(estado));
  }

  /** The three status cards never count more tournaments than the total card. */
  lemma StatusCountsBounded(torneos: seq<TorneoView>)
    ensures CountEstado(torneos, "activo") + CountEstado(torneos, "pendiente") + CountEstado(torneos, "finalizado") <= |torneos|
  {
    Seqs.DisjointFiltersBounded(torneos, HasEstado("activo"), HasEstado("pendiente"), HasEstado("finalizado"));
  }

  /** The status badge: the status with its first character upper-cased, or
      'Sin estado' when the status is missing or empty. */
  function StatusLabel(estado: Option<string>): (r: string)
    ensures !Text.Truthy(estado) ==> r == "Sin estado"
    ensures Text.Truthy(estado) ==>
      |r| == |estado.value| && r[0] == Text.UpperChar(estado.value[0]) && r[1..] == estado.value[1..]
  {
    if Text.Truthy(estado) then [Text.UpperChar(estado.value[0])] + estado.value[1..] else "Sin estado"
  }

  /** 'Creado por': the full name, else the name, else 'Usuario desconocido'; empty strings are skipped. */
  function CreatorLabel(creadoPor: Option<Creador>): (r: string)
    ensures r != ""
    ensures creadoPor.Some? && Text.Truthy(creadoPor.value.nombreCompleto) ==> r == creadoPor.value.nombreCompleto.value
    ensures creadoPor.Some? && !Text.Truthy(creadoPor.value.nombreCompleto) && Text.Truthy(creadoPor.value.nombre) ==>
      r == creadoPor.value.nombre.value
    ensures creadoPor.None? || (!Text.Truthy(creadoPor.value.nombreCompleto) && !Text.Truthy(creadoPor.value.nombre)) ==>
      r == "Usuario desconocido"
  {
    match creadoPor
    case None => "Usuario desconocido"
    case Some(c) =>
      if Text.Truthy(c.nombreCompleto) then c.nombreCompleto.value
      else if Text.Truthy(c.nombre) then c.nombre.value
      else "Usuario desconocido"
  }

  /** The heading shown when no tournament passes the filters. */
  function EmptyStateTitle(searchTerm: string, filterEstado: string): (r: string)
    ensures r == "No se encontraron torneos" <==> searchTerm != "" || filterEstado != "todos"
    ensures r == "No hay torneos creados" <==> searchTerm == "" && filterEstado == "todos"
  {
    if searchTerm != "" || filterEstado != "todos" then "No se encontraron torneos" else "No hay torneos creados"
  }
}
