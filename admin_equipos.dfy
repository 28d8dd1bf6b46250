/** The computations of the admin team list: the name search, the tournament
    filter, the summary totals, and the labels of each team card. */
module AdminEquipos {
  import opened Wrappers
  import Seqs
  import Text

  /** `equipo.torneoId`: a populated tournament object, a bare id, or missing. */
  datatype TorneoRef =
    | TorneoObject(oid: string, nombre: string)
    | TorneoIdString(value: string)
    | TorneoMissing

  /** The fields of a team that the page reads. */
  datatype EquipoView = EquipoView(
    nombre: Option<string>,
    torneoId: TorneoRef,
    jugadores: Option<seq<string>>,
    golesAFavor: Option<int>,
    diferenciaGoles: Option<int>)

  predicate MatchesSearch(e: EquipoView, searchTerm: string) {
    Text.Contains(Text.Lower(e.nombre.GetOr("")), Text.Lower(searchTerm))
  }

  /** The tournament filter compares `_id` of a populated tournament and the
      string itself otherwise; a missing tournament never equals a selection. */
  predicate MatchesTorneo(e: EquipoView, filterTorneo: string) {
    filterTorneo == "todos" ||
    match e.torneoId
    case TorneoObject(oid, _) => oid == filterTorneo
    case TorneoIdString(v) => v == filterTorneo
    case TorneoMissing => false
  }

  /** `filteredEquipos`. */
  function FilteredEquipos(equipos: seq<EquipoView>, searchTerm: string, filterTorneo: string): (r: seq<EquipoView>)
    ensures |r| <= |equipos|
    ensures forall i :: 0 <= i < |r| ==>
      r[i] in equipos && MatchesSearch(r[i], searchTerm) && MatchesTorneo(r[i], filterTorneo)
    ensures forall i :: 0 <= i < |equipos| && MatchesSearch(equipos[i], searchTerm) && MatchesTorneo(equipos[i], filterTorneo) ==>
      equipos[i] in r
  {
    Seqs.Filter(equipos, (e: EquipoView) => MatchesSearch(e, searchTerm) && MatchesTorneo(e, filterTorneo))
  }

  /** The filtered list keeps the server's order. */
  lemma FilteredEquiposKeepOrder(equipos: seq<EquipoView>, searchTerm: string, filterTorneo: string)
    ensures Seqs.SubseqOf(FilteredEquipos(equipos, searchTerm, filterTorneo), equipos)
  {
    Seqs.FilterIsSubseq(equipos, (e: EquipoView) => MatchesSearch(e, searchTerm) && MatchesTorneo(e, filterTorneo));
  }

  /** Selecting a tournament hides every team whose tournament is missing. */
  lemma MissingTorneoHiddenBySelection(equipos: seq<EquipoView>, searchTerm: string, filterTorneo: string)
    requires filterTorneo != "todos"
    ensures forall i :: 0 <= i < |FilteredEquipos(equipos, searchTerm, filterTorneo)| ==>
      !FilteredEquipos(equipos, searchTerm, filterTorneo)[i].torneoId.TorneoMissing?
  {
  }

  /** A team's player count: the length of its player list, 0 when the list is missing. */
  function JugadoresCount(e: EquipoView): int {
    if e.jugadores.Some? then |e.jugadores.value| else 0
  }

  /** A team's goals scored, 0 when missing. */
  function GolesAFavor(e: EquipoView): int {
    e.golesAFavor.GetOr(0)
  }

  /** The 'Total Jugadores' card: the players of every team added up. */
  function TotalJugadores(equipos: seq<EquipoView>): (n: int)
    ensures n >= 0
    ensures equipos == [] ==> n == 0
  {
    Seqs.SumByNonNegative(equipos, JugadoresCount);
    Seqs.SumBy(equipos, JugadoresCount)
  }

  /** The 'Total Goles' card: the goals scored by every team added up. */
  function TotalGoles(equipos: seq<EquipoView>): (n: int)
    ensures equipos == [] ==> n == 0
    ensures (forall i :: 0 <= i < |equipos| ==> GolesAFavor(equipos[i]) >= 0) ==> n >= 0
  {
    if forall i :: 0 <= i < |equipos| ==> GolesAFavor(equipos[i]) >= 0 then
      Seqs.SumByNonNegative(equipos, GolesAFavor);
      Seqs.SumBy(equipos, GolesAFavor)
    else
      Seqs.SumBy(equipos, GolesAFavor)
  }

  /** The totals of a list made of two parts are the sums of the parts' totals. */
  lemma TotalsAppend(a: seq<EquipoView>, b: seq<EquipoView>)
    ensures TotalJugadores(a + b) == TotalJugadores(a) + TotalJugadores(b)
    ensures TotalGoles(a + b) == TotalGoles(a) + TotalGoles(b)
  {
    Seqs.SumByAppend(a, b, JugadoresCount);
    Seqs.SumByAppend(a, b, GolesAFavor);
  }

  /** A single team contributes the length of its player list, 0 when the list
      is missing, and its goals scored, 0 when missing; with the empty case and
      `TotalsAppend`, this fixes both totals on every list. */
  lemma TotalsSingleton(e: EquipoView)
    ensures TotalJugadores([e]) == if e.jugadores.Some? then |e.jugadores.value| else 0
    ensures TotalGoles([e]) == e.golesAFavor.GetOr(0)
  {
    assert [e][..0] == [];
    assert Seqs.SumBy([e], JugadoresCount) == Seqs.SumBy([], JugadoresCount) + JugadoresCount(e);
    assert Seqs.SumBy([e], GolesAFavor) == Seqs.SumBy([], GolesAFavor) + GolesAFavor(e);
  }

  /** Every team's player count is part of the total. */
  lemma TeamWithinTotalJugadores(equipos: seq<EquipoView>, i: int)
    requires 0 <= i < |equipos|
    ensures JugadoresCount(equipos[i]) <= TotalJugadores(equipos)
  {
    Seqs.SumByAtLeastEach(equipos, JugadoresCount, i);
  }

  /** The avatar: the first two characters of the name (or 'E'), upper-cased. */
  function Initials(nombre: Option<string>): (r: string)
    ensures 1 <= |r| <= 2
    ensures !Text.Truthy(nombre) ==> r == "E"
    ensures Text.Truthy(nombre) ==>
      |r| == (if |nombre.value| < 2 then |nombre.value| else 2) &&
      forall i :: 0 <= i < |r| ==> r[i] == Text.UpperChar(nombre.value[i])
  {
    var s := if Text.Truthy(nombre) then nombre.value else "E";
    Text.Upper(if |s| < 2 then s else s[..2])
  }

  /** The card title: the team's name, or 'Sin nombre' when it is missing or empty. */
  function NombreLabel(nombre: Option<string>): (r: string)
    ensures r != ""
    ensures Text.Truthy(nombre) <==> r == nombre.GetOr("")
    ensures !Text.Truthy(nombre) ==> r == "Sin nombre"
  {
    if Text.Truthy(nombre) then nombre.value else "Sin nombre"
  }

  /** The tournament line: the populated tournament's name, else 'Torneo no especificado'. */
  function TorneoLabel(t: TorneoRef): (r: string)
    ensures t.TorneoObject? ==> r == t.nombre
    ensures !t.TorneoObject? ==> r == "Torneo no especificado"
  {
    if t.TorneoObject? then t.nombre else "Torneo no especificado"
  }

  /** The goal-difference badge: a '+' before a positive difference, then the
      difference (0 when missing) as interpolated into the text. */
  function DiferenciaLabel(d: Option<int>): (r: string)
    ensures |r| >= 1
    ensures r[0] == '+' <==> d.Some? && d.value > 0
    ensures r[0] == '-' <==> d.Some? && d.value < 0
    ensures d.None? ==> r == "0"
  {
    var v := d.GetOr(0);
    (if v > 0 then "+" else "") + Text.IntToDecimal(v)
  }

  /** The digits after the sign, as the reader reads them. */
  function LabelDigits(r: string): string {
    if r != [] && (r[0] == '+' || r[0] == '-') then r[1..] else r
  }

  /** The sign-free digits of the badge are the decimal digits of the difference's magnitude. */
  lemma LabelDigitsOfDiferencia(d: Option<int>)
    ensures LabelDigits(DiferenciaLabel(d)) == Text.NatToDecimal(if d.GetOr(0) < 0 then -d.GetOr(0) else d.GetOr(0))
  {
    var v := d.GetOr(0);
    var shown := DiferenciaLabel(d);
    if v > 0 {
      assert shown == "+" + Text.NatToDecimal(v);
      assert shown[1..] == Text.NatToDecimal(v);
    } else if v < 0 {
      assert shown == Text.IntToDecimal(v);
    } else {
      assert shown == Text.NatToDecimal(0);
    }
  }

  /** The badge loses nothing: its digits read back as the magnitude of the
      difference, and its sign character gives the sign. */
  lemma DiferenciaLabelReadsBack(d: Option<int>)
    ensures var r := LabelDigits(DiferenciaLabel(d));
      (forall i :: 0 <= i < |r| ==> Text.IsDigit(r[i])) &&
      Text.DecimalValue(r) == if d.GetOr(0) < 0 then -d.GetOr(0) else d.GetOr(0)
  {
    var magnitude: nat := if d.GetOr(0) < 0 then -d.GetOr(0) else d.GetOr(0);
    LabelDigitsOfDiferencia(d);
    Text.DecimalRoundTrip(magnitude);
  }

  /** The heading shown when no team passes the filters. */
  function EmptyStateTitle(searchTerm: string, filterTorneo: string): (r: string)
    ensures r == "No se encontraron equipos" <==> searchTerm != "" || filterTorneo != "todos"
    ensures r == "No hay equipos registrados" <==> searchTerm == "" && filterTorneo == "todos"
  {
    if searchTerm != "" || filterTorneo != "todos" then "No se encontraron equipos" else "No hay equipos registrados"
  }
}
