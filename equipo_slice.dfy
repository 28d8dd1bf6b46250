/** The `equipos` slice of the Redux store: all teams, the teams of one
    tournament, the selected team, and the reducers of the team thunks. */
module EquipoSlice {
  import opened Wrappers
  import Cache

  /** The fields of a team besides its id. */
  datatype EquipoFields = EquipoFields(
    nombre: string,
    escudo: string,
    torneoId: string,
    zonaId: Option<string>,
    color: string,
    fundacion: Option<string>,
    ciudad: Option<string>,
    estadio: Option<string>)

  type Equipo = Cache.Record<EquipoFields>

  /** The slice's async thunks. */
  datatype Thunk =
    | FetchEquipos
    | FetchEquipoById
    | FetchEquiposByTorneo
    | CreateEquipo
    | UpdateEquipo
    | DeleteEquipo

  /** Update and delete have only a `fulfilled` case. */
  predicate HasLoadingCases(t: Thunk) {
    !t.UpdateEquipo? && !t.DeleteEquipo?
  }

  predicate SelectedHasId(selected: Option<Equipo>, id: string) {
    selected.Some? && selected.value.id == id
  }

  class EquipoStore {
    var equipos: seq<Equipo>
    var selectedEquipo: Option<Equipo>
    var torneoEquipos: seq<Equipo>
    var isLoading: bool
    var error: Option<string>

    /** `initialState`. */
    constructor ()
      ensures equipos == [] && selectedEquipo == None && torneoEquipos == []
      ensures !isLoading && error == None
    {
      equipos, selectedEquipo, torneoEquipos := [], None, [];
      isLoading, error := false, None;
    }

    /** Reducer `clearError`. */
    method ClearError()
      modifies this`error
      ensures error == None
    {
      error := None;
    }

    /** Reducer `clearSelectedEquipo`. */
    method ClearSelectedEquipo()
      modifies this`selectedEquipo
      ensures selectedEquipo == None
    {
      selectedEquipo := None;
    }

    /** Reducer `clearTorneoEquipos`: empties the tournament's team list only. */
    method ClearTorneoEquipos()
      modifies this`torneoEquipos
      ensures torneoEquipos == []
    {
      torneoEquipos := [];
    }

    /** A thunk's `pending` action. */
    method Pending(t: Thunk)
      modifies this`isLoading, this`error
      ensures HasLoadingCases(t) ==> isLoading && error == None
      ensures !HasLoadingCases(t) ==> isLoading == old(isLoading) && error == old(error)
    {
      if HasLoadingCases(t) {
        isLoading := true;
        error := None;
      }
    }

    /** A thunk's `rejected` action, carrying the message given to `rejectWithValue`. */
    method Rejected(t: Thunk, message: string)
      modifies this`isLoading, this`error
      ensures HasLoadingCases(t) ==> !isLoading && error == Some(message)
      ensures !HasLoadingCases(t) ==> isLoading == old(isLoading) && error == old(error)
    {
      if HasLoadingCases(t) {
        isLoading := false;
        error := Some(message);
      }
    }

    /** `fetchEquipos.fulfilled`. */
    method FetchEquiposFulfilled(payload: seq<Equipo>)
      modifies this`isLoading, this`equipos
      ensures !isLoading && equipos == payload
    {
      isLoading := false;
      equipos := payload;
    }

    /** `fetchEquipoById.fulfilled`. */
    method FetchEquipoByIdFulfilled(payload: Equipo)
      modifies this`isLoading, this`selectedEquipo
      ensures !isLoading && selectedEquipo == Some(payload)
    {
      isLoading := false;
      selectedEquipo := Some(payload);
    }

    /** `fetchEquiposByTorneo.fulfilled`: the payload itself (no `.data` unwrapping)
        becomes `torneoEquipos`; `equipos` is kept. */
    method FetchEquiposByTorneoFulfilled(payload: seq<Equipo>)
      modifies this`isLoading, this`torneoEquipos
      ensures !isLoading && torneoEquipos == payload
    {
      isLoading := false;
      torneoEquipos := payload;
    }

    /** `createEquipo.fulfilled`: pushed onto `equipos` only. */
    method CreateEquipoFulfilled(payload: Equipo)
      modifies this`isLoading, this`equipos
      ensures !isLoading && equipos == old(equipos) + [payload]
    {
      isLoading := false;
      equipos := equipos + [payload];
    }

    /** `updateEquipo.fulfilled`: first id match in `equipos` replaced, selection synced;
        `torneoEquipos` keeps the stale copy. */
    method UpdateEquipoFulfilled(payload: Equipo)
      modifies this`equipos, this`selectedEquipo
      ensures equipos == Cache.ReplaceFirstById(old(equipos), payload)
      ensures selectedEquipo == if SelectedHasId(old(selectedEquipo), payload.id) then Some(payload) else old(selectedEquipo)
    {
      var index := Cache.FindIndexById(equipos, payload.id);
      if index != -1 {
        equipos := equipos[index := payload];
      }
      if SelectedHasId(selectedEquipo, payload.id) {
        selectedEquipo := Some(payload);
      }
    }

    /** `deleteEquipo.fulfilled`: the id leaves both lists and the selection. */
    method DeleteEquipoFulfilled(id: string)
      modifies this`equipos, this`torneoEquipos, this`selectedEquipo
      ensures equipos == Cache.RemoveById(old(equipos), id)
      ensures torneoEquipos == Cache.RemoveById(old(torneoEquipos), id)
      ensures forall i :: 0 <= i < |equipos| ==> equipos[i].id != id
      ensures forall i :: 0 <= i < |torneoEquipos| ==> torneoEquipos[i].id != id
      ensures selectedEquipo == if SelectedHasId(old(selectedEquipo), id) then None else old(selectedEquipo)
    {
      equipos := Cache.RemoveById(equipos, id);
      torneoEquipos := Cache.RemoveById(torneoEquipos, id);
      if SelectedHasId(selectedEquipo, id) {
        selectedEquipo := None;
      }
    }
  }
}
