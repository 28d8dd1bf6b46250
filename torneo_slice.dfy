/** The `torneos` slice of the Redux store: the tournaments and the selected
    one. A tournament is reduced to its id plus an opaque body. */
module TorneoSlice {
  import opened Wrappers
  import Cache

  type Torneo = Cache.Record<string>

  /** The slice's async thunks. */
  datatype Thunk =
    | FetchTorneos
    | FetchTorneoById
    | CreateTorneo
    | UpdateTorneo
    | DeleteTorneo

  /** Update and delete have only a `fulfilled` case. */
  predicate HasLoadingCases(t: Thunk) {
    !t.UpdateTorneo? && !t.DeleteTorneo?
  }

  predicate SelectedHasId(selected: Option<Torneo>, id: string) {
    selected.Some? && selected.value.id == id
  }

  class TorneoStore {
    var torneos: seq<Torneo>
    var selectedTorneo: Option<Torneo>
    var isLoading: bool
    var error: Option<string>

    /** `initialState`. */
    constructor ()
      ensures torneos == [] && selectedTorneo == None && !isLoading && error == None
    {
      torneos, selectedTorneo, isLoading, error := [], None, false, None;
    }

    /** Reducer `clearError`. */
    method ClearError()
      modifies this`error
      ensures error == None
    {
      error := None;
    }

    /** Reducer `clearSelectedTorneo`. */
    method ClearSelectedTorneo()
      modifies this`selectedTorneo
      ensures selectedTorneo == None
    {
      selectedTorneo := None;
    }

    /** A thunk's `pending` action. */
    method Pending(t: Thunk)
      modifies this`isLoading, this`error
      ensures HasLoadingCases(t) ==> isLoading && error == None
      ensures !HasLoadingCases(t) ==> isLoading == old(isLoading) && error == old(error)
    {
      if HasLoadingCases(t) {
        isLoading := true;
        error := None;
      }
    }

    /** A thunk's `rejected` action; `torneos` is never touched. */
    method Rejected(t: Thunk, message: string)
      modifies this`isLoading, this`error
      ensures HasLoadingCases(t) ==> !isLoading && error == Some(message)
      ensures !HasLoadingCases(t) ==> isLoading == old(isLoading) && error == old(error)
    {
      if HasLoadingCases(t) {
        isLoading := false;
        error := Some(message);
      }
    }

    /** `fetchTorneos.fulfilled`. */
    method FetchTorneosFulfilled(payload: seq<Torneo>)
      modifies this`isLoading, this`torneos
      ensures !isLoading && torneos == payload
    {
      isLoading := false;
      torneos := payload;
    }

    /** `fetchTorneoById.fulfilled`. */
    method FetchTorneoByIdFulfilled(payload: Torneo)
      modifies this`isLoading, this`selectedTorneo
      ensures !isLoading && selectedTorneo == Some(payload)
    {
      isLoading := false;
      selectedTorneo := Some(payload);
    }

    /** `createTorneo.fulfilled`: pushed at the end. */
    method CreateTorneoFulfilled(payload: Torneo)
      modifies this`isLoading, this`torneos
      ensures !isLoading && torneos == old(torneos) + [payload]
    {
      isLoading := false;
      torneos := torneos + [payload];
    }

    /** `updateTorneo.fulfilled`: overwrites the first id match in place; every
        other index keeps its tournament. */
    method UpdateTorneoFulfilled(payload: Torneo)
      modifies this`torneos, this`selectedTorneo
      ensures torneos == Cache.ReplaceFirstById(old(torneos), payload)
      ensures |torneos| == |old(torneos)|
      ensures forall i :: 0 <= i < |torneos| && !Cache.IsFirstWithId(old(torneos), payload.id, i) ==> torneos[i] == old(torneos)[i]
      ensures selectedTorneo == if SelectedHasId(old(selectedTorneo), payload.id) then Some(payload) else old(selectedTorneo)
    {
      var index := Cache.FindIndexById(torneos, payload.id);
      if index != -1 {
        torneos := torneos[index := payload];
      }
      forall i | 0 <= i < |torneos| {
        Cache.ReplaceFirstByIdAt(old(torneos), payload, i);
      }
      if SelectedHasId(selectedTorneo, payload.id) {
        selectedTorneo := Some(payload);
      }
    }

    /** `deleteTorneo.fulfilled`: every tournament with the id goes, and the
        selection is cleared exactly when it has that id. */
    method DeleteTorneoFulfilled(id: string)
      modifies this`torneos, this`selectedTorneo
      ensures torneos == Cache.RemoveById(old(torneos), id)
      ensures forall i :: 0 <= i < |torneos| ==> torneos[i].id != id
      ensures selectedTorneo == if SelectedHasId(old(selectedTorneo), id) then None else old(selectedTorneo)
    {
      torneos := Cache.RemoveById(torneos, id);
      if SelectedHasId(selectedTorneo, id) {
        selectedTorneo := None;
      }
    }
  }
}
