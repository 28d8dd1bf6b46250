/** The `partidos` slice of the Redux store: the cached match lists and the
    reducers that the match thunks' lifecycle actions run on them. A match
    is reduced to its id plus an opaque body. */
module PartidoSlice {
  import opened Wrappers
  import Cache

  type Partido = Cache.Record<string>

  /** The envelope answered by the matches-by-tournament endpoint; its `data` may be absent. */
  datatype ByTorneoResponse = ByTorneoResponse(data: Option<seq<Partido>>)

  /** The slice's async thunks. */
  datatype Thunk =
    | FetchPartidos
    | FetchPartidosOrdenados
    | FetchPartidoById
    | FetchPartidosByTorneo
    | CreatePartido
    | UpdatePartido
    | DeletePartido

  /** The thunks for which the slice registers a `pending` and a `rejected`
      case; update and delete only have a `fulfilled` case. */
  predicate HasLoadingCases(t: Thunk) {
    !t.UpdatePartido? && !t.DeletePartido?
  }

  /** A selected match is present and has the given id. */
  predicate SelectedHasId(selected: Option<Partido>, id: string) {
    selected.Some? && selected.value.id == id
  }

  class PartidoStore {
    var partidos: seq<Partido>
    /** Arrives already ordered from the server; no ordering happens here. */
    var partidosOrdenados: seq<Partido>
    var partidosByTorneo: seq<Partido>
    var selectedPartido: Option<Partido>
    var isLoading: bool
    var error: Option<string>

    /** `initialState`. */
    constructor ()
      ensures partidos == [] && partidosOrdenados == [] && partidosByTorneo == []
      ensures selectedPartido == None && !isLoading && error == None
    {
      partidos, partidosOrdenados, partidosByTorneo := [], [], [];
      selectedPartido, isLoading, error := None, false, None;
    }

    /** Reducer `clearError`. */
    method ClearError()
      modifies this`error
      ensures error == None
    {
      error := None;
    }

    /** Reducer `clearSelectedPartido`. */
    method ClearSelectedPartido()
      modifies this`selectedPartido
      ensures selectedPartido == None
    {
      selectedPartido := None;
    }

    /** A thunk's `pending` action: start loading and forget the last error.
        Actions without a case leave the state as it is. */
    method Pending(t: Thunk)
      modifies this`isLoading, this`error
      ensures HasLoadingCases(t) ==> isLoading && error == None
      ensures !HasLoadingCases(t) ==> isLoading == old(isLoading) && error == old(error)
    {
      if HasLoadingCases(t) {
        isLoading := true;
        error := None;
      }
    }

    /** A thunk's `rejected` action, carrying the message given to `rejectWithValue`. */
    method Rejected(t: Thunk, message: string)
      modifies this`isLoading, this`error
      ensures HasLoadingCases(t) ==> !isLoading && error == Some(message)
      ensures !HasLoadingCases(t) ==> isLoading == old(isLoading) && error == old(error)
    {
      if HasLoadingCases(t) {
        isLoading := false;
        error := Some(message);
      }
    }

    /** `fetchPartidos.fulfilled`: the payload replaces `partidos`. */
    method FetchPartidosFulfilled(payload: seq<Partido>)
      modifies this`isLoading, this`partidos
      ensures !isLoading && partidos == payload
    {
      isLoading := false;
      partidos := payload;
    }

    /** `fetchPartidosOrdenados.fulfilled`: the payload replaces `partidosOrdenados` as received. */
    method FetchPartidosOrdenadosFulfilled(payload: seq<Partido>)
      modifies this`isLoading, this`partidosOrdenados
      ensures !isLoading && partidosOrdenados == payload
    {
      isLoading := false;
      partidosOrdenados := payload;
    }

    /** `fetchPartidoById.fulfilled`: the payload becomes the selected match. */
    method FetchPartidoByIdFulfilled(payload: Partido)
      modifies this`isLoading, this`selectedPartido
      ensures !isLoading && selectedPartido == Some(payload)
    {
      isLoading := false;
      selectedPartido := Some(payload);
    }

    /** `fetchPartidosByTorneo.fulfilled`: stores `payload.data`, or `[]` when it is absent. */
    method FetchPartidosByTorneoFulfilled(payload: ByTorneoResponse)
      modifies this`isLoading, this`partidosByTorneo
      ensures !isLoading
      ensures payload.data.Some? ==> partidosByTorneo == payload.data.value
      ensures payload.data.None? ==> partidosByTorneo == []
    {
      isLoading := false;
      partidosByTorneo := payload.data.GetOr([]);
    }

    /** `createPartido.fulfilled`: the created match is pushed at the end. */
    method CreatePartidoFulfilled(payload: Partido)
      modifies this`isLoading, this`partidos
      ensures !isLoading && partidos == old(partidos) + [payload]
      ensures |partidos| == |old(partidos)| + 1 && partidos[|partidos| - 1] == payload
      ensures old(partidos) <= partidos
    {
      isLoading := false;
      partidos := partidos + [payload];
    }

    /** `updatePartido.fulfilled`: overwrite the first match with the payload's id,
        and refresh the selected match when it has that id. `isLoading` is not touched. */
    method UpdatePartidoFulfilled(payload: Partido)
      modifies this`partidos, this`selectedPartido
      ensures partidos == Cache.ReplaceFirstById(old(partidos), payload)
      ensures |partidos| == |old(partidos)|
      ensures selectedPartido == if SelectedHasId(old(selectedPartido), payload.id) then Some(payload) else old(selectedPartido)
    {
      var index := Cache.FindIndexById(partidos, payload.id);
      if index != -1 {
        partidos := partidos[index := payload];
      }
      if SelectedHasId(selectedPartido, payload.id) {
        selectedPartido := Some(payload);
      }
    }

    /** `deletePartido.fulfilled`: drop every match with the id from `partidos` and
        `partidosOrdenados` (not from `partidosByTorneo`), and deselect it. */
    method DeletePartidoFulfilled(id: string)
      modifies this`partidos, this`partidosOrdenados, this`selectedPartido
      ensures partidos == Cache.RemoveById(old(partidos), id)
      ensures partidosOrdenados == Cache.RemoveById(old(partidosOrdenados), id)
      ensures forall i :: 0 <= i < |partidos| ==> partidos[i].id != id
      ensures forall i :: 0 <= i < |partidosOrdenados| ==> partidosOrdenados[i].id != id
      ensures selectedPartido == if SelectedHasId(old(selectedPartido), id) then None else old(selectedPartido)
    {
      partidos := Cache.RemoveById(partidos, id);
      partidosOrdenados := Cache.RemoveById(partidosOrdenados, id);
      if SelectedHasId(selectedPartido, id) {
        selectedPartido := None;
      }
    }
  }
}
