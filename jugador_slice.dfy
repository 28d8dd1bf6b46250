/** The `jugadores` slice of the Redux store: players, the top-scorer list
    and the selected player. A player is reduced to its id plus an opaque body. */
module JugadorSlice {
  import opened Wrappers
  import Cache

  type Jugador = Cache.Record<string>

  /** The slice's async thunks. */
  datatype Thunk =
    | FetchJugadores
    | FetchGoleadores
    | FetchJugadorById
    | CreateJugador
    | UpdateJugador
    | DeleteJugador

  /** Update and delete have only a `fulfilled` case. */
  predicate HasLoadingCases(t: Thunk) {
    !t.UpdateJugador? && !t.DeleteJugador?
  }

  predicate SelectedHasId(selected: Option<Jugador>, id: string) {
    selected.Some? && selected.value.id == id
  }

  class JugadorStore {
    var jugadores: seq<Jugador>
    var goleadores: seq<Jugador>
    var selectedJugador: Option<Jugador>
    var isLoading: bool
    var error: Option<string>

    /** `initialState`. */
    constructor ()
      ensures jugadores == [] && goleadores == [] && selectedJugador == None
      ensures !isLoading && error == None
    {
      jugadores, goleadores, selectedJugador := [], [], None;
      isLoading, error := false, None;
    }

    /** Reducer `clearError`. */
    method ClearError()
      modifies this`error
      ensures error == None
    {
      error := None;
    }

    /** Reducer `clearSelectedJugador`. */
    method ClearSelectedJugador()
      modifies this`selectedJugador
      ensures selectedJugador == None
    {
      selectedJugador := None;
    }

    /** A thunk's `pending` action. */
    method Pending(t: Thunk)
      modifies this`isLoading, this`error
      ensures HasLoadingCases(t) ==> isLoading && error == None
      ensures !HasLoadingCases(t) ==> isLoading == old(isLoading) && error == old(error)
    {
      if HasLoadingCases(t) {
        isLoading := true;
        error := None;
      }
    }

    /** A thunk's `rejected` action, carrying the message given to `rejectWithValue`. */
    method Rejected(t: Thunk, message: string)
      modifies this`isLoading, this`error
      ensures HasLoadingCases(t) ==> !isLoading && error == Some(message)
      ensures !HasLoadingCases(t) ==> isLoading == old(isLoading) && error == old(error)
    {
      if HasLoadingCases(t) {
        isLoading := false;
        error := Some(message);
      }
    }

    /** `fetchJugadores.fulfilled`. */
    method FetchJugadoresFulfilled(payload: seq<Jugador>)
      modifies this`isLoading, this`jugadores
      ensures !isLoading && jugadores == payload
    {
      isLoading := false;
      jugadores := payload;
    }

    /** `fetchGoleadores.fulfilled`: replaces the scorer list only. */
    method FetchGoleadoresFulfilled(payload: seq<Jugador>)
      modifies this`isLoading, this`goleadores
      ensures !isLoading && goleadores == payload
    {
      isLoading := false;
      goleadores := payload;
    }

    /** `fetchJugadorById.fulfilled`: sets the selection, lists untouched. */
    method FetchJugadorByIdFulfilled(payload: Jugador)
      modifies this`isLoading, this`selectedJugador
      ensures !isLoading && selectedJugador == Some(payload)
    {
      isLoading := false;
      selectedJugador := Some(payload);
    }

    /** `createJugador.fulfilled`: pushed onto `jugadores`. */
    method CreateJugadorFulfilled(payload: Jugador)
      modifies this`isLoading, this`jugadores
      ensures !isLoading && jugadores == old(jugadores) + [payload]
    {
      isLoading := false;
      jugadores := jugadores + [payload];
    }

    /** `updateJugador.fulfilled`: first id match replaced, selection synced. */
    method UpdateJugadorFulfilled(payload: Jugador)
      modifies this`jugadores, this`selectedJugador
      ensures jugadores == Cache.ReplaceFirstById(old(jugadores), payload)
      ensures |jugadores| == |old(jugadores)|
      ensures selectedJugador == if SelectedHasId(old(selectedJugador), payload.id) then Some(payload) else old(selectedJugador)
    {
      var index := Cache.FindIndexById(jugadores, payload.id);
      if index != -1 {
        jugadores := jugadores[index := payload];
      }
      if SelectedHasId(selectedJugador, payload.id) {
        selectedJugador := Some(payload);
      }
    }

    /** `deleteJugador.fulfilled`: the id leaves `jugadores` and the selection;
        `goleadores` still lists the deleted player. */
    method DeleteJugadorFulfilled(id: string)
      modifies this`jugadores, this`selectedJugador
      ensures jugadores == Cache.RemoveById(old(jugadores), id)
      ensures forall i :: 0 <= i < |jugadores| ==> jugadores[i].id != id
      ensures selectedJugador == if SelectedHasId(old(selectedJugador), id) then None else old(selectedJugador)
    {
      jugadores := Cache.RemoveById(jugadores, id);
      if SelectedHasId(selectedJugador, id) {
        selectedJugador := None;
      }
    }
  }
}
