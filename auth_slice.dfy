/** The `auth` slice of the Redux store: the session (user, token, flags),
    the shape checks the `login` and `getMe` thunks apply to the API's
    answer, and the browser's stored token, kept here as a plain field. */
module AuthSlice {
  import opened Wrappers
  import Text

  datatype User = User(
    id: string,
    email: string,
    nombre: string,
    apellido: string,
    nombreCompleto: string,
    rol: string)

  /** The body of a login answer: `{ success, data, token }`, any part possibly missing. */
  datatype LoginResponse = LoginResponse(success: bool, data: Option<User>, token: Option<string>)

  /** The body of a `/auth/me` answer: `{ success, data }`. */
  datatype MeResponse = MeResponse(success: bool, data: Option<User>)

  /** What a fulfilled login carries. */
  datatype Session = Session(user: User, token: string)

  const InvalidResponse: string := "Respuesta de API inválida"

  /** The check `login` applies: `success && data && token`, else reject. */
  function CheckLoginResponse(r: LoginResponse): (res: Result<Session, string>)
    ensures res.Success? <==> r.success && r.data.Some? && r.token.Some? && |r.token.value| > 0
    ensures res.Success? ==> res.value.user == r.data.value && res.value.token == r.token.value
    ensures res.Failure? ==> res.error == InvalidResponse
  {
    if r.success && r.data.Some? && Text.Truthy(r.token) then Success(Session(r.data.value, r.token.value))
    else Failure(InvalidResponse)
  }

  /** The check `getMe` applies: `success && data`, else reject. */
  function CheckMeResponse(r: MeResponse): (res: Result<User, string>)
    ensures res.Success? <==> r.success && r.data.Some?
    ensures res.Success? ==> res.value == r.data.value
    ensures res.Failure? ==> res.error == InvalidResponse
  {
    if r.success && r.data.Some? then Success(r.data.value) else Failure(InvalidResponse)
  }

  /** `getMe` never asks for a token: whatever `login` accepts, the same
      `success` and `data` pass `getMe`, and a login answer missing only its
      token is rejected by `login` although `getMe` would accept its shape. */
  lemma MeCheckIsWeaker(r: LoginResponse)
    ensures CheckLoginResponse(r).Success? ==> CheckMeResponse(MeResponse(r.success, r.data)).Success?
    ensures r.success && r.data.Some? && !Text.Truthy(r.token) ==>
      CheckLoginResponse(r).Failure? && CheckMeResponse(MeResponse(r.success, r.data)).Success?
  {
  }

  class AuthStore {
    var user: Option<User>
    var token: Option<string>
    var isLoading: bool
    var error: Option<string>
    var isAuthenticated: bool
    /** The token kept in `localStorage` under the key 'token'. */
    var storedToken: Option<string>

    /** `initialState`; the browser storage starts as it is found. */
    constructor (stored: Option<string>)
      ensures user == None && token == None && !isLoading && error == None && !isAuthenticated
      ensures storedToken == stored
    {
      user, token, isLoading, error, isAuthenticated := None, None, false, None, false;
      storedToken := stored;
    }

    /** Reducer `logout`: forget the session and remove the stored token. `isLoading` is kept. */
    method Logout()
      modifies this`user, this`token, this`isAuthenticated, this`error, this`storedToken
      ensures user == None && token == None && !isAuthenticated && error == None
      ensures storedToken == None
    {
      user := None;
      token := None;
      isAuthenticated := false;
      error := None;
      storedToken := None;
    }

    /** Reducer `clearError`. */
    method ClearError()
      modifies this`error
      ensures error == None
    {
      error := None;
    }

    /** Reducer `setToken`: store the token and mark the session authenticated; `user` is kept. */
    method SetToken(payload: string)
      modifies this`token, this`isAuthenticated, this`storedToken
      ensures token == Some(payload) && isAuthenticated && storedToken == Some(payload)
    {
      token := Some(payload);
      isAuthenticated := true;
      storedToken := Some(payload);
    }

    /** `login.pending`: loading, and the last error is cleared. */
    method LoginPending()
      modifies this`isLoading, this`error
      ensures isLoading && error == None
    {
      isLoading := true;
      error := None;
    }

    /** `login.fulfilled`. */
    method LoginFulfilled(payload: Session)
      modifies this`isLoading, this`user, this`token, this`isAuthenticated, this`storedToken
      ensures !isLoading && user == Some(payload.user) && token == Some(payload.token)
      ensures isAuthenticated && storedToken == Some(payload.token)
    {
      isLoading := false;
      user := Some(payload.user);
      token := Some(payload.token);
      isAuthenticated := true;
      storedToken := Some(payload.token);
    }

    /** `login.rejected`: the session is left as it was. */
    method LoginRejected(message: string)
      modifies this`isLoading, this`error
      ensures !isLoading && error == Some(message)
    {
      isLoading := false;
      error := Some(message);
    }

    /** `getMe.pending`: only `isLoading`; an earlier error stays visible. */
    method GetMePending()
      modifies this`isLoading
      ensures isLoading
    {
      isLoading := true;
    }

    /** `getMe.fulfilled`. */
    method GetMeFulfilled(payload: User)
      modifies this`isLoading, this`user, this`isAuthenticated
      ensures !isLoading && user == Some(payload) && isAuthenticated
    {
      isLoading := false;
      user := Some(payload);
      isAuthenticated := true;
    }

    /** `getMe.rejected`: unauthenticated with the error, but `token`, `user`
        and the stored token are all kept. */
    method GetMeRejected(message: string)
      modifies this`isLoading, this`error, this`isAuthenticated
      ensures !isLoading && error == Some(message) && !isAuthenticated
    {
      isLoading := false;
      error := Some(message);
      isAuthenticated := false;
    }
  }
}
