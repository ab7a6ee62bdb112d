/**
 * An authentication service that signs in with the Mojang provider and falls
 * back to the Microsoft provider when Mojang rejects the credentials, then
 * routes every later call to whichever provider is selected.
 *
 * The two providers are records of the state the wrapper can observe; what
 * a provider's own `login` does over the network is a parameter
 * (`LoginResult`).
 */
module AutoAuth {
  import opened Optional
  import opened Protocol

  datatype AuthType = Mojang | Microsoft

  /** A profile property of a logged-in account. */
  datatype Property = Property(name: string, value: string, signature: Option<string>)

  /** What a successful provider login leaves in the provider. */
  datatype Session = Session(accessToken: string, properties: seq<Property>,
                             profiles: seq<GameProfile>, selectedProfile: Option<GameProfile>)

  /** The failures `login` can throw; invalid credentials are one kind of request failure. */
  datatype LoginFailure = InvalidCredentials | RequestFailure(message: string)

  /** The outcome of one provider's `login` call. */
  datatype LoginResult = Accepted(session: Session) | Rejected(failure: LoginFailure)

  datatype Provider = Provider(
    clientToken: string, username: Option<string>, password: Option<string>,
    accessToken: Option<string>, loggedIn: bool,
    properties: seq<Property>, profiles: seq<GameProfile>, selectedProfile: Option<GameProfile>)

  function NewProvider(clientToken: string): (p: Provider)
    ensures p.clientToken == clientToken && !p.loggedIn && p.accessToken.None?
  {
    Provider(clientToken, None, None, None, false, [], [], None)
  }

  /** A provider after its credentials were set and its `login` gave `result`. */
  function ProviderLogin(p: Provider, username: Option<string>, password: Option<string>, result: LoginResult): (q: Provider)
    ensures q.clientToken == p.clientToken && q.username == username && q.password == password
    ensures result.Accepted? ==> q.loggedIn && q.accessToken == Some(result.session.accessToken)
                                 && q.selectedProfile == result.session.selectedProfile
    ensures result.Rejected? ==> q == p.(username := username, password := password)
  {
    var p1 := p.(username := username, password := password);
    match result
    case Accepted(s) =>
      p1.(accessToken := Some(s.accessToken), loggedIn := true, properties := s.properties,
          profiles := s.profiles, selectedProfile := s.selectedProfile)
    case Rejected(_) => p1
  }

  /** A provider after `logout`: no token, not logged in, no account data. */
  function ProviderLogout(p: Provider): (q: Provider)
    ensures !q.loggedIn && q.accessToken.None? && q.profiles == [] && q.selectedProfile.None?
    ensures q.clientToken == p.clientToken && q.username == p.username && q.password == p.password
  {
    p.(accessToken := None, loggedIn := false, properties := [], profiles := [], selectedProfile := None)
  }

  datatype AuthState = AuthState(username: Option<string>, password: Option<string>,
                                 mojang: Provider, msa: Provider, authType: Option<AuthType>)

  /** `getAuth`: Mojang when it was the one that signed in, Microsoft otherwise (also before any login). */
  function Selected(st: AuthState): Provider
  {
    if st.authType == Some(Mojang) then st.mojang else st.msa
  }

  /** Replace the selected provider by `p`. */
  function WithSelected(st: AuthState, p: Provider): AuthState
  {
    if st.authType == Some(Mojang) then st.(mojang := p) else st.(msa := p)
  }

  /**
   * `login`: Mojang first with the stored credentials; on invalid
   * credentials only, Microsoft with the same credentials.  The second
   * component is the failure that propagates, if any.
   */
  function AttemptLogin(st: AuthState, mojangResult: LoginResult, msaResult: LoginResult): (AuthState, Option<LoginFailure>)
  {
    var st1 := st.(mojang := ProviderLogin(st.mojang, st.username, st.password, mojangResult));
    match mojangResult
    case Accepted(_) => (st1.(authType := Some(Mojang)), None)
    case Rejected(RequestFailure(_)) => (st1, Some(mojangResult.failure))
    case Rejected(InvalidCredentials) =>
      var st2 := st1.(msa := ProviderLogin(st.msa, st.username, st.password, msaResult));
      match msaResult
      case Accepted(_) => (st2.(authType := Some(Microsoft)), None)
      case Rejected(failure) => (st2, Some(failure))
  }

  // ---- properties -----------------------------------------------------------------

  /** A Mojang success selects Mojang, throws nothing and leaves Microsoft untouched. */
  lemma MojangFirst(st: AuthState, session: Session, msaResult: LoginResult)
    ensures var (r, thrown) := AttemptLogin(st, Accepted(session), msaResult);
      thrown.None? && r.authType == Some(Mojang) && r.msa == st.msa
      && r.mojang.username == st.username && r.mojang.password == st.password
      && r.username == st.username && r.password == st.password
  {
  }

  /**
   * Only rejected credentials lead to Microsoft, which is given the same
   * credentials; its success selects Microsoft, its failure propagates and
   * leaves the selection as it was.
   */
  lemma FallbackOnInvalidCredentials(st: AuthState, msaResult: LoginResult)
    ensures var (r, thrown) := AttemptLogin(st, Rejected(InvalidCredentials), msaResult);
      && r.msa.username == st.username && r.msa.password == st.password
      && (msaResult.Accepted? ==> thrown.None? && r.authType == Some(Microsoft))
      && (msaResult.Rejected? ==> thrown == Some(msaResult.failure) && r.authType == st.authType)
  {
  }

  /** Any other Mojang failure propagates, Microsoft is never asked and the selection is unchanged. */
  lemma OtherFailurePropagates(st: AuthState, message: string, msaResult: LoginResult)
    ensures var (r, thrown) := AttemptLogin(st, Rejected(RequestFailure(message)), msaResult);
      thrown == Some(RequestFailure(message)) && r.msa == st.msa && r.authType == st.authType
  {
  }

  /**
   * Whenever `login` returns normally, the provider every later call is
   * routed to is the one that accepted, and it is logged in with the token
   * that login produced.
   */
  lemma LoginRoutesToAcceptingProvider(st: AuthState, mojangResult: LoginResult, msaResult: LoginResult)
    ensures var (r, thrown) := AttemptLogin(st, mojangResult, msaResult);
      thrown.None? ==>
        var winner := if mojangResult.Accepted? then mojangResult else msaResult;
        && winner.Accepted?
        && (r.authType == Some(Mojang) <==> mojangResult.Accepted?)
        && Selected(r).loggedIn && Selected(r).accessToken == Some(winner.session.accessToken)
        && Selected(r).properties == winner.session.properties
        && Selected(r).profiles == winner.session.profiles
        && Selected(r).selectedProfile == winner.session.selectedProfile
    ensures var (r, thrown) := AttemptLogin(st, mojangResult, msaResult);
      thrown.Some? ==> r.authType == st.authType
  {
  }

  // ---- the service object ----------------------------------------------------------

  class AutoAuthenticationService {
    var username: Option<string>
    var password: Option<string>
    var mojangAuth: Provider
    var msaAuth: Provider
    var authType: Option<AuthType>

    function State(): AuthState
      reads this
    {
      AuthState(username, password, mojangAuth, msaAuth, authType)
    }

    /** Both providers are built with the same client token. */
    constructor (clientToken: string)
      ensures State() == AuthState(None, None, NewProvider(clientToken), NewProvider(clientToken), None)
    {
      username := None;
      password := None;
      mojangAuth := NewProvider(clientToken);
      msaAuth := NewProvider(clientToken);
      authType := None;
    }

    /** `getAuth`, read off the object's fields. */
    function GetAuth(): Provider
      reads this
    {
      Selected(State())
    }

    function GetAccessToken(): Option<string>
      reads this
    {
      GetAuth().accessToken
    }

    function IsLoggedIn(): bool
      reads this
    {
      GetAuth().loggedIn
    }

    function GetProperties(): seq<Property>
      reads this
    {
      GetAuth().properties
    }

    function GetAvailableProfiles(): seq<GameProfile>
      reads this
    {
      GetAuth().profiles
    }

    function GetSelectedProfile(): Option<GameProfile>
      reads this
    {
      GetAuth().selectedProfile
    }

    /** Only the selected provider's token changes. */
    method SetAccessToken(token: Option<string>)
      modifies this
      ensures State() == WithSelected(old(State()), old(GetAuth()).(accessToken := token))
      ensures GetAccessToken() == token
    {
      if authType == Some(Mojang) {
        mojangAuth := mojangAuth.(accessToken := token);
      } else {
        msaAuth := msaAuth.(accessToken := token);
      }
    }

    /** The credentials are kept here, not in a provider. */
    method SetUsername(name: Option<string>)
      modifies this
      ensures State() == old(State()).(username := name)
    {
      username := name;
    }

    method SetPassword(secret: Option<string>)
      modifies this
      ensures State() == old(State()).(password := secret)
    {
      password := secret;
    }

    /** Only the selected provider logs out. */
    method Logout()
      modifies this
      ensures State() == WithSelected(old(State()), ProviderLogout(old(GetAuth())))
      ensures !IsLoggedIn()
    {
      if authType == Some(Mojang) {
        mojangAuth := ProviderLogout(mojangAuth);
      } else {
        msaAuth := ProviderLogout(msaAuth);
      }
    }

    /**
     * `login`; `thrown` is the exception that propagates, if any.  After a
     * normal return every getter reaches the provider that accepted; after a
     * throw the selection is the one before the call.
     */
    method Login(mojangResult: LoginResult, msaResult: LoginResult) returns (thrown: Option<LoginFailure>)
      modifies this
      ensures (State(), thrown) == AttemptLogin(old(State()), mojangResult, msaResult)
      ensures thrown.None? ==>
        var session := if mojangResult.Accepted? then mojangResult.session else msaResult.session;
        && (mojangResult.Accepted? || msaResult.Accepted?)
        && IsLoggedIn() && GetAccessToken() == Some(session.accessToken)
        && GetProperties() == session.properties && GetAvailableProfiles() == session.profiles
        && GetSelectedProfile() == session.selectedProfile
      ensures thrown.Some? ==> authType == old(authType)
    {
      mojangAuth := ProviderLogin(mojangAuth, username, password, mojangResult);
      if mojangResult.Accepted? {
        authType := Some(Mojang);
        return None;
      }
      if mojangResult.failure.RequestFailure? {
        return Some(mojangResult.failure);
      }
      msaAuth := ProviderLogin(msaAuth, username, password, msaResult);
      if msaResult.Rejected? {
        return Some(msaResult.failure);
      }
      authType := Some(Microsoft);
      thrown := None;
    }
  }
}
