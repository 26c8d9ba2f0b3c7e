/** The React session context (src/contexts/AuthContext.tsx). `storage` is
    localStorage, `authHeader` the default `Authorization` header of the API client
    (`None` until first set), `requests` the auth calls sent and `navigation` the
    `router.push` targets. Call outcomes are inputs. */
module AuthContext {
  import opened Wrappers
  import opened Domain
  import Js
  import Api

  /** The body of a successful login or register reply: `token` and `data.user`. */
  datatype AuthReply = AuthReply(token: string, user: User)

  class Provider {
    var user: Option<User>
    var token: Option<string>
    var isLoading: bool
    var storage: map<string, string>
    var authHeader: Option<string>
    var requests: seq<Api.Request>
    var navigation: seq<string>

    constructor (storage: map<string, string>)
      ensures user.None? && token.None? && isLoading && this.storage == storage
      ensures authHeader.None? && requests == [] && navigation == []
    {
      user := None;
      token := None;
      isLoading := true;
      this.storage := storage;
      authHeader := None;
      requests := [];
      navigation := [];
    }

    /** The exposed flag: a truthy token, whether or not a user is loaded. */
    function IsAuthenticated(): (b: bool)
      reads this
      ensures b <==> token.Some? && token.value != ""
    {
      Js.Truthy(token)
    }

    /** The exposed flag agrees with whether the request interceptor, which reads the
        token back from storage, attaches an `Authorization` header. */
    predicate InterceptorAgrees()
      reads this
    {
      IsAuthenticated() <==> "Authorization" in Api.InterceptedHeaders(map[], storage)
    }

    /** `loadUserFromToken`: with a stored token, adopt it and ask `/auth/me`; a failed
        call forgets the token everywhere. Without one, only the loading flag changes. */
    method LoadUserFromToken(me: Result<User, ApiError>)
      modifies this
      ensures !isLoading && navigation == old(navigation)
      ensures var stored := Js.GetItem(old(storage), Api.AuthTokenKey);
        !Js.Truthy(stored) ==>
          user == old(user) && token == old(token) && storage == old(storage)
          && authHeader == old(authHeader) && requests == old(requests)
      ensures var stored := Js.GetItem(old(storage), Api.AuthTokenKey);
        Js.Truthy(stored) ==> requests == old(requests) + [Api.RequestOf(Api.AuthMe)]
      ensures var stored := Js.GetItem(old(storage), Api.AuthTokenKey);
        Js.Truthy(stored) && me.Success? ==>
          token == stored && user == Some(me.value)
          && authHeader == Some(Api.Bearer(stored.value)) && storage == old(storage)
      ensures var stored := Js.GetItem(old(storage), Api.AuthTokenKey);
        Js.Truthy(stored) && me.Failure? ==>
          token.None? && user.None? && authHeader == Some("")
          && storage == old(storage) - {Api.AuthTokenKey}
      ensures var stored := Js.GetItem(old(storage), Api.AuthTokenKey);
        Js.Truthy(stored) ==> (IsAuthenticated() <==> me.Success?) && InterceptorAgrees()
    {
      isLoading := true;
      var stored := Js.GetItem(storage, Api.AuthTokenKey);
      if Js.Truthy(stored) {
        token := stored;
        authHeader := Some(Api.Bearer(stored.value));
        requests := requests + [Api.RequestOf(Api.AuthMe)];
        if me.Success? {
          user := Some(me.value);
        } else {
          storage := storage - {Api.AuthTokenKey};
          token := None;
          user := None;
          authHeader := Some("");
        }
      }
      isLoading := false;
    }

    /** The common success and failure handling of `login` and `register`. */
    method Authenticate(request: Api.Request, reply: Result<AuthReply, ApiError>) returns (thrown: Option<ApiError>)
      modifies this
      ensures !isLoading && requests == old(requests) + [request]
      ensures thrown.Some? <==> reply.Failure?
      ensures reply.Failure? ==>
        thrown == Some(reply.error) && user == old(user) && token == old(token)
        && storage == old(storage) && authHeader == old(authHeader) && navigation == old(navigation)
      ensures reply.Success? ==>
        && storage == old(storage)[Api.AuthTokenKey := reply.value.token]
        && token == Some(reply.value.token) && user == Some(reply.value.user)
        && authHeader == Some(Api.Bearer(reply.value.token))
        && navigation == old(navigation) + ["/"]
      ensures reply.Failure? ==> IsAuthenticated() == old(IsAuthenticated())
      ensures reply.Success? ==> (IsAuthenticated() <==> reply.value.token != "") && InterceptorAgrees()
    {
      isLoading := true;
      requests := requests + [request];
      if reply.Success? {
        storage := storage[Api.AuthTokenKey := reply.value.token];
        token := Some(reply.value.token);
        user := Some(reply.value.user);
        authHeader := Some(Api.Bearer(reply.value.token));
        navigation := navigation + ["/"];
        thrown := None;
      } else {
        thrown := Some(reply.error);
      }
      isLoading := false;
    }

    /** `login`: POST /auth/login with the credentials; a rejection is rethrown. */
    method Login(credentials: LoginValues, reply: Result<AuthReply, ApiError>) returns (thrown: Option<ApiError>)
      modifies this
      ensures !isLoading && requests == old(requests) + [Api.RequestOf(Api.AuthLogin(credentials))]
      ensures thrown.Some? <==> reply.Failure?
      ensures reply.Failure? ==>
        thrown == Some(reply.error) && user == old(user) && token == old(token)
        && storage == old(storage) && authHeader == old(authHeader) && navigation == old(navigation)
      ensures reply.Success? ==>
        && storage == old(storage)[Api.AuthTokenKey := reply.value.token]
        && token == Some(reply.value.token) && user == Some(reply.value.user)
        && authHeader == Some(Api.Bearer(reply.value.token))
        && navigation == old(navigation) + ["/"]
      ensures reply.Failure? ==> IsAuthenticated() == old(IsAuthenticated())
      ensures reply.Success? ==> (IsAuthenticated() <==> reply.value.token != "") && InterceptorAgrees()
    {
      thrown := Authenticate(Api.RequestOf(Api.AuthLogin(credentials)), reply);
    }

    /** `register`: POST /auth/register with the registration; a rejection is rethrown. */
    method Register(registration: RegisterValues, reply: Result<AuthReply, ApiError>) returns (thrown: Option<ApiError>)
      modifies this
      ensures !isLoading && requests == old(requests) + [Api.RequestOf(Api.AuthRegister(registration))]
      ensures thrown.Some? <==> reply.Failure?
      ensures reply.Failure? ==>
        thrown == Some(reply.error) && user == old(user) && token == old(token)
        && storage == old(storage) && authHeader == old(authHeader) && navigation == old(navigation)
      ensures reply.Success? ==>
        && storage == old(storage)[Api.AuthTokenKey := reply.value.token]
        && token == Some(reply.value.token) && user == Some(reply.value.user)
        && authHeader == Some(Api.Bearer(reply.value.token))
        && navigation == old(navigation) + ["/"]
      ensures reply.Failure? ==> IsAuthenticated() == old(IsAuthenticated())
      ensures reply.Success? ==> (IsAuthenticated() <==> reply.value.token != "") && InterceptorAgrees()
    {
      thrown := Authenticate(Api.RequestOf(Api.AuthRegister(registration)), reply);
    }

    /** `logout`. */
    method Logout()
      modifies this
      ensures user.None? && token.None? && authHeader == Some("")
      ensures storage == old(storage) - {Api.AuthTokenKey}
      ensures navigation == old(navigation) + ["/login"]
      ensures isLoading == old(isLoading) && requests == old(requests)
      ensures !IsAuthenticated() && InterceptorAgrees()
    {
      storage := storage - {Api.AuthTokenKey};
      token := None;
      user := None;
      authHeader := Some("");
      navigation := navigation + ["/login"];
    }
  }

  /** After a successful sign-in the request interceptor, which reads the token back
      from storage, sends the same bearer header the context installed, provided the
      received token is non-empty. */
  lemma {:induction false} InterceptorAgreesAfterSignIn(
    storage: map<string, string>, reply: AuthReply, headers: map<string, string>)
    requires reply.token != ""
    ensures var s := storage[Api.AuthTokenKey := reply.token];
      Api.InterceptedHeaders(headers, s) == headers["Authorization" := Api.Bearer(reply.token)]
  {
    var s := storage[Api.AuthTokenKey := reply.token];
    assert Js.GetItem(s, Api.AuthTokenKey) == Some(reply.token);
  }

  /** After logout the interceptor adds nothing, whatever the headers. */
  lemma {:induction false} InterceptorSilentAfterLogout(storage: map<string, string>, headers: map<string, string>)
    ensures Api.InterceptedHeaders(headers, storage - {Api.AuthTokenKey}) == headers
  {
    assert Js.GetItem(storage - {Api.AuthTokenKey}, Api.AuthTokenKey).None?;
  }
}
