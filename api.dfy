/** The shared HTTP client: a request stage that attaches the stored
    credential to every outgoing request, and a response stage that lets
    answers through and, on an authorization failure, clears the store
    before passing the rejection on. */
module Api {
  import opened Common
  import opened SecureStore

  const Authorization := "Authorization"

  function Bearer(token: string): (r: string) {
    "Bearer " + token
  }

  /** The headers a request goes out with, given what the store holds. */
  function Decorate(headers: map<string, string>, stored: Option<string>): (r: map<string, string>)
    ensures Truthy(stored) ==> r.Keys == headers.Keys + {Authorization}
    ensures Truthy(stored) ==> r[Authorization] == "Bearer " + stored.value
    ensures Truthy(stored) ==> forall k :: k in headers && k != Authorization ==> r[k] == headers[k]
    ensures !Truthy(stored) ==> r == headers
  {
    if Truthy(stored) then headers[Authorization := Bearer(stored.value)] else headers
  }

  /** HTTP 401 or 403: the credential is invalid or expired. */
  predicate ClearsCredential(e: HttpError) {
    e.response.Some? && (e.response.value.status == 401 || e.response.value.status == 403)
  }

  /** What the store holds once the response stage has seen error `e`. */
  function StoreAfterRejection(stored: Option<string>, e: HttpError): (r: Option<string>)
    ensures ClearsCredential(e) ==> r == None
    ensures !ClearsCredential(e) ==> r == stored
    ensures !Truthy(r) ==> !Truthy(stored) || ClearsCredential(e)
  {
    if ClearsCredential(e) then None else stored
  }

  /** The request configuration the request stage receives and changes. */
  class RequestConfig {
    var headers: map<string, string>

    constructor (headers: map<string, string>)
      ensures this.headers == headers
    {
      this.headers := headers;
    }
  }

  /** The request stage: read the store afresh and attach a bearer header. */
  method RequestInterceptor(store: CredentialStore, config: RequestConfig) returns (r: RequestConfig)
    modifies config
    ensures r == config
    ensures config.headers == Decorate(old(config.headers), store.value)
  {
    var token := store.GetItem();
    if Truthy(token) {
      config.headers := config.headers[Authorization := Bearer(token.value)];
    }
    r := config;
  }

  /** The response stage: an answer passes through unchanged; an error
      clears the store on 401 or 403 and is rejected again as it came,
      never retried and never turned into an answer. */
  method ResponseInterceptor<T>(store: CredentialStore, outcome: Reply<T>) returns (r: Reply<T>)
    modifies store
    ensures r == outcome
    ensures outcome.Resolved? ==> store.value == old(store.value)
    ensures outcome.Thrown? ==> store.value == StoreAfterRejection(old(store.value), outcome.error)
  {
    match outcome
    case Resolved(_) =>
      r := outcome;
    case Thrown(e) =>
      if ClearsCredential(e) {
        store.DeleteItem();
      }
      r := outcome;
  }

  /** One call through the client: the request stage, the transport (whose
      outcome is `reply`), then the response stage. */
  method Send<T>(store: CredentialStore, config: RequestConfig, reply: Reply<T>)
      returns (sent: map<string, string>, r: Reply<T>)
    modifies store, config
    ensures sent == Decorate(old(config.headers), old(store.value))
    ensures config.headers == sent
    ensures r == reply
    ensures reply.Resolved? ==> store.value == old(store.value)
    ensures reply.Thrown? ==> store.value == StoreAfterRejection(old(store.value), reply.error)
  {
    var decorated := RequestInterceptor(store, config);
    sent := decorated.headers;
    r := ResponseInterceptor(store, reply);
  }
}
