/**
 * The HTTP client set-up (src/services/api.ts): the small event emitter
 * the session listens to, the header the request interceptor adds, and
 * the response interceptor's one-refresh-per-request rule for 401 answers.
 * Device storage is a map from key to value; the refresh call's result is
 * given as a parameter.
 */
module Api {
  import opened Wrappers
  import opened Lists

  /** A registered callback, compared by identity as `cb !== callback` does. */
  datatype Callback = Callback(id: nat)

  /** The map lookup `this.listeners[event] || []`. */
  function ListenersOf(listeners: map<string, seq<Callback>>, event: string): seq<Callback> {
    if event in listeners then listeners[event] else []
  }

  class EventEmitter {
    var listeners: map<string, seq<Callback>>

    constructor ()
      ensures listeners == map[]
    {
      listeners := map[];
    }

    /** `on`: the callback goes to the end of the event's list, which is created when missing; duplicates are kept. */
    method On(event: string, callback: Callback)
      modifies this
      ensures listeners == old(listeners)[event := ListenersOf(old(listeners), event) + [callback]]
      ensures forall e :: e != event ==> ListenersOf(listeners, e) == ListenersOf(old(listeners), e)
    {
      if event !in listeners {
        listeners := listeners[event := []];
      }
      listeners := listeners[event := listeners[event] + [callback]];
    }

    /** `off`: every registration of the callback leaves that event's list; an unknown event changes nothing. */
    method Off(event: string, callback: Callback)
      modifies this
      ensures event !in old(listeners) ==> listeners == old(listeners)
      ensures event in old(listeners) ==> listeners == old(listeners)[event := RemoveAll(old(listeners)[event], callback)]
      ensures callback !in ListenersOf(listeners, event)
      ensures forall e :: e != event ==> ListenersOf(listeners, e) == ListenersOf(old(listeners), e)
    {
      if event !in listeners {
        return;
      }
      listeners := listeners[event := RemoveAll(listeners[event], callback)];
    }

    /** `emit`: each of the event's callbacks is called once, in registration order; `called` lists the calls. */
    method Emit(event: string) returns (called: seq<Callback>)
      ensures called == ListenersOf(listeners, event)
    {
      called := [];
      if event !in listeners {
        return;
      }
      var registered := listeners[event];
      var i := 0;
      while i < |registered|
        invariant 0 <= i <= |registered|
        invariant called == registered[..i]
      {
        called := called + [registered[i]];
        i := i + 1;
      }
    }
  }

  /** Removing a callback after registering it leaves exactly the other registrations. */
  lemma OffUndoesOn(xs: seq<Callback>, callback: Callback)
    ensures RemoveAll(xs + [callback], callback) == RemoveAll(xs, callback)
    ensures callback !in xs ==> RemoveAll(xs + [callback], callback) == xs
  {
    RemoveAllAppend(xs, [callback], callback);
    assert RemoveAll([callback], callback) == [];
    if callback !in xs {
      RemoveAbsent(xs, callback);
    }
  }

  const AccessTokenKey: string := "accessToken"
  const RefreshTokenKey: string := "refreshToken"
  const UserKey: string := "user"

  /** The request interceptor: `Bearer <token>` when a non-empty token is stored, no header otherwise. */
  function AuthorizationFor(storage: map<string, string>): (header: Option<string>)
    ensures header.Some? <==> AccessTokenKey in storage && storage[AccessTokenKey] != ""
    ensures header.Some? ==> header.value == "Bearer " + storage[AccessTokenKey]
  {
    if AccessTokenKey in storage && storage[AccessTokenKey] != "" then Some("Bearer " + storage[AccessTokenKey]) else None
  }

  /** The parts of a request's configuration the interceptor reads and writes. */
  datatype RequestConfig = RequestConfig(retry: bool, authorization: Option<string>)

  /** What the refresh call did: new tokens, or an error. */
  datatype RefreshOutcome = Refreshed(accessToken: string, refreshToken: string) | RefreshFailed

  /** How the interceptor settles an error: send the request again, or reject with the original error or the refresh error. */
  datatype Resolution = Resend(config: RequestConfig) | RejectOriginal | RejectRefreshError

  class Client {
    var storage: map<string, string>
    const events: EventEmitter

    constructor (events: EventEmitter, storage: map<string, string>)
      ensures this.events == events && this.storage == storage
    {
      this.events := events;
      this.storage := storage;
    }

    /**
     * The response interceptor's error handler. A first 401 on a request
     * marks it retried and, when a refresh token is stored, refreshes:
     * new tokens are stored and the request is sent again with the new
     * header; a failed refresh removes the three session keys, emits
     * `unauthorized` once and rejects. Anything else is rejected as it
     * came. `notified` lists the callbacks the emit called.
     */
    method HandleError(status: Option<int>, config: RequestConfig, refresh: RefreshOutcome)
      returns (resolution: Resolution, notified: seq<Callback>)
      modifies this`storage
      ensures resolution.Resend? ==> resolution.config.retry
      ensures config.retry || status != Some(401) ==>
        resolution == RejectOriginal && storage == old(storage) && notified == []
      ensures !config.retry && status == Some(401) && !(RefreshTokenKey in old(storage) && old(storage)[RefreshTokenKey] != "") ==>
        resolution == RejectOriginal && storage == old(storage) && notified == []
      ensures !config.retry && status == Some(401) && RefreshTokenKey in old(storage) && old(storage)[RefreshTokenKey] != "" ==>
        match refresh
        case Refreshed(access, next) =>
          storage == old(storage)[AccessTokenKey := access][RefreshTokenKey := next]
          && resolution == Resend(RequestConfig(true, Some("Bearer " + access))) && notified == []
        case RefreshFailed =>
          storage == old(storage) - {AccessTokenKey, RefreshTokenKey, UserKey}
          && resolution == RejectRefreshError && notified == ListenersOf(events.listeners, "unauthorized")
    {
      notified := [];
      if status == Some(401) && !config.retry {
        var retried := config.(retry := true);
        if RefreshTokenKey in storage && storage[RefreshTokenKey] != "" {
          match refresh {
            case Refreshed(access, next) =>
              storage := storage[AccessTokenKey := access];
              storage := storage[RefreshTokenKey := next];
              return Resend(retried.(authorization := Some("Bearer " + access))), [];
            case RefreshFailed =>
              storage := storage - {AccessTokenKey, RefreshTokenKey, UserKey};
              notified := events.Emit("unauthorized");
              return RejectRefreshError, notified;
          }
        }
      }
      resolution := RejectOriginal;
    }
  }
}
