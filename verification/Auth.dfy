/** The session store and the authentication service of one surface, proved against the
    operations on values. */
module Auth {
  import opened Wrappers
  import opened Clock
  import opened Login

  /** RedisSessionStore; every method is one atomic command. */
  class SessionStore {
    var entries: Store

    constructor ()
      ensures entries == map[]
    {
      entries := map[];
    }

    /** SET ... NX */
    method Create(key: string, e: Entry) returns (stored: bool)
      modifies this
      ensures stored == (key !in old(entries))
      ensures entries == if stored then old(entries)[key := e] else old(entries)
    {
      stored := key !in entries;
      if stored {
        entries := entries[key := e];
      }
    }

    method Read(key: string) returns (e: Option<Entry>)
      ensures e == if key in entries then Some(entries[key]) else None
    {
      return if key in entries then Some(entries[key]) else None;
    }

    /** GETDEL */
    method Take(key: string) returns (e: Option<Entry>)
      modifies this
      ensures e == if key in old(entries) then Some(old(entries)[key]) else None
      ensures entries == old(entries) - {key}
    {
      e := Read(key);
      entries := entries - {key};
    }

    method Delete(key: string)
      modifies this
      ensures entries == old(entries) - {key}
    {
      entries := entries - {key};
    }
  }

  /** AuthService for one surface. */
  class AuthService {
    const surface: Surface
    const config: Config
    const sessions: SessionStore

    constructor (surface: Surface, config: Config, sessions: SessionStore)
      ensures this.surface == surface && this.config == config && this.sessions == sessions
    {
      this.surface, this.config, this.sessions := surface, config, sessions;
    }

    /** `urlBuilt` says whether the provider gave an authorization URL; if it did not, the
        stored transaction is deleted again. */
    method BeginLogin(mode: string, id: string, state: string, nonce: string, verifier: string, urlBuilt: bool)
      returns (r: Result<string, AuthError>)
      modifies sessions
      ensures match Login.BeginLogin(config, old(sessions.entries), mode, id, Transaction(surface, state, nonce, verifier))
              case Success(st) =>
                if urlBuilt then sessions.entries == st && r == Success(id)
                else sessions.entries == old(sessions.entries) && r == Failure(ExchangeFailed)
              case Failure(e) => sessions.entries == old(sessions.entries) && r == Failure(e)
    {
      if !ValidMode(surface, mode) {
        return Failure(TransactionInvalid);
      }
      var key := TransactionKey(config, surface, id);
      var stored := sessions.Create(key, Waiting(Transaction(surface, state, nonce, verifier)));
      if !stored {
        return Failure(TransactionInvalid);
      }
      if !urlBuilt {
        sessions.Delete(key);
        return Failure(ExchangeFailed);
      }
      return Success(id);
    }

    method TakeTransaction(id: Option<string>, state: string) returns (r: Result<Transaction, AuthError>)
      modifies sessions
      ensures (sessions.entries, r) == Login.TakeTransaction(config, old(sessions.entries), surface, id, state)
    {
      if !ValidId(id) {
        return Failure(TransactionInvalid);
      }
      var taken := sessions.Take(TransactionKey(config, surface, id.value));
      if taken.None? {
        assert sessions.entries == old(sessions.entries);
        return Failure(TransactionInvalid);
      }
      if !Answers(taken.value, surface, state) {
        return Failure(TransactionInvalid);
      }
      return Success(taken.value.transaction);
    }

    method CreateSession(id: string, csrf: string, claims: Claims, now: nat) returns (r: Result<string, AuthError>)
      modifies sessions
      ensures match Login.CreateSession(config, old(sessions.entries), surface, id, csrf, claims, now)
              case Success(st) => sessions.entries == st && r == Success(id)
              case Failure(e) => sessions.entries == old(sessions.entries) && r == Failure(e)
    {
      var expires := Min(claims.expiresAt, now / SECOND + config.sessionTtl);
      if expires <= now / SECOND {
        return Failure(TokenInvalid);
      }
      if claims.organization.None? || claims.organization.value !in ProfileOf(config, surface).organizations {
        return Failure(OrganizationNotAllowed);
      }
      var session := SessionOf(config, surface, csrf, claims, now);
      var stored := sessions.Create(SessionKey(config, surface, id), Browser(session));
      return if stored then Success(id) else Failure(SessionNotCreated);
    }

    /** complete_login when nobody else moves meanwhile; `exchange` is what the provider
        answered.  Whatever goes wrong, the transaction is spent, the error says where it went
        wrong, and no other entry is touched. */
    method CompleteLogin(id: Option<string>, state: string, exchange: Option<Claims>, newId: string, csrf: string, now: nat)
      returns (r: Result<string, AuthError>)
      modifies sessions
      ensures ValidId(id) ==> TransactionKey(config, surface, id.value) !in sessions.entries
      ensures var (spent, taken) := Login.TakeTransaction(config, old(sessions.entries), surface, id, state);
              match (taken, exchange)
              case (Failure(e), _) => r == Failure(e) && sessions.entries == spent
              case (_, None) => r == Failure(ExchangeFailed) && sessions.entries == spent
              case (_, Some(claims)) =>
                match Login.CreateSession(config, spent, surface, newId, csrf, claims, now)
                case Failure(e) => r == Failure(e) && sessions.entries == spent
                case Success(st) => r == Success(newId) && sessions.entries == st
      ensures r.Success? <==>
              && ValidId(id)
              && TransactionKey(config, surface, id.value) in old(sessions.entries)
              && Answers(old(sessions.entries)[TransactionKey(config, surface, id.value)], surface, state)
              && exchange.Some?
              && Login.CreateSession(config, old(sessions.entries), surface, newId, csrf, exchange.value, now).Success?
    {
      var taken := TakeTransaction(id, state);
      if ValidId(id) {
        KeysDoNotCollide(config.slug, surface, TransactionKind, id.value, surface, SessionKind, newId);
      }
      if taken.Failure? {
        return Failure(taken.error);
      }
      if exchange.None? {
        return Failure(ExchangeFailed);
      }
      r := CreateSession(newId, csrf, exchange.value, now);
    }

    method GetBrowserSession(id: Option<string>, now: nat) returns (r: Option<BrowserSession>)
      modifies sessions
      ensures (sessions.entries, r) == GetSession(config, old(sessions.entries), surface, id, now)
    {
      if !ValidId(id) {
        return None;
      }
      var key := SessionKey(config, surface, id.value);
      var found := sessions.Read(key);
      if found.None? {
        return None;
      }
      if !Accepts(config, found.value, surface, now) {
        sessions.Delete(key);
        return None;
      }
      return Some(found.value.session);
    }

    method DeleteSession(id: Option<string>)
      modifies sessions
      ensures sessions.entries == Login.DeleteSession(config, old(sessions.entries), surface, id)
    {
      if ValidId(id) {
        sessions.Delete(SessionKey(config, surface, id.value));
      }
    }

    method CancelLogin(id: Option<string>)
      modifies sessions
      ensures sessions.entries == Login.CancelLogin(config, old(sessions.entries), surface, id)
    {
      if ValidId(id) {
        sessions.Delete(TransactionKey(config, surface, id.value));
      }
    }
  }
}
