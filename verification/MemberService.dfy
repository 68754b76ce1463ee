/** The session use cases as the code runs them, on a key store and a status table they update in place. */
module MemberService {
  import opened Wrappers
  import Sessions

  class RedisRepository {
    var store: Sessions.Store

    constructor ()
      ensures store == map[]
    {
      store := map[];
    }

    method Set(key: string, session: Sessions.Session, ttl: nat, now: nat, w: Write) returns (ok: bool)
      modifies this
      ensures ok <==> w.Succeeds?
      ensures store == if Effective(w) then Sessions.Set(old(store), key, session, ttl, now) else old(store)
      ensures Effective(w) ==>
        && key in store && store[key].session == session
        && Sessions.PresentUntil(store, key, if ttl == 0 then None else Some(now + ttl))
      ensures Sessions.OtherKeysKept(old(store), store, key)
    {
      if Effective(w) {
        store := store[key := Sessions.Entry(session, if ttl == 0 then None else Some(now + ttl))];
      }
      return w.Succeeds?;
    }

    method Get(key: string, now: nat) returns (session: Option<Sessions.Session>)
      ensures session == if Sessions.Present(store, key, now) then Some(store[key].session) else None
    {
      if key in store && (store[key].deadline.None? || now < store[key].deadline.value) {
        return Some(store[key].session);
      }
      return None;
    }

    method Del(key: string, w: Write) returns (ok: bool)
      modifies this
      ensures ok <==> w.Succeeds?
      ensures store == if Effective(w) then old(store) - {key} else old(store)
    {
      if Effective(w) {
        store := store - {key};
      }
      return w.Succeeds?;
    }

    method ExtendTTL(key: string, ttl: nat, now: nat, w: Write) returns (ok: bool)
      modifies this
      ensures ok <==> w.Succeeds?
      ensures store == if Effective(w) then Sessions.ExtendTTL(old(store), key, ttl, now) else old(store)
      ensures Effective(w) && Sessions.Present(old(store), key, now) ==>
        && Sessions.PresentUntil(store, key, Some(if ttl == 0 then 0 else now + ttl))
        && (ttl > 0 ==> store[key].session == old(store)[key].session)
      ensures !Sessions.Present(old(store), key, now) ==> store == old(store)
      ensures Sessions.OtherKeysKept(old(store), store, key)
    {
      if Effective(w) && key in store && (store[key].deadline.None? || now < store[key].deadline.value) {
        if ttl == 0 {
          store := store - {key};
        } else {
          store := store[key := store[key].(deadline := Some(now + ttl))];
        }
      }
      return w.Succeeds?;
    }

    method GetTTL(key: string, now: nat) returns (seconds: nat)
      ensures seconds == Sessions.GetTTL(store, key, now)
      ensures seconds > 0 ==> Sessions.PresentUntil(store, key, Some(now + seconds))
      ensures seconds == 0 <==> !Sessions.Present(store, key, now) || Sessions.PresentUntil(store, key, None)
    {
      if key !in store || store[key].deadline.None? || store[key].deadline.value <= now {
        return 0;
      }
      assert !Sessions.Present(store, key, store[key].deadline.value);
      return store[key].deadline.value - now;
    }
  }

  class MemberUseCase {
    const redis: RedisRepository
    const sessionTTL: nat
    var status: map<string, Sessions.MemberStatus>

    ghost function View(): Sessions.State
      reads this, redis
    {
      Sessions.State(redis.store, status)
    }

    /** Keys expire exactly when sessions have a lifetime. */
    ghost predicate Valid()
      reads this, redis
    {
      forall m :: m in redis.store ==> (redis.store[m].deadline.Some? <==> sessionTTL > 0)
    }

    constructor (redis: RedisRepository, sessionTTL: nat)
      requires redis.store == map[]
      ensures Valid() && View() == Sessions.Init && this.redis == redis && this.sessionTTL == sessionTTL
    {
      this.redis := redis;
      this.sessionTTL := sessionTTL;
      status := map[];
    }

    method UpdateMemberStatus(memberID: string, to: Sessions.MemberStatus, w: Write) returns (ok: bool)
      modifies this
      ensures ok <==> w.Succeeds?
      ensures status == Sessions.SetStatus(old(status), memberID, to, w)
    {
      if Effective(w) {
        status := status[memberID := to];
      }
      return w.Succeeds?;
    }

    method Login(account: Option<string>, passwordMatches: bool, token: Option<string>, now: nat, save: Write,
                 update: Write)
      returns (r: Result<string>)
      requires Valid()
      modifies this, redis
      ensures Valid()
      ensures (View(), r) == Sessions.Step(old(View()), sessionTTL,
                                           Sessions.Login(account, passwordMatches, token, now, save, update))
      ensures r.Success? <==>
        account.Some? && passwordMatches && token.Some? && save.Succeeds? && update.Succeeds?
      ensures account.Some? && passwordMatches && token.Some? && Effective(save) ==>
        && account.value in redis.store
        && redis.store[account.value].session == Sessions.Session(token.value, account.value, now, now, now + sessionTTL)
      ensures status ==
        if account.Some? && passwordMatches && token.Some? && save.Succeeds? && Effective(update) then
          old(status)[account.value := Sessions.OnLine]
        else old(status)
      ensures r.Success? ==>
        && account.Some? && passwordMatches && token == Some(r.value)
        && Sessions.LiveUntil(View(), account.value, now, now + sessionTTL)
        && account.value in status && status[account.value] == Sessions.OnLine
      ensures account.None? || !passwordMatches || token.None? ==> r.Failure? && View() == old(View())
      ensures account.Some? ==> Sessions.OthersKept(old(View()), View(), account.value)
    {
      if account.None? {
        return Failure("can't find");
      }
      if !passwordMatches {
        return Failure("password can't match");
      }
      if token.None? {
        return Failure("can't generate token");
      }
      var memberID := account.value;
      var session := Sessions.Session(token.value, memberID, now, now, now + sessionTTL);
      var ok := redis.Set(memberID, session, sessionTTL, now, save);
      if !ok {
        return Failure("can't save session");
      }
      ok := UpdateMemberStatus(memberID, Sessions.OnLine, update);
      if !ok {
        return Failure("can't update status");
      }
      return Success(token.value);
    }

    method Logout(member: Option<string>, now: nat, del: Write, update: Write) returns (r: Result<string>)
      requires Valid()
      modifies this, redis
      ensures Valid()
      ensures (View(), r) == Sessions.Step(old(View()), sessionTTL, Sessions.Logout(member, now, del, update))
      ensures r.Success? <==> member.Some? && del.Succeeds? && update.Succeeds?
      ensures status ==
        if member.Some? && del.Succeeds? && Effective(update) then old(status)[member.value := Sessions.OffLine]
        else old(status)
      ensures member.Some? && Effective(del) ==> Sessions.LiveUntil(View(), member.value, 0, 0)
      ensures member.Some? ==> Sessions.OthersKept(old(View()), View(), member.value)
    {
      if member.None? {
        return Failure("invalid token");
      }
      var ok := redis.Del(member.value, del);
      if !ok {
        return Failure("can't delete session");
      }
      ok := UpdateMemberStatus(member.value, Sessions.OffLine, update);
      if !ok {
        return Failure("can't update status");
      }
      return Success("");
    }

    method ForceLogout(memberID: string, now: nat, del: Write, update: Write) returns (r: Result<string>)
      requires Valid()
      modifies this, redis
      ensures Valid()
      ensures (View(), r) == Sessions.Step(old(View()), sessionTTL, Sessions.ForceLogout(memberID, now, del, update))
      ensures r.Success? <==> del.Succeeds? && update.Succeeds?
      ensures status ==
        if del.Succeeds? && Effective(update) then old(status)[memberID := Sessions.OffLine] else old(status)
      ensures Effective(del) ==> Sessions.LiveUntil(View(), memberID, 0, 0)
      ensures Sessions.OthersKept(old(View()), View(), memberID)
    {
      var ok := redis.Del(memberID, del);
      if !ok {
        return Failure("can't delete session");
      }
      ok := UpdateMemberStatus(memberID, Sessions.OffLine, update);
      if !ok {
        return Failure("can't update status");
      }
      return Success("");
    }

    /** Times out on every error as well. */
    method CheckSessionTimeout(member: Option<string>, now: nat, lookupFails: bool) returns (expired: bool, ok: bool)
      ensures ok <==> member.Some? && !lookupFails
      ensures expired <==> !ok || Sessions.CheckSessionTimeout(View(), member, now)
    {
      if member.None? {
        return true, false;
      }
      if lookupFails {
        return true, false;
      }
      var ttl := redis.GetTTL(member.value, now);
      if ttl > 0 {
        return false, true;
      }
      return true, true;
    }

    method ReconnectSession(member: Option<string>, now: nat, extend: Write) returns (r: Result<string>)
      requires Valid()
      modifies redis
      ensures Valid()
      ensures (View(), r) == Sessions.Step(old(View()), sessionTTL, Sessions.Reconnect(member, now, extend))
      ensures r.Success? <==> member.Some? && extend.Succeeds?
      ensures r.Success? ==>
        && member.Some?
        && var lapsed := old(Sessions.CheckSessionTimeout(View(), member, now));
           Sessions.LiveUntil(View(), member.value, now, if lapsed then now else now + sessionTTL)
      ensures member.Some? ==> Sessions.OthersKept(old(View()), View(), member.value)
    {
      if member.None? {
        return Failure("invalid token");
      }
      var ok := redis.ExtendTTL(member.value, sessionTTL, now, extend);
      if !ok {
        return Failure("can't extend session");
      }
      return Success("");
    }
  }
}
