/** Leased locks with fencing tokens, one per resource (backend/app/services/resource_locks.py). */
module ResourceLocks {
  import opened Common
  import opened Records

  /** `get_for_action`: the unreleased lock of an action. It can only be on the action's own resource. */
  function LockOf(db: Db, a: ActionId): Option<Lock> {
    if a !in db.actions then None else
      var r := db.actions[a].resource;
      if r in db.locks && db.locks[r].owner == a && !db.locks[r].released then Some(db.locks[r]) else None
  }

  /** Store the lock of an action's resource. */
  function SetLock(db: Db, a: ActionId, lock: Lock): Db
    requires a in db.actions
  {
    db.(locks := db.locks[db.actions[a].resource := lock])
  }

  function Grant(db: Db, a: ActionId, lock: Lock): Db
    requires a in db.actions
  {
    var r := db.actions[a].resource;
    var granted := if r in db.grants then db.grants[r] else [];
    SetLock(db, a, lock).(grants := db.grants[r := granted + [a]])
  }

  /** `authorised` is the answer of `_revalidate_authorization`. */
  function Acquire(cfg: Settings, db: Db, a: ActionId, authorised: bool, now: Time): Outcome {
    if a !in db.actions then Refused(ActionNotFound)
    else if !db.actions[a].status.Ready? then Refused(ActionNotLockable)
    else if !authorised then Refused(PolicyRevalidationFailed)
    else
      var r := db.actions[a].resource;
      if r !in db.locks then
        Accepted(Grant(db, a, Lock(a, 1, now + cfg.lockLease, false, false)))
      else
        var lock := db.locks[r];
        if lock.owner == a && !lock.released && lock.expires > now then Replayed(db)
        else if lock.frozen then Refused(LockReconciliationRequired)
        else if !lock.released && lock.expires > now then Refused(LockConflict)
        else Accepted(Grant(db, a, lock.(owner := a, token := lock.token + 1,
                                         expires := now + cfg.lockLease, released := false)))
  }

  /** `_owned_active`: why a manual change of the lock is refused, if it is. */
  function ManualChangeError(db: Db, a: ActionId, token: Token, now: Time): Option<Code> {
    if a !in db.actions then Some(ActionNotFound)
    else if !db.actions[a].status.Ready? then Some(LockManualChangeForbidden)
    else match LockOf(db, a)
      case None => Some(LockNotFound)
      case Some(lock) =>
        if lock.token != token then Some(LockFenced)
        else if lock.expires <= now then Some(LockExpired)
        else None
  }

  function Renew(cfg: Settings, db: Db, a: ActionId, token: Token, now: Time): Outcome {
    match ManualChangeError(db, a, token, now)
    case Some(code) => Refused(code)
    case None => Accepted(SetLock(db, a, LockOf(db, a).value.(expires := now + cfg.lockLease)))
  }

  function Release(db: Db, a: ActionId, token: Token, now: Time): Outcome {
    match ManualChangeError(db, a, token, now)
    case Some(code) => Refused(code)
    case None => Accepted(SetLock(db, a, LockOf(db, a).value.(expires := now, released := true)))
  }
}
