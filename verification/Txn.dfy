/** The transaction runner: BEGIN IMMEDIATE, the work, commit, and a bounded retry of the whole
    attempt when SQLite is busy, while other connections commit in between. */
module Txn {
  import opened Types
  import opened Tables

  /** One committed change of the database file, by this connection or by another writer. */
  datatype Change = Change(ours: bool, after: Tables)

  predicate OthersOnly(h: seq<Change>, h': seq<Change>) {
    h <= h' && forall i | |h| <= i < |h'| :: !h'[i].ours
  }

  /** Exactly one change of ours, the last, and it is `work` done once on the state right before it. */
  predicate OnceAtEnd(json: Text -> Option<Text>, h: seq<Change>, h': seq<Change>, work: seq<Stmt>) {
    && 0 < |h| < |h'|
    && OthersOnly(h, DropLast(h'))
    && Last(h').ours
    && RunWork(json, Last(DropLast(h')).after, work) == Ok(Last(h').after)
  }

  /** What becomes of one await: it does its work (a BEGIN may do it without getting the lock), SQLite
      refuses, or the caller is cancelled meanwhile.  The driver works in a thread of its own, so a
      statement whose await is cancelled may have been carried out all the same. */
  datatype Fate = Fine | Unlocked | Busied | Failed | Cut(done: bool)

  /** What a cancellation has left behind unseen: an open transaction, or a commit. */
  datatype Severed = Intact | LeftOpen | TookEffect

  class Connection {
    const json: Text -> Option<Text>
    const shared: bool  // whether other writers commit while this connection holds no lock
    var committed: Tables
    var working: Option<Tables>  // the open transaction's view
    var locked: bool  // a BEGIN IMMEDIATE can come back without the write lock
    var fates: seq<Fate>  // of the coming awaits, as far as they are settled; anything may follow
    var undos: seq<Fate>  // of the coming rollbacks, likewise
    ghost var history: seq<Change>
    ghost var severed: Severed
    ghost var busies: nat  // attempts that ended busy so far
    ghost var expired: bool  // whether the retry deadline had passed when last looked at
    ghost var looked: seq<int>  // what was left of it each time
    ghost var toll: Toll  // what has gone wrong so far

    ghost predicate Valid()
      reads this
    {
      history != [] && Last(history).after == committed
    }

    predicate Idle()
      reads this
    {
      working.None? && !locked
    }

    lemma HasHistory()
      requires Valid()
      ensures history != []
    {
    }

    constructor (json: Text -> Option<Text>, shared: bool, stored: Tables)
      ensures Valid() && Idle() && committed == stored && this.json == json && this.shared == shared
    {
      this.json, this.shared, committed, working, locked, fates, undos := json, shared, stored, None, false, [], [];
      history, severed, busies, expired := [Change(true, stored)], Intact, 0, false;
      looked, toll := [], Toll(0, 0);
    }

    /** Other writers commit whatever they like. */
    method Others()
      requires Valid() && !locked
      modifies this`committed, this`history
      ensures Valid() && OthersOnly(old(history), history)
      ensures !shared ==> committed == old(committed) && history == old(history)
    {
      var n: int := *;
      while shared && n > 0
        invariant Valid() && OthersOnly(old(history), history)
        invariant !shared ==> committed == old(committed) && history == old(history)
        decreases n
      {
        committed := *;
        history := history + [Change(false, committed)];
        n := n - 1;
      }
    }

    /** The fate of the next await. */
    method NextFate() returns (f: Fate)
      modifies this`fates, this`toll
      ensures if old(fates) == [] then fates == [] else f == old(fates)[0] && fates == old(fates)[1..]
      ensures toll == Charged(old(toll), f)
    {
      if fates == [] {
        f := *;
      } else {
        f, fates := fates[0], fates[1..];
      }
      toll := Charged(toll, f);
    }

    method NextUndo() returns (f: Fate)
      modifies this`undos, this`toll
      ensures if old(undos) == [] then undos == [] else f == old(undos)[0] && undos == old(undos)[1..]
      ensures toll == Charged(old(toll), f)
    {
      if undos == [] {
        f := *;
      } else {
        f, undos := undos[0], undos[1..];
      }
      toll := Charged(toll, f);
    }

    /** BEGIN IMMEDIATE, then the close of its cursor.  A cancellation can strike when the transaction
        is already open. */
    method Begin() returns (e: Option<Error>)
      requires Valid() && Idle()
      modifies this
      ensures Valid() && OthersOnly(old(history), history)
      ensures !shared ==> committed == old(committed) && history == old(history)
      ensures e.None? ==> working == Some(committed)
      ensures e.Some? ==> e.value in {Busy, Sqlite, Cancelled} && (Idle() <==> severed.Intact?)
      ensures severed.Intact? || (severed.LeftOpen? && e == Some(Cancelled) && working == Some(committed))
      ensures undos == old(undos) && fates == if old(fates) == [] then [] else old(fates)[1..]
      ensures old(fates) != [] ==> (severed.LeftOpen? <==> old(fates)[0] == Cut(true))
      ensures old(fates) != [] && old(fates)[0] == Fine ==> e.None? && locked
      ensures old(fates) != [] && old(fates)[0] == Busied ==> e == Some(Busy)
      ensures old(fates) != [] && old(fates)[0] == Unlocked ==> e.None? && !locked
      ensures busies == old(busies) && expired == old(expired) && looked == old(looked)
      ensures NoLess(old(toll), toll)
      ensures e.Some? ==> Blame(e.value, old(toll), toll)
      ensures e.None? && !locked ==> Blame(Busy, old(toll), toll)
    {
      Others();
      var f := NextFate();
      e, severed := ErrorOf(f), Intact;
      if e.None? || f == Cut(true) {
        working, locked := Some(committed), f != Unlocked;
        severed := if e.None? then Intact else LeftOpen;
      }
    }

    /** One statement.  Without the lock the first write raises busy. */
    method Execute(s: Stmt) returns (e: Option<Error>)
      requires Valid() && working.Some?
      modifies this
      ensures Valid() && OthersOnly(old(history), history) && working.Some? && locked == old(locked)
      ensures !shared ==> committed == old(committed) && history == old(history)
      ensures e.None? ==> locked && committed == old(committed) && history == old(history)
      ensures e.None? ==> Exec(json, old(working).value, s) == Ok(working.value)
      ensures e.Some? ==> e.value in {Busy, Sqlite, Cancelled} || Exec(json, old(working).value, s) == Err(e.value)
      ensures undos == old(undos) && fates == if old(fates) == [] then [] else old(fates)[1..]
      ensures old(fates) != [] && old(fates)[0] == Failed && locked ==> e == Some(Sqlite)
      ensures old(fates) != [] && old(fates)[0] == Busied ==> e == Some(Busy)
      ensures old(fates) != [] && old(fates)[0] == Fine && locked && Exec(json, old(working).value, s).Ok? ==> e.None?
      ensures severed == old(severed) && busies == old(busies) && expired == old(expired) && looked == old(looked)
      ensures NoLess(old(toll), toll)
      ensures e.Some? && old(locked) ==>
                Blame(e.value, old(toll), toll) || Exec(json, old(working).value, s) == Err(e.value)
      ensures !old(locked) ==> e == Some(Busy)
    {
      var f := NextFate();
      if !locked {
        Others();
        return Some(Busy);
      }
      e := ErrorOf(f);
      if e.None? || f == Cut(true) {
        var r := Exec(json, working.value, s);
        if r.Ok? {
          working := Some(r.value);
        } else if e.None? {
          e := Some(r.error);
        }
      }
    }

    /** A cancelled commit may have taken effect. */
    method Commit() returns (e: Option<Error>)
      requires Valid() && working.Some? && severed.Intact?
      modifies this
      ensures Valid() && (severed.Intact? || (severed.TookEffect? && e == Some(Cancelled)))
      ensures e.Some? ==> e.value in {Busy, Sqlite, Cancelled}
      ensures if e.None? || severed.TookEffect?
              then old(locked) && Idle() && committed == old(working).value
                   && history == old(history) + [Change(true, committed)]
              else OthersOnly(old(history), history) && working.Some? && (!shared ==> committed == old(committed))
      ensures undos == old(undos) && fates == if old(fates) == [] then [] else old(fates)[1..]
      ensures old(fates) != [] ==> (severed.TookEffect? <==> old(fates)[0] == Cut(true) && old(locked))
      ensures old(fates) != [] && old(fates)[0] == Failed && old(locked) ==> e == Some(Sqlite)
      ensures old(fates) != [] && old(fates)[0] == Busied ==> e == Some(Busy)
      ensures busies == old(busies) && expired == old(expired) && looked == old(looked)
      ensures NoLess(old(toll), toll)
      ensures e.Some? && old(locked) ==> Blame(e.value, old(toll), toll)
      ensures !old(locked) ==> e == Some(Busy)
    {
      var f := NextFate();
      if !locked {
        Others();
        return Some(Busy);
      }
      e := ErrorOf(f);
      if e.None? || f == Cut(true) {
        committed, working, locked := working.value, None, false;
        history := history + [Change(true, committed)];
        severed := if e.None? then Intact else TookEffect;
      }
    }

    /** What is left until the retry deadline, by any clock. */
    method TimeLeft() returns (remaining: int)
      requires Valid() && Idle()
      modifies this`expired, this`looked
      ensures Valid() && Idle() && (expired <==> remaining <= 0) && looked == old(looked) + [remaining]
    {
      remaining := *;
      expired, looked := remaining <= 0, looked + [remaining];
    }

    /** The backoff sleep, which lets others commit and may be cancelled. */
    method Sleep() returns (cancelled: bool)
      requires Valid() && Idle()
      modifies this`committed, this`history, this`toll
      ensures Valid() && Idle() && OthersOnly(old(history), history)
      ensures !shared ==> committed == old(committed) && history == old(history)
      ensures toll == if cancelled then Charged(old(toll), Cut(false)) else old(toll)
    {
      Others();
      cancelled := *;
      toll := if cancelled then Charged(toll, Cut(false)) else toll;
    }

    /** ROLLBACK.  One that fails, or is cancelled before it was carried out, leaves the transaction open;
        with none open there is nothing to fail. */
    method Rollback() returns (e: Option<Error>)
      requires Valid() && !severed.LeftOpen?
      modifies this`working, this`locked, this`severed, this`undos, this`toll
      ensures Valid() && (Idle() <==> !severed.LeftOpen?)
      ensures severed == old(severed) || severed.LeftOpen?
      ensures old(Idle()) ==> severed == old(severed) && (e.None? || e == Some(Cancelled))
      ensures severed.LeftOpen? ==> e == Some(Sqlite) || e == Some(Cancelled)
      ensures e.Some? ==> e == Some(Cancelled) || (e == Some(Sqlite) && severed.LeftOpen?)
      ensures undos == if old(undos) == [] then [] else old(undos)[1..]
      ensures old(undos) != [] && !old(Idle()) ==> (severed.LeftOpen? <==> !Undoes(old(undos)[0]))
      ensures old(undos) != [] && old(undos)[0] == Failed && !old(Idle()) ==> e == Some(Sqlite)
      ensures old(undos) != [] && old(undos)[0] == Fine ==> e.None?
      ensures NoLess(old(toll), toll)
      ensures e.Some? ==> Blame(e.value, old(toll), toll)
    {
      var f := NextUndo();
      var open := !Idle() && !Undoes(f);
      if open {
        severed := LeftOpen;
      } else {
        working, locked := None, false;
      }
      e := if f.Cut? then Some(Cancelled) else if open then Some(Sqlite) else None;
    }

    /** The pool rolls back what is still open, or closes the connection. */
    method Reset()
      requires Valid()
      modifies this`working, this`locked
      ensures Valid() && Idle()
    {
      working, locked := None, false;
    }
  }

  /** How many awaits were cancelled, and how many went wrong otherwise. */
  datatype Toll = Toll(cuts: nat, failures: nat)

  function Charged(t: Toll, f: Fate): Toll {
    match f
    case Fine => t
    case Cut(_) => t.(cuts := t.cuts + 1)
    case _ => t.(failures := t.failures + 1)
  }

  predicate NoLess(t: Toll, t': Toll) {
    t.cuts <= t'.cuts && t.failures <= t'.failures
  }

  /** The error comes from an await since then that was cancelled, or that went wrong. */
  predicate Blame(e: Error, t: Toll, t': Toll) {
    && NoLess(t, t')
    && ((e == Cancelled && t.cuts < t'.cuts) || (e in {Busy, Sqlite, StorageError} && t.failures < t'.failures))
  }

  lemma TollAddsUp(a: Toll, b: Toll, c: Toll)
    requires NoLess(a, b) && NoLess(b, c)
    ensures NoLess(a, c)
    ensures forall e :: Blame(e, a, b) || Blame(e, b, c) ==> Blame(e, a, c)
    ensures forall e :: Blame(e, a, c) && e in {Busy, Sqlite} ==> Blame(StorageError, a, c)
    ensures Blame(Cancelled, a, Charged(c, Cut(false)))
  {
  }

  lemma NoToll(t: Toll)
    ensures NoLess(t, t)
  {
  }

  /** How `run` reports what a work raised. */
  predicate Reports(error: Error, raised: Result<Tables>) {
    raised.Err? && error == if raised.error in {Sqlite, Busy} then StorageError else raised.error
  }

  lemma ReportsOf(e: Error, raised: Result<Tables>)
    ensures raised == Err(e) ==> Reports(if e in {Sqlite, Busy} then StorageError else e, raised)
  {
  }

  /** How a fate shows. */
  function ErrorOf(f: Fate): Option<Error> {
    match f
    case Fine => None
    case Unlocked => None
    case Busied => Some(Busy)
    case Failed => Some(Sqlite)
    case Cut(_) => Some(Cancelled)
  }

  /** Whether a rollback of this fate ends the transaction. */
  predicate Undoes(f: Fate) {
    f == Fine || f == Unlocked || f == Cut(true)
  }

  const MAX_ATTEMPTS := 3

  function Busies(e: Option<Error>): nat {
    if e == Some(Busy) then 1 else 0
  }

  /** All goes well for `n` awaits, and the next one is cancelled after it was carried out. */
  predicate CutAfter(fates: seq<Fate>, n: nat) {
    n < |fates| && (forall i | 0 <= i < n :: fates[i] == Fine) && fates[n] == Cut(true)
  }

  /** At least `n` awaits are settled, and none is cancelled after it was carried out. */
  predicate Uncut(fates: seq<Fate>, n: nat) {
    n <= |fates| && Cut(true) !in fates
  }

  /** At least `n` rollbacks are settled, and each ends its transaction. */
  predicate Undone(undos: seq<Fate>, n: nat) {
    n <= |undos| && forall f | f in undos :: Undoes(f)
  }

  /** The work fails, and so does its rollback. */
  predicate Stuck(fates: seq<Fate>, undos: seq<Fate>) {
    1 < |fates| && fates[0] == Fine && fates[1] == Failed && undos != [] && undos[0] == Failed
  }

  /** At most `n` of the settled awaits have been used. */
  predicate Used(before: seq<Fate>, now: seq<Fate>, n: nat) {
    |before| - n <= |now| && forall f | f in now :: f in before
  }

  lemma UsedMore(a: seq<Fate>, b: seq<Fate>, c: seq<Fate>, m: nat, n: nat)
    requires Used(a, b, m) && Used(b, c, n)
    ensures Used(a, c, m + n)
  {
  }

  lemma UsedWithin(before: seq<Fate>, now: seq<Fate>, m: nat, n: nat)
    requires Used(before, now, m) && m <= n
    ensures Used(before, now, n)
  {
  }

  lemma UncutHead(fates: seq<Fate>)
    ensures Uncut(fates, 1) ==> fates != [] && fates[0] != Cut(true)
  {
  }

  lemma StillSettled(before: seq<Fate>, now: seq<Fate>, m: nat, n: nat, settled: nat)
    requires Used(before, now, m) && m + n <= settled
    ensures Uncut(before, settled) ==> Uncut(now, n)
    ensures Undone(before, settled) ==> Undone(now, n)
  {
  }

  /** What settled fates say of their first await. */
  lemma HeadOf(fates: seq<Fate>, now: seq<Fate>, undos: seq<Fate>, n: nat)
    requires now == if fates == [] then [] else fates[1..]
    ensures CutAfter(fates, 0) ==> fates != [] && fates[0] == Cut(true)
    ensures CutAfter(fates, n + 1) ==> fates != [] && fates[0] == Fine && CutAfter(now, n)
    ensures Stuck(fates, undos) ==> fates != [] && fates[0] == Fine && now != [] && now[0] == Failed
    ensures Stuck(fates, undos) ==> undos != [] && undos[0] == Failed
    ensures Uncut(fates, n + 2) ==> fates != [] && fates[0] != Cut(true)
    ensures Undone(undos, 1) ==> undos != [] && Undoes(undos[0])
  {
  }

  lemma CutHead(fates: seq<Fate>, n: nat)
    ensures CutAfter(fates, n) ==> fates != [] && fates[0] == if n == 0 then Cut(true) else Fine
    ensures CutAfter(fates, n) && n > 0 ==> CutAfter(fates[1..], n - 1)
  {
  }

  lemma NothingRun(json: Text -> Option<Text>, t: Tables, work: seq<Stmt>)
    ensures RunWork(json, t, work[..0]) == Ok(t)
  {
  }

  /** The work, one statement further. */
  lemma RunNext(json: Text -> Option<Text>, t: Tables, work: seq<Stmt>, i: nat, now: Tables)
    requires i < |work| && RunWork(json, t, work[..i]) == Ok(now)
    ensures RunWork(json, t, work[..i + 1]) == Exec(json, now, work[i])
    ensures Exec(json, now, work[i]).Err? ==> RunWork(json, t, work) == Exec(json, now, work[i])
  {
    assert DropLast(work[..i + 1]) == work[..i];
    if Exec(json, now, work[i]).Err? {
      RunWorkExtends(json, t, work[..i + 1], work[i + 1..]);
      assert work[..i + 1] + work[i + 1..] == work;
    }
  }

  lemma OnceAt(json: Text -> Option<Text>, h: seq<Change>, t: Tables, work: seq<Stmt>)
    requires h != [] && RunWork(json, Last(h).after, work) == Ok(t)
    ensures OnceAtEnd(json, h, h + [Change(true, t)], work)
  {
    assert DropLast(h + [Change(true, t)]) == h;
  }

  lemma BeginUses(before: seq<Fate>, now: seq<Fate>, n: nat)
    requires now == if before == [] then [] else before[1..]
    ensures Used(before, now, 1) && Used(before, now, n + 2)
    ensures Uncut(before, n + 2) ==> Uncut(now, n + 1)
  {
  }

  lemma NoneUsed(fates: seq<Fate>)
    ensures Used(fates, fates, 0) && Used(fates, fates, 1)
  {
  }

  /** The statements and the commit of one attempt, the transaction already open. */
  method Attempt(conn: Connection, work: seq<Stmt>) returns (e: Option<Error>)
    requires conn.Valid() && conn.working == Some(conn.committed) && conn.severed.Intact?
    modifies conn
    ensures conn.Valid() && (conn.severed.Intact? || (conn.severed.TookEffect? && e == Some(Cancelled)))
    ensures e.None? || conn.severed.TookEffect? ==>
              conn.Idle() && OnceAtEnd(conn.json, old(conn.history), conn.history, work)
              && RunWork(conn.json, old(conn.committed), work) == Ok(conn.committed)
    ensures e.Some? && conn.severed.Intact? ==> OthersOnly(old(conn.history), conn.history)
    ensures e.Some? && conn.severed.Intact? && !conn.shared ==> conn.committed == old(conn.committed)
    ensures e.Some? && e.value !in {Busy, Sqlite, Cancelled} ==>
              RunWork(conn.json, old(conn.committed), work) == Err(e.value)
    ensures e.Some? && conn.severed.Intact? ==> conn.working.Some?
    ensures CutAfter(old(conn.fates), |work|) && old(conn.locked) ==>
              RunWork(conn.json, old(conn.committed), work).Ok? ==> conn.severed.TookEffect?
    ensures old(conn.fates) != [] && old(conn.fates)[0] == Failed && old(conn.locked) ==>
              e == Some(Sqlite) && conn.severed.Intact?
    ensures Uncut(old(conn.fates), |work| + 1) ==> conn.severed.Intact?
    ensures conn.undos == old(conn.undos) && Used(old(conn.fates), conn.fates, |work| + 1)
    ensures conn.busies == old(conn.busies) && conn.expired == old(conn.expired) && conn.looked == old(conn.looked)
    ensures NoLess(old(conn.toll), conn.toll)
    ensures !old(conn.locked) ==> e == Some(Busy)
    ensures e.Some? && old(conn.locked) ==>
              Blame(e.value, old(conn.toll), conn.toll)
              || RunWork(conn.json, old(conn.committed), work) == Err(e.value)
  {
    hide OnceAtEnd, OthersOnly, Used, CutAfter, Uncut, Exec, RunWork;
    NothingRun(conn.json, conn.committed, work);
    OthersNone(conn.history);
    NoneUsed(conn.fates);
    var i := 0;
    while i < |work|
      invariant 0 <= i <= |work|
      invariant conn.Valid() && conn.working.Some? && conn.severed.Intact? && conn.locked == old(conn.locked)
      invariant conn.history == old(conn.history) && conn.committed == old(conn.committed)
      invariant conn.busies == old(conn.busies) && conn.expired == old(conn.expired) && conn.looked == old(conn.looked)
      invariant NoLess(old(conn.toll), conn.toll)
      invariant conn.undos == old(conn.undos) && Used(old(conn.fates), conn.fates, i)
      invariant if i == 0 then conn.fates == old(conn.fates)
                else old(conn.fates) != [] && old(conn.locked) ==> old(conn.fates)[0] != Failed
      invariant RunWork(conn.json, old(conn.committed), work[..i]) == Ok(conn.working.value)
      invariant CutAfter(old(conn.fates), |work|) ==> CutAfter(conn.fates, |work| - i)
    {
      RunNext(conn.json, conn.committed, work, i, conn.working.value);
      CutHead(conn.fates, |work| - i);
      ghost var fates := conn.fates;
      e := conn.Execute(work[i]);
      BeginUses(fates, conn.fates, 0);
      UsedMore(old(conn.fates), fates, conn.fates, i, 1);
      UsedWithin(old(conn.fates), conn.fates, i + 1, |work| + 1);
      if e.Some? {
        return;
      }
      i := i + 1;
    }
    assert work[..i] == work;
    CutHead(conn.fates, 0);
    OnceAt(conn.json, conn.history, conn.working.value, work);
    StillSettled(old(conn.fates), conn.fates, |work|, 1, |work| + 1);
    ghost var fates := conn.fates;
    UncutHead(fates);
    e := conn.Commit();
    BeginUses(fates, conn.fates, 0);
    UsedMore(old(conn.fates), fates, conn.fates, |work|, 1);
  }

  /** BEGIN, work and commit, rolled back if the work or the commit raised; what the rollback raises takes
      the place of that. */
  method TryOnce(conn: Connection, work: seq<Stmt>) returns (e: Option<Error>)
    requires conn.Valid() && conn.Idle()
    modifies conn
    ensures conn.Valid() && (conn.Idle() <==> !conn.severed.LeftOpen?)
    ensures conn.severed.TookEffect? ==> e == Some(Cancelled)
    ensures conn.severed.LeftOpen? ==> e == Some(Cancelled) || e == Some(Sqlite)
    ensures e.None? || conn.severed.TookEffect? ==> OnceAtEnd(conn.json, old(conn.history), conn.history, work)
    ensures e.Some? && !conn.severed.TookEffect? ==> OthersOnly(old(conn.history), conn.history)
    ensures !conn.shared && (e.None? || conn.severed.TookEffect?) ==>
              RunWork(conn.json, old(conn.committed), work) == Ok(conn.committed)
    ensures !conn.shared && e.Some? && !conn.severed.TookEffect? ==> conn.committed == old(conn.committed)
    ensures e.Some? && e.value !in {Busy, Sqlite, Cancelled} ==> exists t :: RunWork(conn.json, t, work) == Err(e.value)
    ensures CutAfter(old(conn.fates), 0) ==> conn.severed.LeftOpen?
    ensures CutAfter(old(conn.fates), |work| + 1) && !conn.shared ==>
              RunWork(conn.json, old(conn.committed), work).Ok? ==> conn.severed.TookEffect?
    ensures Stuck(old(conn.fates), old(conn.undos)) ==> conn.severed.LeftOpen? && e == Some(Sqlite)
    ensures old(conn.fates) != [] && Undone(old(conn.undos), 1) ==>
              (conn.severed.LeftOpen? <==> old(conn.fates)[0] == Cut(true))
    ensures Uncut(old(conn.fates), |work| + 2) && Undone(old(conn.undos), 1) ==> conn.severed.Intact?
    ensures Used(old(conn.fates), conn.fates, |work| + 2) && Used(old(conn.undos), conn.undos, 1)
    // a busy BEGIN, or one that came back without the lock, ends the attempt busy
    ensures old(conn.fates) != [] && old(conn.fates)[0] == Busied ==> e == Some(Busy)
    ensures old(conn.fates) != [] && old(conn.fates)[0] == Unlocked ==>
              old(conn.undos) != [] && old(conn.undos)[0] == Fine ==> e == Some(Busy)
    ensures conn.busies == old(conn.busies) + Busies(e) && conn.expired == old(conn.expired)
    ensures conn.looked == old(conn.looked) && NoLess(old(conn.toll), conn.toll)
    ensures !conn.shared && e.Some? ==>
              Blame(e.value, old(conn.toll), conn.toll)
              || RunWork(conn.json, old(conn.committed), work) == Err(e.value)
  {
    hide OnceAtEnd, OthersOnly, Used, RunWork, CutAfter, Uncut, Undone, Stuck, Undoes, NoLess, Blame, Charged;
    NoneUsed(conn.undos);
    OthersNone(conn.history);
    e := conn.Begin();
    BeginUses(old(conn.fates), conn.fates, |work|);
    HeadOf(old(conn.fates), conn.fates, old(conn.undos), |work|);
    if e.None? {
      ghost var fates, begun := conn.fates, conn.toll;
      ghost var h := conn.history;
      e := Attempt(conn, work);
      OthersThenOnce(conn.json, old(conn.history), h, conn.history, work);
      UsedMore(old(conn.fates), fates, conn.fates, 1, |work| + 1);
      TollAddsUp(old(conn.toll), begun, conn.toll);
      if e.Some? {
        ghost var attempted := conn.toll;
        var undone := conn.Rollback();
        TollAddsUp(old(conn.toll), attempted, conn.toll);
        BeginUses(old(conn.undos), conn.undos, 0);
        e := if undone.Some? then undone else e;
      }
    }
    conn.busies := conn.busies + Busies(e);
  }

  /** Before attempt number `attempt`, each of at most `n` statements. */
  predicate Ahead(fates0: seq<Fate>, fates: seq<Fate>, undos0: seq<Fate>, undos: seq<Fate>, attempt: nat, n: nat)
    requires attempt > 0
  {
    Used(fates0, fates, (attempt - 1) * (n + 2)) && Used(undos0, undos, attempt - 1)
  }

  lemma AheadMore(fates0: seq<Fate>, fates: seq<Fate>, fates': seq<Fate>, undos0: seq<Fate>, undos: seq<Fate>,
                  undos': seq<Fate>, attempt: nat, n: nat)
    requires 0 < attempt && Ahead(fates0, fates, undos0, undos, attempt, n)
    requires Used(fates, fates', n + 2) && Used(undos, undos', 1)
    ensures Ahead(fates0, fates', undos0, undos', attempt + 1, n)
  {
    assert (attempt - 1) * (n + 2) + (n + 2) == attempt * (n + 2);
  }

  lemma AheadSettled(fates0: seq<Fate>, fates: seq<Fate>, undos0: seq<Fate>, undos: seq<Fate>, attempt: nat, n: nat)
    requires 0 < attempt <= MAX_ATTEMPTS && Ahead(fates0, fates, undos0, undos, attempt, n)
    ensures Uncut(fates0, 3 * n + 6) ==> Uncut(fates, n + 2)
    ensures Undone(undos0, 3) ==> Undone(undos, 1)
  {
    assert (attempt - 1) * (n + 2) <= 2 * (n + 2);
  }

  lemma NoneAhead(fates: seq<Fate>, undos: seq<Fate>, n: nat)
    ensures Ahead(fates, fates, undos, undos, 1, n)
  {
  }

  /** The retry deadline has been looked at `n` times since, each time with time left. */
  predicate InTime(before: seq<int>, now: seq<int>, n: nat) {
    |now| == |before| + n && forall i | |before| <= i < |now| :: now[i] > 0
  }

  /** As often at least, and with time left the first `n` times. */
  predicate RetriedInTime(before: seq<int>, now: seq<int>, n: nat) {
    |before| + n <= |now| && forall i | |before| <= i < |before| + n :: now[i] > 0
  }

  lemma NoneLooked(looked: seq<int>)
    ensures InTime(looked, looked, 0)
  {
  }

  lemma LookedAgain(before: seq<int>, now: seq<int>, n: nat, remaining: int)
    requires InTime(before, now, n)
    ensures RetriedInTime(before, now, n) && RetriedInTime(before, now + [remaining], n)
    ensures remaining > 0 ==> InTime(before, now + [remaining], n + 1)
  {
  }

  lemma OthersNone(h: seq<Change>)
    ensures OthersOnly(h, h)
  {
  }

  lemma OthersThenOnce(json: Text -> Option<Text>, h0: seq<Change>, h1: seq<Change>, h2: seq<Change>, work: seq<Stmt>)
    requires OthersOnly(h0, h1)
    ensures OthersOnly(h1, h2) ==> OthersOnly(h0, h2)
    ensures 0 < |h0| && OnceAtEnd(json, h1, h2, work) ==> OnceAtEnd(json, h0, h2, work)
  {
  }

  /** `TransactionRunner.run`.  Every attempt but the last ended busy, and a last one that did so gave
      up only for want of attempts or of time, or because the wait was cancelled.  On success the work
      took effect once, on the state its own BEGIN saw.  On a failure this connection committed nothing,
      unless the failure is a cancellation that struck a commit already carried out; and it exits with
      a transaction open exactly if a cancellation struck a BEGIN already carried out, or a rollback
      failed.  Where no await is cancelled after it was carried out and no rollback fails, neither
      happens. */
  method Run(conn: Connection, work: seq<Stmt>) returns (r: Result<()>, attempts: nat)
    requires conn.Valid() && conn.Idle()
    modifies conn
    ensures conn.Valid() && (conn.Idle() <==> !conn.severed.LeftOpen?)
    ensures conn.severed.TookEffect? ==> r == Err(Cancelled)
    ensures conn.severed.LeftOpen? ==> r == Err(Cancelled) || r == Err(StorageError)
    ensures 1 <= attempts <= 3
    // each attempt after the first began with time left
    ensures RetriedInTime(old(conn.looked), conn.looked, attempts - 1)
    ensures r.Ok? || conn.severed.TookEffect? ==> OnceAtEnd(conn.json, old(conn.history), conn.history, work)
    ensures r.Err? && !conn.severed.TookEffect? ==> OthersOnly(old(conn.history), conn.history)
    ensures conn.busies == old(conn.busies) + attempts - 1 || (r.Err? && conn.busies == old(conn.busies) + attempts)
    ensures conn.busies == old(conn.busies) + attempts && r != Err(Cancelled) ==>
              r == Err(StorageError) && (attempts == 3 || conn.expired)
    ensures !conn.shared && (r.Ok? || conn.severed.TookEffect?) ==>
              RunWork(conn.json, old(conn.committed), work) == Ok(conn.committed)
    ensures !conn.shared && r.Err? && !conn.severed.TookEffect? ==> conn.committed == old(conn.committed)
    ensures r.Err? && r.error !in {StorageError, Cancelled} ==>
              r.error !in {Busy, Sqlite} && exists t :: RunWork(conn.json, t, work) == Err(r.error)
    ensures old(conn.fates) != [] && old(conn.fates)[0] == Busied ==> conn.busies > old(conn.busies)
    // with no other writer, it fails only if an await did, or the work raised
    ensures NoLess(old(conn.toll), conn.toll)
    ensures !conn.shared && r.Err? ==>
              Blame(r.error, old(conn.toll), conn.toll)
              || Reports(r.error, RunWork(conn.json, old(conn.committed), work))
    // each happens: the inputs; and none on any other settled input
    ensures CutAfter(old(conn.fates), 0) ==> conn.severed.LeftOpen?
    ensures Stuck(old(conn.fates), old(conn.undos)) ==> conn.severed.LeftOpen? && r == Err(StorageError)
    ensures Uncut(old(conn.fates), 3 * |work| + 6) && Undone(old(conn.undos), 3) ==> conn.severed.Intact? && conn.Idle()
    ensures CutAfter(old(conn.fates), |work| + 1) && !conn.shared ==>
              RunWork(conn.json, old(conn.committed), work).Ok? ==> conn.severed.TookEffect?
  {
    hide OnceAtEnd, OthersOnly, Used, RunWork, CutAfter, Uncut, Undone, Stuck, Ahead, Exec, NoLess, Blame, Charged;
    hide InTime, RetriedInTime, Connection.Valid, Connection.Idle, Reports;
    conn.HasHistory();
    attempts := 1;
    NoneLooked(conn.looked);
    NoneAhead(conn.fates, conn.undos, |work|);
    NoToll(conn.toll);
    OthersNone(conn.history);
    while true
      invariant 1 <= attempts <= MAX_ATTEMPTS
      invariant conn.Valid() && conn.Idle()
      invariant OthersOnly(old(conn.history), conn.history)
      invariant !conn.shared ==> conn.committed == old(conn.committed)
      invariant conn.busies == old(conn.busies) + attempts - 1
      invariant NoLess(old(conn.toll), conn.toll)
      invariant InTime(old(conn.looked), conn.looked, attempts - 1)
      invariant Ahead(old(conn.fates), conn.fates, old(conn.undos), conn.undos, attempts, |work|)
      invariant old(conn.fates) != [] && old(conn.fates)[0] == Busied && attempts > 1 ==> conn.busies > old(conn.busies)
      invariant if attempts == 1
                then conn.fates == old(conn.fates) && conn.undos == old(conn.undos)
                else !CutAfter(old(conn.fates), 0) && !Stuck(old(conn.fates), old(conn.undos))
                     && (RunWork(conn.json, old(conn.committed), work).Ok? && CutAfter(old(conn.fates), |work| + 1)
                         ==> conn.shared)
      decreases MAX_ATTEMPTS - attempts
    {
      ghost var before, fates, undos, toll, looked := conn.history, conn.fates, conn.undos, conn.toll, conn.looked;
      LookedAgain(old(conn.looked), looked, attempts - 1, 0);
      AheadSettled(old(conn.fates), fates, old(conn.undos), undos, attempts, |work|);
      var e := TryOnce(conn, work);
      OthersThenOnce(conn.json, old(conn.history), before, conn.history, work);
      TollAddsUp(old(conn.toll), toll, conn.toll);
      AheadMore(old(conn.fates), fates, conn.fates, old(conn.undos), undos, conn.undos, attempts, |work|);
      if e.None? {
        return Ok(()), attempts;
      }
      ReportsOf(e.value, RunWork(conn.json, old(conn.committed), work));
      if e.value == Sqlite {
        return Err(StorageError), attempts;
      }
      if e.value != Busy {
        return Err(e.value), attempts;
      }
      // The defensive rollback here has nothing to do: a busy BEGIN opens nothing, a busy attempt has
      // been rolled back, and a rollback that fails is not busy.
      var remaining := conn.TimeLeft();
      LookedAgain(old(conn.looked), looked, attempts - 1, remaining);
      if attempts >= MAX_ATTEMPTS || remaining <= 0 {
        return Err(StorageError), attempts;
      }
      ghost var tried := conn.history;
      var cancelled := conn.Sleep();
      OthersThenOnce(conn.json, old(conn.history), tried, conn.history, work);
      if cancelled {
        return Err(Cancelled), attempts;
      }
      attempts := attempts + 1;
    }
  }
}
