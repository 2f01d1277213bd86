/** The session store (chatbot-backend/src/repositories/sessionRepository.ts).
    When the database is not ready, sessions live in an in-memory JavaScript
    Map keyed by session id, held as its entries in insertion order.
    Otherwise they live in the `sessions` table of the store. Time is a
    parameter in milliseconds. */
module Sessions {
  import opened Common
  import opened Types
  import opened Errors
  import opened Store

  /** The expiry is hard-coded to 24 hours in both modes; the configured
      `session.expiryHours` is not consulted. */
  const ExpiryMs: int := 24 * HourMs

  /** The default `limit` of `getByUserId`. */
  const DefaultUserLimit: int := 10

  /** `expiresAt > now`: the test `isValid` applies. */
  predicate Live(s: Session, now: int) {
    s.expiresAt > now
  }

  /** `expiresAt < now`: the test `cleanupExpired` applies. */
  predicate Expired(s: Session, now: int) {
    s.expiresAt < now
  }

  /** A session whose expiry is exactly `now` is neither valid nor swept. */
  lemma BoundaryIsNeitherLiveNorExpired(s: Session, now: int)
    requires s.expiresAt == now
    ensures !Live(s, now) && !Expired(s, now)
  {
  }

  /** Ids are unique in the sessions table (it is the primary key). */
  predicate UniqueIds(rows: seq<Session>) {
    forall i, j :: 0 <= i < j < |rows| ==> rows[i].id != rows[j].id
  }

  predicate HasRow(rows: seq<Session>, id: string) {
    exists i :: 0 <= i < |rows| && rows[i].id == id
  }

  /** `SELECT * FROM sessions WHERE id = $1`, first row. */
  function FindRow(rows: seq<Session>, id: string): (r: Option<Session>)
    ensures r.Some? <==> HasRow(rows, id)
    ensures r.Some? ==> r.value in rows && r.value.id == id
  {
    if |rows| == 0 then None
    else if rows[0].id == id then Some(rows[0])
    else
      var r := FindRow(rows[1..], id);
      assert HasRow(rows[1..], id) ==> HasRow(rows, id) by {
        if HasRow(rows[1..], id) {
          var i :| 0 <= i < |rows[1..]| && rows[1..][i].id == id;
          assert rows[i + 1].id == id;
        }
      }
      assert HasRow(rows, id) ==> HasRow(rows[1..], id) by {
        if HasRow(rows, id) {
          var i :| 0 <= i < |rows| && rows[i].id == id;
          assert i > 0 && rows[1..][i - 1].id == id;
        }
      }
      r
  }

  /** The rows satisfying `keep`, in table order (a `WHERE` clause). */
  function Where(rows: seq<Session>, keep: Session -> bool): (r: seq<Session>)
    ensures |r| <= |rows|
    ensures forall s :: s in r <==> s in rows && keep(s)
    ensures multiset(r) <= multiset(rows)
  {
    if |rows| == 0 then []
    else
      assert rows == [rows[0]] + rows[1..];
      (if keep(rows[0]) then [rows[0]] else []) + Where(rows[1..], keep)
  }

  /** Dropping rows keeps the remaining ids unique. */
  lemma {:induction false} WhereKeepsIdsUnique(rows: seq<Session>, keep: Session -> bool)
    requires UniqueIds(rows)
    ensures UniqueIds(Where(rows, keep))
  {
    if |rows| > 0 {
      WhereKeepsIdsUnique(rows[1..], keep);
      var rest := Where(rows[1..], keep);
      forall x | x in rest ensures x.id != rows[0].id {
        assert x in rows[1..];
        var k :| 0 <= k < |rows[1..]| && rows[1..][k] == x;
        assert rows[k + 1] == x;
      }
    }
  }

  /** `DELETE FROM sessions WHERE id = $1`. */
  function WithoutId(rows: seq<Session>, id: string): (r: seq<Session>)
    ensures |r| <= |rows|
    ensures forall s :: s in r <==> s in rows && s.id != id
  {
    Where(rows, (s: Session) => s.id != id)
  }

  /** `UPDATE sessions SET metadata = $1, updated_at = NOW() WHERE id = $2`. */
  function UpdateRows(rows: seq<Session>, id: string, metadata: map<string, Json>, now: int): (r: seq<Session>)
    ensures |r| == |rows|
    ensures forall i :: 0 <= i < |rows| ==>
      r[i] == if rows[i].id == id then rows[i].(metadata := metadata, updatedAt := now) else rows[i]
  {
    if |rows| == 0 then []
    else
      [if rows[0].id == id then rows[0].(metadata := metadata, updatedAt := now) else rows[0]]
        + UpdateRows(rows[1..], id, metadata, now)
  }

  /** The rows that `cleanup_expired_sessions()` keeps. */
  function Unexpired(rows: seq<Session>, now: int): (r: seq<Session>)
    ensures |r| <= |rows|
    ensures forall s :: s in r <==> s in rows && !Expired(s, now)
  {
    Where(rows, (s: Session) => !Expired(s, now))
  }

  /** The cleanup keeps primary keys unique. */
  lemma UnexpiredKeepsIdsUnique(rows: seq<Session>, now: int)
    requires UniqueIds(rows)
    ensures UniqueIds(Unexpired(rows, now))
  {
    WhereKeepsIdsUnique(rows, (s: Session) => !Expired(s, now));
  }

  /** The sessions owned by `userId`, in the given order. */
  function OwnedBy(ss: seq<Session>, userId: string): (r: seq<Session>)
    ensures |r| <= |ss|
    ensures forall s :: s in r <==> s in ss && s.userId == Some(userId)
    ensures multiset(r) <= multiset(ss)
  {
    Where(ss, (s: Session) => s.userId == Some(userId))
  }

  /** Where `slice(0, limit)` ends on an array of length `n`: a negative
      limit counts back from the end. */
  function SliceEnd(n: nat, limit: int): (e: nat)
    ensures e <= n
    ensures limit >= 0 ==> e == Min(limit, n)
    ensures limit < 0 ==> e == if n + limit > 0 then n + limit else 0
  {
    if limit >= 0 then Min(limit, n) else if n + limit > 0 then n + limit else 0
  }

  // ---- ORDER BY created_at DESC ---------------------------------------

  predicate NewestFirst(ss: seq<Session>) {
    forall i, j :: 0 <= i < j < |ss| ==> ss[i].createdAt >= ss[j].createdAt
  }

  /** One step of `ORDER BY created_at DESC`: `s` goes before the first
      row that is not newer than it. */
  function InsertByCreated(s: Session, sorted: seq<Session>): (r: seq<Session>)
    ensures |r| == |sorted| + 1
    ensures s in r
    ensures forall x :: x in sorted ==> x in r
    decreases |sorted|
  {
    if |sorted| == 0 then [s]
    else if s.createdAt >= sorted[0].createdAt then [s] + sorted
    else [sorted[0]] + InsertByCreated(s, sorted[1..])
  }

  /** Inserting adds exactly the new session. */
  lemma {:induction false} InsertByCreatedAddsOne(s: Session, sorted: seq<Session>)
    ensures multiset(InsertByCreated(s, sorted)) == multiset(sorted) + multiset{s}
    decreases |sorted|
  {
    if |sorted| > 0 && s.createdAt < sorted[0].createdAt {
      var head, tail := sorted[0], sorted[1..];
      assert sorted == [head] + tail;
      InsertByCreatedAddsOne(s, tail);
      assert InsertByCreated(s, sorted) == [head] + InsertByCreated(s, tail);
    }
  }

  /** Inserting into a newest-first list keeps it newest-first. */
  lemma {:induction false} InsertByCreatedSorted(s: Session, sorted: seq<Session>)
    requires NewestFirst(sorted)
    ensures NewestFirst(InsertByCreated(s, sorted))
    decreases |sorted|
  {
    if |sorted| == 0 {
    } else if s.createdAt >= sorted[0].createdAt {
      PrependNewest(s, sorted);
    } else {
      var head, tail := sorted[0], sorted[1..];
      assert sorted == [head] + tail;
      InsertByCreatedSorted(s, tail);
      var rest := InsertByCreated(s, tail);
      InsertByCreatedAddsOne(s, tail);
      NoneNewerThanHead(head, s, tail, rest);
      PrependNewest(head, rest);
      assert InsertByCreated(s, sorted) == [head] + rest;
    }
  }

  /** Every session of `rest`, a rearrangement of `tail` plus `s`, is no
      newer than `head`. */
  lemma NoneNewerThanHead(head: Session, s: Session, tail: seq<Session>, rest: seq<Session>)
    requires NewestFirst([head] + tail) && s.createdAt < head.createdAt
    requires multiset(rest) == multiset(tail) + multiset{s}
    ensures forall x :: x in rest ==> head.createdAt >= x.createdAt
  {
    forall x | x in rest ensures head.createdAt >= x.createdAt {
      assert x in multiset(rest);
      if x != s {
        var k :| 0 <= k < |tail| && tail[k] == x;
        assert ([head] + tail)[0] == head && ([head] + tail)[k + 1] == x;
      }
    }
  }

  /** A session no older than any of a newest-first list may go in front. */
  lemma PrependNewest(x: Session, ss: seq<Session>)
    requires NewestFirst(ss)
    requires forall y :: y in ss ==> x.createdAt >= y.createdAt
    ensures NewestFirst([x] + ss)
  {
    forall i, j | 0 <= i < j < |[x] + ss| ensures ([x] + ss)[i].createdAt >= ([x] + ss)[j].createdAt {
      if i == 0 {
        assert ss[j - 1] in ss;
      }
    }
  }

  /** Inserting the first row into the sorted rest sorts all the rows. */
  lemma SortStep(rows: seq<Session>, rest: seq<Session>)
    requires |rows| > 0 && NewestFirst(rest) && multiset(rest) == multiset(rows[1..])
    ensures NewestFirst(InsertByCreated(rows[0], rest))
    ensures multiset(InsertByCreated(rows[0], rest)) == multiset(rows)
    ensures |InsertByCreated(rows[0], rest)| == |rows|
  {
    InsertByCreatedSorted(rows[0], rest);
    InsertByCreatedAddsOne(rows[0], rest);
    assert rows == [rows[0]] + rows[1..];
    assert |multiset(InsertByCreated(rows[0], rest))| == |multiset(rows)|;
  }

  /** The rows in `ORDER BY created_at DESC` order (ties in table order). */
  function SortNewestFirst(rows: seq<Session>): (r: seq<Session>)
    ensures NewestFirst(r)
    ensures multiset(r) == multiset(rows)
    ensures |r| == |rows|
  {
    if |rows| == 0 then []
    else
      var rest := SortNewestFirst(rows[1..]);
      SortStep(rows, rest);
      InsertByCreated(rows[0], rest)
  }

  /** `ORDER BY created_at DESC LIMIT n`: the first `n` rows newest first. */
  function NewestOf(rows: seq<Session>, n: nat): (r: seq<Session>)
    ensures NewestFirst(r) && |r| == Min(n, |rows|)
  {
    SortNewestFirst(rows)[..Min(n, |rows|)]
  }

  /** The rows `LIMIT` leaves out are none of them newer than any row it
      keeps: together they are the input, and each dropped row is at most
      as new as each kept one. */
  lemma NewestOfKeepsNewest(rows: seq<Session>, n: nat)
    ensures multiset(NewestOf(rows, n)) <= multiset(rows)
    ensures forall t :: t in multiset(rows) - multiset(NewestOf(rows, n)) ==>
              forall s :: s in NewestOf(rows, n) ==> t.createdAt <= s.createdAt
  {
    var sorted := SortNewestFirst(rows);
    var k := Min(n, |rows|);
    SplitAt(sorted, k);
    DroppedNoNewer(sorted, k);
  }

  /** Cutting a sequence in two splits its multiset the same way. */
  lemma SplitAt(ss: seq<Session>, k: nat)
    requires k <= |ss|
    ensures multiset(ss[..k]) <= multiset(ss)
    ensures multiset(ss) - multiset(ss[..k]) == multiset(ss[k..])
  {
    assert ss == ss[..k] + ss[k..];
  }

  /** In a newest-first list, everything after a cut is no newer than
      anything before it. */
  lemma DroppedNoNewer(ss: seq<Session>, k: nat)
    requires NewestFirst(ss) && k <= |ss|
    ensures forall t, s :: t in ss[k..] && s in ss[..k] ==> t.createdAt <= s.createdAt
  {
    forall t, s | t in ss[k..] && s in ss[..k] ensures t.createdAt <= s.createdAt {
      var j :| 0 <= j < |ss| - k && ss[k..][j] == t;
      var i :| 0 <= i < k && ss[..k][i] == s;
      assert ss[i] == s && ss[k + j] == t;
    }
  }

  // ---- Row-sequence algebra -------------------------------------------

  /** A `WHERE` clause distributes over concatenation. */
  lemma {:induction false} WhereAppend(a: seq<Session>, b: seq<Session>, keep: Session -> bool)
    ensures Where(a + b, keep) == Where(a, keep) + Where(b, keep)
  {
    if |a| == 0 {
      assert a + b == b;
    } else {
      assert (a + b)[0] == a[0];
      assert (a + b)[1..] == a[1..] + b;
      WhereAppend(a[1..], b, keep);
    }
  }

  /** A `WHERE` clause every row satisfies keeps them all. */
  lemma {:induction false} WhereAll(rows: seq<Session>, keep: Session -> bool)
    requires forall i :: 0 <= i < |rows| ==> keep(rows[i])
    ensures Where(rows, keep) == rows
  {
    if |rows| > 0 {
      WhereAll(rows[1..], keep);
      assert rows == [rows[0]] + rows[1..];
    }
  }

  /** `WHERE` over a single row. */
  lemma WhereSingle(s: Session, keep: Session -> bool)
    ensures Where([s], keep) == if keep(s) then [s] else []
  {
    assert [s][1..] == [];
  }

  /** Deleting the id of a row that sits alone between `kept` and `rest`
      leaves the two joined. */
  lemma DeleteSoleRow(kept: seq<Session>, s: Session, rest: seq<Session>)
    requires forall x :: x in kept ==> x.id != s.id
    requires forall x :: x in rest ==> x.id != s.id
    ensures WithoutId(kept + ([s] + rest), s.id) == kept + rest
  {
    var ne := (x: Session) => x.id != s.id;
    WhereAll(kept, ne);
    WhereAll(rest, ne);
    WhereSingle(s, ne);
    assert Where([s], ne) == [];
    WhereAppend([s], rest, ne);
    assert Where([s] + rest, ne) == rest;
    WhereAppend(kept, [s] + rest, ne);
    assert Where(kept + ([s] + rest), ne) == kept + rest;
  }

  /** The unexpired rows of a prefix extended by one row. */
  lemma UnexpiredSnoc(done: seq<Session>, s: Session, now: int)
    ensures Unexpired(done + [s], now)
      == Unexpired(done, now) + (if Expired(s, now) then [] else [s])
  {
    var live := (x: Session) => !Expired(x, now);
    WhereAppend(done, [s], live);
    WhereSingle(s, live);
  }

  /** The entries after a sweep has visited the first `i` of them: the
      unexpired ones among those, then the rest untouched. */
  function Swept(entries: seq<Session>, i: int, now: int): (r: seq<Session>)
    requires 0 <= i <= |entries|
    ensures |r| <= |entries|
  {
    Unexpired(entries[..i], now) + entries[i..]
  }

  /** One visit of the sweep: after deleting the visited entry if it has
      expired, the unexpired entries seen so far are followed by the entries
      still to visit. */
  lemma SweepStep(entries: seq<Session>, i: int, now: int)
    requires UniqueIds(entries) && 0 <= i < |entries|
    ensures Expired(entries[i], now) ==>
      WithoutId(Swept(entries, i, now), entries[i].id) == Swept(entries, i + 1, now)
    ensures !Expired(entries[i], now) ==> Swept(entries, i, now) == Swept(entries, i + 1, now)
    ensures |Unexpired(entries[..i + 1], now)|
      == |Unexpired(entries[..i], now)| + (if Expired(entries[i], now) then 0 else 1)
  {
    var s, done, rest := entries[i], entries[..i], entries[i + 1..];
    var kept := Unexpired(done, now);
    assert entries[..i + 1] == done + [s];
    assert entries[i..] == [s] + rest;
    UnexpiredSnoc(done, s, now);
    if Expired(s, now) {
      forall x | x in kept ensures x.id != s.id {
        var j :| 0 <= j < i && entries[j] == x;
      }
      forall x | x in rest ensures x.id != s.id {
        var j :| 0 <= j < |rest| && rest[j] == x;
        assert entries[i + 1 + j] == x;
      }
      DeleteSoleRow(kept, s, rest);
      assert Unexpired(entries[..i + 1], now) == kept + [];
      assert kept + [] == kept;
    } else {
      assert Unexpired(entries[..i + 1], now) == kept + [s];
      assert kept + ([s] + rest) == (kept + [s]) + rest;
    }
  }

  /** `rows` with every row whose id is `s.id` replaced by `s`. */
  function ReplaceRow(rows: seq<Session>, s: Session): (r: seq<Session>)
    ensures |r| == |rows|
    ensures forall i :: 0 <= i < |rows| ==> r[i] == if rows[i].id == s.id then s else rows[i]
  {
    if |rows| == 0 then []
    else [if rows[0].id == s.id then s else rows[0]] + ReplaceRow(rows[1..], s)
  }

  /** `map.set(s.id, s)` on a Map kept as its entries in insertion order: a
      new key goes last, an existing key keeps its place. */
  function SetEntry(entries: seq<Session>, s: Session): (r: seq<Session>)
    ensures HasRow(entries, s.id) ==> r == ReplaceRow(entries, s)
    ensures !HasRow(entries, s.id) ==> r == entries + [s]
  {
    if HasRow(entries, s.id) then ReplaceRow(entries, s) else entries + [s]
  }

  /** Setting an entry keeps keys unique, and the entry is then found. */
  lemma SetEntryKeepsIdsUnique(entries: seq<Session>, s: Session)
    requires UniqueIds(entries)
    ensures UniqueIds(SetEntry(entries, s))
    ensures FindRow(SetEntry(entries, s), s.id) == Some(s)
  {
    var r := SetEntry(entries, s);
    if HasRow(entries, s.id) {
      assert forall i :: 0 <= i < |r| ==> r[i].id == entries[i].id;
      var i :| 0 <= i < |entries| && entries[i].id == s.id;
      FindRowUnique(r, i);
    } else {
      forall i, j | 0 <= i < j < |r| ensures r[i].id != r[j].id {
        if j == |entries| {
          assert r[i] == entries[i];
        }
      }
      FindRowUnique(r, |entries|);
    }
  }

  /** With unique ids, looking up the id of the row at `i` finds that row. */
  lemma {:induction false} FindRowUnique(rows: seq<Session>, i: int)
    requires UniqueIds(rows) && 0 <= i < |rows|
    ensures FindRow(rows, rows[i].id) == Some(rows[i])
  {
    if i > 0 {
      assert rows[0].id != rows[i].id;
      assert UniqueIds(rows[1..]) by {
        forall a, b | 0 <= a < b < |rows[1..]| ensures rows[1..][a].id != rows[1..][b].id {
          assert rows[1..][a] == rows[a + 1] && rows[1..][b] == rows[b + 1];
        }
      }
      FindRowUnique(rows[1..], i - 1);
      assert rows[1..][i - 1] == rows[i];
    }
  }

  /** What `getById(id)` yields over the given store and memory: memory
      alone when the database is not ready, otherwise the table's row,
      falling back to memory when the table has none. */
  function Lookup(ready: bool, rows: seq<Session>, memory: seq<Session>, id: string, fault: Option<string>)
    : (r: Result<Option<Session>, Thrown>)
    ensures r.Err? <==> ready && fault.Some?
    ensures r.Err? ==> r.error == Wrapped("Failed to get session", fault.value)
    ensures r == Ok(None) <==> (ready ==> fault.None? && !HasRow(rows, id)) && !HasRow(memory, id)
    ensures r.Ok? && r.value.Some? ==> r.value.value.id == id && (r.value.value in rows || r.value.value in memory)
    ensures ready && fault.None? && HasRow(rows, id) ==> r.value.value in rows
  {
    if !ready then Ok(FindRow(memory, id))
    else if fault.Some? then Err(Wrapped("Failed to get session", fault.value))
    else if HasRow(rows, id) then Ok(FindRow(rows, id))
    else Ok(FindRow(memory, id))
  }

  class SessionRepository {
    const db: Database
    /** The in-memory Map's entries, in insertion order; the key of an
        entry is its session's id. */
    var memory: seq<Session>

    ghost predicate Valid()
      reads this, db
    {
      UniqueIds(memory) && UniqueIds(db.sessions)
    }

    constructor (db: Database)
      requires UniqueIds(db.sessions)
      ensures Valid() && this.db == db && memory == []
    {
      this.db := db;
      memory := [];
    }

    /** `inMemorySessions.delete(id)`. */
    method DeleteEntry(id: string)
      requires Valid()
      modifies this`memory
      ensures Valid()
      ensures memory == WithoutId(old(memory), id)
      ensures !HasRow(memory, id)
    {
      WhereKeepsIdsUnique(memory, (x: Session) => x.id != id);
      memory := WithoutId(memory, id);
    }

    /** `create(userId?, metadata?)`. `newId` is the fresh UUID (from
        `crypto.randomUUID()` or the table's default). */
    method Create(
      userId: Option<string>,
      metadata: Option<map<string, Json>>,
      newId: string,
      now: int,
      outcome: InsertOutcome)
      returns (r: Result<Session, Thrown>)
      requires Valid()
      modifies this`memory, db`sessions
      ensures Valid()
      ensures !db.ready ==>
        && r == Ok(Session(newId, OrNone(userId), now, now, now + ExpiryMs, metadata.GetOr(map[])))
        && memory == SetEntry(old(memory), r.value)
        && FindRow(memory, newId) == Some(r.value)
        && db.sessions == old(db.sessions)
      ensures db.ready ==> memory == old(memory)
      ensures db.ready && outcome.Inserted? && !HasRow(old(db.sessions), newId) ==>
        && r == Ok(Session(newId, OrNone(userId), now, now, now + ExpiryMs, metadata.GetOr(map[])))
        && db.sessions == old(db.sessions) + [r.value]
      ensures db.ready && outcome.Inserted? && HasRow(old(db.sessions), newId) ==>
        r == Err(QueryError(DuplicateKey)) && db.sessions == old(db.sessions)
      ensures db.ready && outcome.NoRowReturned? ==>
        r == Err(App(DatabaseError("Failed to create session", None))) && db.sessions == old(db.sessions)
      ensures db.ready && outcome.InsertFailed? ==>
        r == Err(QueryError(outcome.reason)) && db.sessions == old(db.sessions)
    {
      var session := Session(newId, OrNone(userId), now, now, now + ExpiryMs, metadata.GetOr(map[]));
      if !db.ready {
        SetEntryKeepsIdsUnique(memory, session);
        memory := SetEntry(memory, session);
        return Ok(session);
      }
      match outcome
      case InsertFailed(reason) =>
        r := Err(QueryError(reason));
      case NoRowReturned =>
        r := Err(App(DatabaseError("Failed to create session", None)));
      case Inserted =>
        if HasRow(db.sessions, newId) {
          r := Err(QueryError(DuplicateKey));
        } else {
          ghost var rows := db.sessions;
          db.sessions := db.sessions + [session];
          forall i, j | 0 <= i < j < |db.sessions| ensures db.sessions[i].id != db.sessions[j].id {
            if j == |rows| {
              assert db.sessions[i] == rows[i];
            }
          }
          r := Ok(session);
        }
    }

    /** `getById(id)`: in database mode a missing row falls back to memory. */
    method GetById(id: string, fault: Option<string>) returns (r: Result<Option<Session>, Thrown>)
      requires Valid()
      ensures !db.ready ==> r == Ok(FindRow(memory, id))
      ensures db.ready && fault.Some? ==> r == Err(Wrapped("Failed to get session", fault.value))
      ensures db.ready && fault.None? && HasRow(db.sessions, id) ==>
        r == Ok(FindRow(db.sessions, id))
      ensures db.ready && fault.None? && !HasRow(db.sessions, id) ==>
        r == Ok(FindRow(memory, id))
      ensures r.Ok? && r.value.Some? ==> r.value.value.id == id
      ensures r.Ok? && r.value.None? ==> !HasRow(memory, id)
      ensures r == Lookup(db.ready, db.sessions, memory, id, fault)
    {
      if !db.ready {
        return Ok(FindRow(memory, id));
      }
      if fault.Some? {
        return Err(Wrapped("Failed to get session", fault.value));
      }
      var row := FindRow(db.sessions, id);
      r := if row.Some? then Ok(row) else Ok(FindRow(memory, id));
    }

    /** `getByUserId(userId, limit)`: in memory, the first `limit` of the
        user's sessions in insertion order; in the database, the user's
        newest `limit` sessions. */
    method GetByUserId(userId: string, fault: Option<string>, limit: int := DefaultUserLimit)
      returns (r: Result<seq<Session>, Thrown>)
      requires Valid()
      ensures r.Ok? ==> forall s :: s in r.value ==> s.userId == Some(userId)
      ensures r.Ok? && limit >= 0 ==> |r.value| <= limit
      ensures !db.ready ==>
        var owned := OwnedBy(memory, userId);
        r == Ok(owned[..SliceEnd(|owned|, limit)])
      ensures db.ready ==> (r.Ok? <==> fault.None? && limit >= 0)
      ensures db.ready && fault.Some? ==> r == Err(Wrapped("Failed to get sessions by user", fault.value))
      ensures db.ready && fault.None? && limit < 0 ==>
        r == Err(Wrapped("Failed to get sessions by user", NegativeLimit))
      ensures db.ready && r.Ok? ==>
        && NewestFirst(r.value)
        && |r.value| == Min(limit, |OwnedBy(db.sessions, userId)|)
        && multiset(r.value) <= multiset(OwnedBy(db.sessions, userId))
        && r.value == NewestOf(OwnedBy(db.sessions, userId), limit)
    {
      if !db.ready {
        var owned := OwnedBy(memory, userId);
        return Ok(owned[..SliceEnd(|owned|, limit)]);
      }
      if fault.Some? {
        return Err(Wrapped("Failed to get sessions by user", fault.value));
      }
      if limit < 0 {
        return Err(Wrapped("Failed to get sessions by user", NegativeLimit));
      }
      var owned := OwnedBy(db.sessions, userId);
      var taken := NewestOf(owned, limit);
      assert multiset(taken) <= multiset(owned) by { NewestOfKeepsNewest(owned, limit); }
      forall s | s in taken ensures s.userId == Some(userId) {
        assert s in multiset(owned);
      }
      r := Ok(taken);
    }

    /** `updateMetadata(id, patch)`: in memory the patch is merged over the
        old metadata of the stored object; in the database the metadata is
        replaced. */
    method UpdateMetadata(id: string, patch: map<string, Json>, now: int, fault: Option<string>)
      returns (r: Result<Session, Thrown>)
      requires Valid()
      modifies this`memory, db`sessions
      ensures Valid()
      ensures !db.ready && !HasRow(old(memory), id) ==>
        r == Err(App(NotFoundError(Some("Session")))) && memory == old(memory)
      ensures !db.ready && HasRow(old(memory), id) ==>
        var s := FindRow(old(memory), id).value;
        && r == Ok(s.(metadata := s.metadata + patch, updatedAt := now))
        && memory == ReplaceRow(old(memory), r.value)
      ensures !db.ready ==> db.sessions == old(db.sessions)
      ensures db.ready ==> memory == old(memory)
      ensures db.ready && fault.Some? ==>
        r == Err(Wrapped("Failed to update session metadata", fault.value))
        && db.sessions == old(db.sessions)
      ensures db.ready && fault.None? && !HasRow(old(db.sessions), id) ==>
        r == Err(App(NotFoundError(Some("Session")))) && db.sessions == old(db.sessions)
      ensures db.ready && fault.None? && HasRow(old(db.sessions), id) ==>
        && db.sessions == UpdateRows(old(db.sessions), id, patch, now)
        && r == Ok(FindRow(old(db.sessions), id).value.(metadata := patch, updatedAt := now))
      ensures r.Ok? ==> r.value.id == id && r.value.updatedAt == now
    {
      if !db.ready {
        var found := FindRow(memory, id);
        if found.None? {
          return Err(App(NotFoundError(Some("Session"))));
        }
        var s := found.value;
        var updated := s.(metadata := s.metadata + patch, updatedAt := now);
        var rows := ReplaceRow(memory, updated);
        assert forall i :: 0 <= i < |rows| ==> rows[i].id == memory[i].id;
        memory := rows;
        return Ok(updated);
      }
      if fault.Some? {
        return Err(Wrapped("Failed to update session metadata", fault.value));
      }
      var old_rows := db.sessions;
      var row := FindRow(old_rows, id);
      if row.None? {
        return Err(App(NotFoundError(Some("Session"))));
      }
      var rows := UpdateRows(old_rows, id, patch, now);
      assert forall i :: 0 <= i < |rows| ==> rows[i].id == old_rows[i].id;
      db.sessions := rows;
      r := Ok(row.value.(metadata := patch, updatedAt := now));
    }

    /** `delete(id)`: true iff something was removed. */
    method Delete(id: string, fault: Option<string>) returns (r: Result<bool, Thrown>)
      requires Valid()
      modifies this`memory, db`sessions
      ensures Valid()
      ensures !db.ready ==>
        && r == Ok(HasRow(old(memory), id))
        && memory == WithoutId(old(memory), id)
        && db.sessions == old(db.sessions)
      ensures db.ready && fault.Some? ==>
        && r == Err(Wrapped("Failed to delete session", fault.value))
        && memory == old(memory) && db.sessions == old(db.sessions)
      ensures db.ready && fault.None? ==>
        && r == Ok(HasRow(old(db.sessions), id) || HasRow(old(memory), id))
        && db.sessions == WithoutId(old(db.sessions), id)
        && memory == WithoutId(old(memory), id)
      ensures r.Ok? ==> !HasRow(memory, id)
      ensures db.ready && r.Ok? ==> !HasRow(db.sessions, id)
    {
      var inMemory := HasRow(memory, id);
      if !db.ready {
        DeleteEntry(id);
        return Ok(inMemory);
      }
      if fault.Some? {
        return Err(Wrapped("Failed to delete session", fault.value));
      }
      var deletedRow := HasRow(db.sessions, id);
      var rows := WithoutId(db.sessions, id);
      WhereKeepsIdsUnique(db.sessions, (s: Session) => s.id != id);
      db.sessions := rows;
      DeleteEntry(id);
      r := Ok(deletedRow || inMemory);
    }

    /** `isValid(id)`: present and not yet expired; never throws. */
    method IsValid(id: string, now: int, fault: Option<string>) returns (valid: bool)
      requires Valid()
      ensures !db.ready ==> (valid <==> HasRow(memory, id) && Live(FindRow(memory, id).value, now))
      ensures db.ready ==>
        (valid <==> fault.None? && HasRow(db.sessions, id) && Live(FindRow(db.sessions, id).value, now))
    {
      var rows := if db.ready then db.sessions else memory;
      if db.ready && fault.Some? {
        return false;
      }
      var row := FindRow(rows, id);
      valid := row.Some? && Live(row.value, now);
    }

    /** The loop of `cleanupExpired()` over the in-memory entries, deleting
        each expired one as it is visited and counting the deletions. */
    method SweepMemory(now: int) returns (count: int)
      requires Valid()
      modifies this`memory
      ensures Valid()
      ensures memory == Unexpired(old(memory), now)
      ensures count == |old(memory)| - |memory|
    {
      count := 0;
      var entries := memory;
      var i := 0;
      while i < |entries|
        invariant 0 <= i <= |entries| && entries == old(memory)
        invariant Valid()
        invariant memory == Swept(entries, i, now)
        invariant count == i - |Unexpired(entries[..i], now)|
      {
        var s := entries[i];
        SweepStep(entries, i, now);
        if Expired(s, now) {
          DeleteEntry(s.id);
          count := count + 1;
        }
        i := i + 1;
      }
      assert entries[..i] == entries && entries[i..] == [];
    }

    /** `SELECT cleanup_expired_sessions()`, read as deleting the expired rows
        and answering how many went. */
    method SweepTable(now: int) returns (removed: int)
      requires Valid()
      modifies db`sessions
      ensures Valid()
      ensures db.sessions == Unexpired(old(db.sessions), now)
      ensures removed == |old(db.sessions)| - |db.sessions|
    {
      var before := db.sessions;
      UnexpiredKeepsIdsUnique(before, now);
      db.sessions := Unexpired(before, now);
      removed := |before| - |db.sessions|;
    }

    /** `cleanupExpired()`: sweeps the in-memory map, then (in database mode)
        the table; the count is what was removed. */
    method CleanupExpired(now: int, fault: Option<string>) returns (r: Result<int, Thrown>)
      requires Valid()
      modifies this`memory, db`sessions
      ensures Valid()
      ensures memory == Unexpired(old(memory), now)
      ensures !db.ready ==>
        r == Ok(|old(memory)| - |memory|) && db.sessions == old(db.sessions)
      ensures db.ready && fault.Some? ==>
        r == Err(Wrapped("Failed to cleanup expired sessions", fault.value))
        && db.sessions == old(db.sessions)
      ensures db.ready && fault.None? ==>
        && db.sessions == Unexpired(old(db.sessions), now)
        && r == Ok((|old(db.sessions)| - |db.sessions|) + (|old(memory)| - |memory|))
    {
      var count := SweepMemory(now);
      if !db.ready {
        return Ok(count);
      }
      if fault.Some? {
        return Err(Wrapped("Failed to cleanup expired sessions", fault.value));
      }
      var removed := SweepTable(now);
      r := Ok(removed + count);
    }
  }
}
