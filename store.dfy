/**
 * The download repository (backend/internal/persistence/sqlite/downloads.go)
 * as a map from id to record. Every statement the services issue is a
 * `Write`; whether a statement fails is decided by a fixed set of failing
 * writes, and an insert also fails when its id is already taken (the id is
 * the table's primary key). Updates and deletes of a missing id succeed and
 * change nothing, as an UPDATE or DELETE matching no row does.
 */
module Store {
  import opened Strings
  import Models

  type Id = string

  datatype Write =
    | Insert(record: Models.Download)                      // Create
    | Delete(id: Id)                                       // Delete
    | Progress(id: Id, progress: real)                     // UpdateProgress
    | CompletedAt(id: Id, at: int)                         // UpdateCompleted: completed_at only
    | SetStatus(id: Id, status: Models.Status)             // UpdateStatus
    | SetError(id: Id, message: string)                    // UpdateError
    | SetOrganizedPath(id: Id, path: string, at: int)      // UpdateOrganizedPath: path and organized_at

  /** The record a write is about. */
  function Target(w: Write): Id
  {
    if w.Insert? then w.record.id else w.id
  }

  /** Writes that update fields of an existing record and touch neither its
      identity nor its status. */
  predicate FieldUpdate(w: Write)
  {
    w.Progress? || w.CompletedAt? || w.SetError? || w.SetOrganizedPath?
  }

  datatype Attempt = Attempt(write: Write, ok: bool)

  /** The attempt of a write that is not an insert. */
  function Try(w: Write, failing: set<Write>): (a: Attempt)
    ensures a.write == w && (a.ok <==> w !in failing)
  {
    Attempt(w, w !in failing)
  }

  /** What an insert keeps: the columns of the INSERT statement. The torrent
      bytes, the series number and the fields filled in later are not stored. */
  function Stored(d: Models.Download): (s: Models.Download)
    ensures s.id == d.id && s.title == d.title && s.author == d.author && s.series == d.series
    ensures s.torrentURL == d.torrentURL && s.magnetLink == d.magnetLink && s.category == d.category
    ensures s.qbitHash == d.qbitHash && s.status == d.status
    ensures s.torrentBytes == [] && s.seriesNumber == [] && s.organizedPath == [] && s.errorMessage == []
    ensures s.completedAt.None? && s.organizedAt.None?
  {
    d.(seriesNumber := [], torrentBytes := [], progress := 0.0, downloadPath := [], organizedPath := [],
       errorMessage := [], completedAt := None, organizedAt := None)
  }

  /** The records after a successful write. */
  function Applied(records: map<Id, Models.Download>, w: Write): (r: map<Id, Models.Download>)
    ensures w.Insert? ==> r == records[w.record.id := Stored(w.record)]
    ensures w.Delete? ==> r == records - {w.id}
    ensures FieldUpdate(w) || w.SetStatus? ==> r.Keys == records.Keys
    ensures forall k :: k in records && k != Target(w) ==> k in r && r[k] == records[k]
    ensures FieldUpdate(w) && w.id in records ==>
              r[w.id].id == records[w.id].id && r[w.id].qbitHash == records[w.id].qbitHash &&
              r[w.id].status == records[w.id].status
  {
    match w
    case Insert(d) => records[d.id := Stored(d)]
    case Delete(id) => records - {id}
    case _ =>
      if w.id !in records then records
      else
        var d := records[w.id];
        records[w.id := match w
          case Progress(_, p) => d.(progress := p)
          case CompletedAt(_, t) => d.(completedAt := Some(t))
          case SetStatus(_, s) => d.(status := s)
          case SetError(_, m) => d.(errorMessage := m)
          case SetOrganizedPath(_, p, t) => d.(organizedPath := p, organizedAt := Some(t))
          case _ => d]
  }

  /** The records after the successful attempts, applied in order. */
  function ApplyAll(records: map<Id, Models.Download>, attempts: seq<Attempt>): map<Id, Models.Download>
    decreases |attempts|
  {
    if attempts == [] then records
    else ApplyAll(if attempts[0].ok then Applied(records, attempts[0].write) else records, attempts[1..])
  }

  /** Whether a write goes through: not a failing one, and not an insert of a
      taken id. */
  predicate Accepts(records: map<Id, Models.Download>, w: Write, failing: set<Write>)
  {
    w !in failing && !(w.Insert? && w.record.id in records)
  }

  /** The store keys each record by its own id. */
  predicate KeyedById(records: map<Id, Models.Download>)
  {
    forall k :: k in records ==> records[k].id == k
  }

  class DownloadStore {
    var records: map<Id, Models.Download>
    var attempts: seq<Attempt>
    const failing: set<Write>

    constructor(records: map<Id, Models.Download>, failing: set<Write>)
      ensures this.records == records && this.failing == failing && attempts == []
    {
      this.records := records;
      this.failing := failing;
      attempts := [];
    }

    /** One statement. */
    method Perform(w: Write) returns (ok: bool)
      modifies this
      ensures ok == Accepts(old(records), w, failing)
      ensures !w.Insert? ==> ok == (w !in failing)
      ensures attempts == old(attempts) + [Attempt(w, ok)]
      ensures records == ApplyAll(old(records), [Attempt(w, ok)])
    {
      ok := Accepts(records, w, failing);
      if ok {
        records := Applied(records, w);
      }
      attempts := attempts + [Attempt(w, ok)];
    }

    /** GetByID: the stored record, or None when there is none (the read is
        assumed not to fail otherwise). */
    function Get(id: Id): (r: Option<Models.Download>)
      reads this
      ensures r.Some? <==> id in records
      ensures r.Some? ==> r.value == records[id]
    {
      if id in records then Some(records[id]) else None
    }
  }

  /** Applying attempts in two parts. */
  lemma {:induction false} ApplyAllAppend(records: map<Id, Models.Download>, a: seq<Attempt>, b: seq<Attempt>)
    ensures ApplyAll(records, a + b) == ApplyAll(ApplyAll(records, a), b)
    decreases |a|
  {
    if a == [] {
      assert a + b == b;
    } else {
      var next := if a[0].ok then Applied(records, a[0].write) else records;
      assert (a + b)[0] == a[0];
      assert (a + b)[1..] == a[1..] + b;
      ApplyAllAppend(next, a[1..], b);
    }
  }

  /** One attempt applied, in front of the rest. */
  lemma ApplyOne(records: map<Id, Models.Download>, a: Attempt, rest: seq<Attempt>)
    ensures ApplyAll(records, [a] + rest) == ApplyAll(if a.ok then Applied(records, a.write) else records, rest)
  {
    assert ([a] + rest)[1..] == rest;
  }

  /** Field updates never add or remove a record, and never change a record's
      id, hash or status. */
  lemma {:induction false} ApplyAllKeeps(records: map<Id, Models.Download>, attempts: seq<Attempt>)
    requires forall i :: 0 <= i < |attempts| ==> FieldUpdate(attempts[i].write)
    ensures ApplyAll(records, attempts).Keys == records.Keys
    ensures forall k :: k in records ==>
              ApplyAll(records, attempts)[k].id == records[k].id &&
              ApplyAll(records, attempts)[k].qbitHash == records[k].qbitHash &&
              ApplyAll(records, attempts)[k].status == records[k].status
    decreases |attempts|
  {
    if attempts != [] {
      var next := if attempts[0].ok then Applied(records, attempts[0].write) else records;
      assert forall i :: 0 <= i < |attempts| - 1 ==> attempts[1..][i] == attempts[i + 1];
      ApplyAllKeeps(next, attempts[1..]);
    }
  }

  /** Writes keep the store keyed by id. */
  lemma {:induction false} ApplyAllKeyed(records: map<Id, Models.Download>, attempts: seq<Attempt>)
    requires KeyedById(records)
    ensures KeyedById(ApplyAll(records, attempts))
    decreases |attempts|
  {
    if attempts != [] {
      var next := if attempts[0].ok then Applied(records, attempts[0].write) else records;
      assert KeyedById(next);
      ApplyAllKeyed(next, attempts[1..]);
    }
  }
}
