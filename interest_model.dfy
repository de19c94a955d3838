/**
 * The interest collection of backend/src/modules/interests/interest.model.ts:
 * a record per (property, client) pair, unique by the compound index, with an
 * optional message and a creation stamp only; and the two writes the
 * controller performs on it (upsert and delete by key).
 */
module InterestModel {
  import opened Common

  datatype Interest = Interest(id: Id, propertyId: Id, clientId: Id, message: Option<string>, createdAt: int)

  predicate HasKey(x: Interest, propertyId: Id, clientId: Id)
  {
    x.propertyId == propertyId && x.clientId == clientId
  }

  /** The unique compound index `{ propertyId: 1, clientId: 1 }`. */
  predicate KeysUnique(rs: seq<Interest>)
  {
    forall i, j :: 0 <= i < j < |rs| ==> !(rs[i].propertyId == rs[j].propertyId && rs[i].clientId == rs[j].clientId)
  }

  /** The position of the record with this key, if any. */
  function FindKey(rs: seq<Interest>, propertyId: Id, clientId: Id): (r: Option<nat>)
    ensures r.Some? ==> r.value < |rs| && HasKey(rs[r.value], propertyId, clientId)
    ensures r.None? <==> forall i :: 0 <= i < |rs| ==> !HasKey(rs[i], propertyId, clientId)
  {
    if rs == [] then None
    else if HasKey(rs[0], propertyId, clientId) then Some(0)
    else
      var r := FindKey(rs[1..], propertyId, clientId);
      assert forall i :: 1 <= i < |rs| ==> rs[i] == rs[1..][i - 1];
      if r.Some? then Some(r.value + 1) else None
  }

  /**
   * `findOneAndUpdate({ propertyId, clientId }, { message }, { upsert: true })`:
   * the existing record gets the message (an absent message is dropped from the
   * update and leaves the old one), or a new record is inserted.
   */
  function Upserted(rs: seq<Interest>, nextId: Id, propertyId: Id, clientId: Id, message: Option<string>, now: int): seq<Interest>
  {
    match FindKey(rs, propertyId, clientId)
    case Some(i) => rs[i := rs[i].(message := if message.Some? then message else rs[i].message)]
    case None => rs + [Interest(nextId, propertyId, clientId, message, now)]
  }

  /** The document the upsert returns (`new: true`): the updated record, or the inserted one. */
  function UpsertedRecord(rs: seq<Interest>, nextId: Id, propertyId: Id, clientId: Id, message: Option<string>, now: int): Interest
  {
    match FindKey(rs, propertyId, clientId)
    case Some(i) => rs[i].(message := if message.Some? then message else rs[i].message)
    case None => Interest(nextId, propertyId, clientId, message, now)
  }

  /** The table with the record of this key removed (`findOneAndDelete`). */
  function Removed(rs: seq<Interest>, propertyId: Id, clientId: Id): seq<Interest>
  {
    match FindKey(rs, propertyId, clientId)
    case Some(i) => rs[..i] + rs[i + 1..]
    case None => rs
  }

  /**
   * After the upsert there is exactly one record with the key, carrying the
   * new message (or the old one when none was sent); every record with another
   * key is kept, and no record with another key appears; the index stays unique.
   */
  lemma UpsertedMeaning(rs: seq<Interest>, nextId: Id, propertyId: Id, clientId: Id, message: Option<string>, now: int)
    requires KeysUnique(rs)
    ensures var r := Upserted(rs, nextId, propertyId, clientId, message, now);
      && KeysUnique(r)
      && FindKey(r, propertyId, clientId).Some?
      && var k := FindKey(r, propertyId, clientId).value;
      && r[k] == UpsertedRecord(rs, nextId, propertyId, clientId, message, now)
      && (message.Some? || FindKey(rs, propertyId, clientId).None? ==> r[k].message == message)
      && (message.None? && FindKey(rs, propertyId, clientId).Some? ==>
            r[k].message == rs[FindKey(rs, propertyId, clientId).value].message)
      && (forall j :: 0 <= j < |r| && HasKey(r[j], propertyId, clientId) ==> j == k)
      && (forall x :: x in rs && !HasKey(x, propertyId, clientId) ==> x in r)
      && (forall x :: x in r && !HasKey(x, propertyId, clientId) ==> x in rs)
  {
    var r := Upserted(rs, nextId, propertyId, clientId, message, now);
    match FindKey(rs, propertyId, clientId)
    case Some(i) =>
      assert forall j :: 0 <= j < |r| && j != i ==> r[j] == rs[j];
      assert HasKey(r[i], propertyId, clientId);
      forall x | x in rs && !HasKey(x, propertyId, clientId) ensures x in r {
        var j :| 0 <= j < |rs| && rs[j] == x;
        assert j != i && r[j] == x;
      }
    case None =>
      assert r[|rs|].propertyId == propertyId && r[|rs|].clientId == clientId;
      assert forall j :: 0 <= j < |rs| ==> r[j] == rs[j];
  }

  /** Upserting twice with the same key and message is the same as upserting once. */
  lemma UpsertedIdempotent(rs: seq<Interest>, nextId: Id, propertyId: Id, clientId: Id, message: Option<string>, now: int, later: int)
    requires KeysUnique(rs)
    ensures var once := Upserted(rs, nextId, propertyId, clientId, message, now);
      Upserted(once, nextId + 1, propertyId, clientId, message, later) == once
  {
    var once := Upserted(rs, nextId, propertyId, clientId, message, now);
    UpsertedMeaning(rs, nextId, propertyId, clientId, message, now);
    var k := FindKey(once, propertyId, clientId).value;
    if message.None? {
      assert once[k := once[k].(message := once[k].message)] == once;
    } else {
      assert once[k].message == message;
      assert once[k := once[k].(message := message)] == once;
    }
  }

  /**
   * Removal drops exactly the record with the key when there is one (and
   * nothing otherwise): afterwards no record has the key, and the records with
   * other keys are exactly the old ones.
   */
  lemma RemovedMeaning(rs: seq<Interest>, propertyId: Id, clientId: Id)
    requires KeysUnique(rs)
    ensures var r := Removed(rs, propertyId, clientId);
      && KeysUnique(r)
      && (FindKey(rs, propertyId, clientId).Some? ==> |r| == |rs| - 1)
      && (FindKey(rs, propertyId, clientId).None? ==> r == rs)
      && (forall x :: x in r ==> !HasKey(x, propertyId, clientId))
      && (forall x :: x in rs && !HasKey(x, propertyId, clientId) <==> x in r)
  {
    var r := Removed(rs, propertyId, clientId);
    match FindKey(rs, propertyId, clientId)
    case Some(i) =>
      assert forall j :: 0 <= j < i ==> r[j] == rs[j];
      assert forall j :: i <= j < |r| ==> r[j] == rs[j + 1];
      forall x | x in rs && !HasKey(x, propertyId, clientId) ensures x in r {
        var j :| 0 <= j < |rs| && rs[j] == x;
        if j < i { assert r[j] == x; } else { assert j > i && r[j - 1] == x; }
      }
      forall x | x in r ensures !HasKey(x, propertyId, clientId) && x in rs {
        var j :| 0 <= j < |r| && r[j] == x;
        if j < i { assert rs[j] == x; } else { assert rs[j + 1] == x; }
      }
    case None =>
  }

  class InterestStore {
    var records: seq<Interest>
    var nextId: nat

    ghost predicate Valid()
      reads this
    {
      KeysUnique(records)
    }

    constructor ()
      ensures Valid() && records == []
    {
      records := [];
      nextId := 0;
    }

    /** The upsert, returning the document as it is after the write (`new: true`). */
    method Upsert(propertyId: Id, clientId: Id, message: Option<string>, now: int) returns (r: Interest)
      requires Valid()
      modifies this
      ensures Valid()
      ensures records == Upserted(old(records), old(nextId), propertyId, clientId, message, now)
      ensures r == UpsertedRecord(old(records), old(nextId), propertyId, clientId, message, now)
      ensures r in records && HasKey(r, propertyId, clientId)
    {
      UpsertedMeaning(records, nextId, propertyId, clientId, message, now);
      var i := FindKey(records, propertyId, clientId);
      if i.Some? {
        var updated := records[i.value].(message := if message.Some? then message else records[i.value].message);
        records := records[i.value := updated];
        r := updated;
      } else {
        r := Interest(nextId, propertyId, clientId, message, now);
        records := records + [r];
        nextId := nextId + 1;
      }
    }

    /** `findOneAndDelete({ clientId, propertyId })`, returning the deleted record. */
    method DeleteKey(propertyId: Id, clientId: Id) returns (r: Option<Interest>)
      requires Valid()
      modifies this
      ensures Valid()
      ensures records == Removed(old(records), propertyId, clientId)
      ensures r.Some? <==> FindKey(old(records), propertyId, clientId).Some?
      ensures r.Some? ==> r.value in old(records) && HasKey(r.value, propertyId, clientId)
    {
      RemovedMeaning(records, propertyId, clientId);
      var i := FindKey(records, propertyId, clientId);
      if i.None? {
        return None;
      }
      r := Some(records[i.value]);
      records := records[..i.value] + records[i.value + 1..];
    }
  }
}
