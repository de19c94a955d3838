/**
 * The property collection of backend/src/modules/properties/property.model.ts:
 * the record with its embedded location, the schema's required fields, enum and
 * defaults, and the collection operations the controller uses
 * (`create`, `findById`, `findOneAndUpdate`, `findOneAndDelete`).
 */
module PropertyModel {
  import opened Common

  /** The embedded location: no id of its own, every field optional. */
  datatype Location = Location(
    address: Option<string>,
    city: Option<string>,
    state: Option<string>,
    country: Option<string>,
    lat: Option<int>,
    lng: Option<int>)

  const Statuses: seq<string> := ["available", "sold", "pending"]
  const DefaultStatus: string := "available"

  datatype Property = Property(
    id: Id,
    title: string,
    description: Option<string>,
    price: int,
    location: Location,
    bedrooms: Option<int>,
    bathrooms: Option<int>,
    areaSqFt: Option<int>,
    images: seq<string>,
    amenities: seq<string>,
    status: string,
    agentId: Id,
    createdAt: int,
    updatedAt: int)

  /** A request body for create or patch: every schema field may be absent. */
  datatype PropertyInput = PropertyInput(
    title: Option<string>,
    description: Option<string>,
    price: Option<int>,
    location: Option<Location>,
    bedrooms: Option<int>,
    bathrooms: Option<int>,
    areaSqFt: Option<int>,
    images: Option<seq<string>>,
    amenities: Option<seq<string>>,
    status: Option<string>,
    agentId: Option<Id>)

  /** What the schema's validators guarantee of a document they accepted. */
  predicate SchemaValid(p: Property)
  {
    p.title != "" && p.status in Statuses
  }

  function OrElse<T>(o: Option<T>, default: T): T
  {
    if o.Some? then o.value else default
  }

  /**
   * `Property.create({ ...data, agentId })`: required title (non-empty),
   * price and location, status in the enum; images, amenities and status take
   * their defaults; None is the validation error.
   */
  function Created(input: PropertyInput, agent: Id, id: Id, now: int): (r: Option<Property>)
    ensures r.Some? <==>
      && input.title.Some? && input.title.value != ""
      && input.price.Some? && input.location.Some?
      && (input.status.None? || input.status.value in Statuses)
    ensures r.Some? ==> SchemaValid(r.value) && r.value.agentId == agent && r.value.id == id
    ensures r.Some? ==>
      && r.value.title == input.title.value && r.value.price == input.price.value
      && r.value.location == input.location.value
      && r.value.status == (if input.status.Some? then input.status.value else "available")
      && r.value.images == (if input.images.Some? then input.images.value else [])
      && r.value.amenities == (if input.amenities.Some? then input.amenities.value else [])
      && r.value.createdAt == now
  {
    if input.title.Some? && input.title.value != "" && input.price.Some? && input.location.Some?
       && (input.status.None? || input.status.value in Statuses)
    then Some(Property(id, input.title.value, input.description, input.price.value, input.location.value,
                       input.bedrooms, input.bathrooms, input.areaSqFt,
                       OrElse(input.images, []), OrElse(input.amenities, []),
                       OrElse(input.status, DefaultStatus), agent, now, now))
    else None
  }

  /**
   * `findOneAndUpdate(filter, body)`: every field present in the body is set,
   * `updatedAt` is stamped; update validators are off, so the enum and the
   * required checks are not applied, and `agentId` may be overwritten too.
   */
  function Patched(p: Property, patch: PropertyInput, now: int): Property
  {
    p.(title := OrElse(patch.title, p.title),
       description := if patch.description.Some? then patch.description else p.description,
       price := OrElse(patch.price, p.price),
       location := OrElse(patch.location, p.location),
       bedrooms := if patch.bedrooms.Some? then patch.bedrooms else p.bedrooms,
       bathrooms := if patch.bathrooms.Some? then patch.bathrooms else p.bathrooms,
       areaSqFt := if patch.areaSqFt.Some? then patch.areaSqFt else p.areaSqFt,
       images := OrElse(patch.images, p.images),
       amenities := OrElse(patch.amenities, p.amenities),
       status := OrElse(patch.status, p.status),
       agentId := OrElse(patch.agentId, p.agentId),
       updatedAt := now)
  }

  /** An empty patch changes nothing but the update stamp. */
  lemma EmptyPatchOnlyStamps(p: Property, now: int)
    ensures Patched(p, PropertyInput(None, None, None, None, None, None, None, None, None, None, None), now)
         == p.(updatedAt := now)
  {
  }

  /** Patching never changes the record's identity or creation stamp. */
  lemma PatchKeepsIdentity(p: Property, patch: PropertyInput, now: int)
    ensures Patched(p, patch, now).id == p.id && Patched(p, patch, now).createdAt == p.createdAt
  {
  }

  /** Because update validators are off, a patch can store a status outside the enum. */
  lemma PatchCanLeaveEnum(p: Property, now: int)
    requires SchemaValid(p)
    ensures !SchemaValid(Patched(p, PropertyInput(None, None, None, None, None, None, None, None, None, Some("archived"), None), now))
  {
  }

  /** The index of the record with this id (`findById`). */
  function IndexOfId(props: seq<Property>, id: Id): (r: Option<nat>)
    ensures r.Some? ==> r.value < |props| && props[r.value].id == id
    ensures r.None? <==> forall i :: 0 <= i < |props| ==> props[i].id != id
  {
    if props == [] then None
    else if props[0].id == id then Some(0)
    else
      var r := IndexOfId(props[1..], id);
      assert forall i :: 1 <= i < |props| ==> props[i] == props[1..][i - 1];
      if r.Some? then Some(r.value + 1) else None
  }

  /** The index of the record with this id AND this owner (`findOne({ _id, agentId })`). */
  function IndexOfOwned(props: seq<Property>, id: Id, agent: Id): (r: Option<nat>)
    ensures r.Some? ==> r.value < |props| && props[r.value].id == id && props[r.value].agentId == agent
    ensures r.None? <==> forall i :: 0 <= i < |props| ==> !(props[i].id == id && props[i].agentId == agent)
  {
    if props == [] then None
    else if props[0].id == id && props[0].agentId == agent then Some(0)
    else
      var r := IndexOfOwned(props[1..], id, agent);
      assert forall i :: 1 <= i < |props| ==> props[i] == props[1..][i - 1];
      if r.Some? then Some(r.value + 1) else None
  }

  predicate IdsUnique(props: seq<Property>)
  {
    forall i, j :: 0 <= i < j < |props| ==> props[i].id != props[j].id
  }

  /** With unique ids, the owned lookup succeeds exactly when the id's record belongs to the agent. */
  lemma OwnedIffOwner(props: seq<Property>, id: Id, agent: Id)
    requires IdsUnique(props)
    ensures IndexOfOwned(props, id, agent).Some? <==>
      (IndexOfId(props, id).Some? && props[IndexOfId(props, id).value].agentId == agent)
    ensures IndexOfOwned(props, id, agent).Some? ==> IndexOfOwned(props, id, agent) == IndexOfId(props, id)
  {
  }

  /** The sequence without its `i`-th element. */
  function RemoveAt<T>(s: seq<T>, i: nat): (r: seq<T>)
    requires i < |s|
    ensures |r| == |s| - 1
    ensures forall k :: 0 <= k < i ==> r[k] == s[k]
    ensures forall k :: i <= k < |r| ==> r[k] == s[k + 1]
  {
    s[..i] + s[i + 1..]
  }

  class PropertyStore {
    var props: seq<Property>
    var nextId: nat

    ghost predicate Valid()
      reads this
    {
      IdsUnique(props) && forall i :: 0 <= i < |props| ==> props[i].id < nextId
    }

    constructor ()
      ensures Valid() && props == []
    {
      props := [];
      nextId := 0;
    }

    /** `Property.findById(id)`. */
    function FindById(id: Id): (r: Option<Property>)
      reads this
      ensures r.Some? <==> exists i :: 0 <= i < |props| && props[i].id == id
      ensures r.Some? ==> r.value in props && r.value.id == id
    {
      var i := IndexOfId(props, id);
      if i.Some? then Some(props[i.value]) else None
    }

    /** `Property.findOne({ _id, agentId })`. */
    function FindOwned(id: Id, agent: Id): (r: Option<Property>)
      reads this
      ensures r.Some? <==> exists i :: 0 <= i < |props| && props[i].id == id && props[i].agentId == agent
      ensures r.Some? ==> r.value in props && r.value.id == id && r.value.agentId == agent
    {
      var i := IndexOfOwned(props, id, agent);
      if i.Some? then Some(props[i.value]) else None
    }

    /** `Property.create(...)`: insert the validated document, or throw and insert nothing. */
    method Create(input: PropertyInput, agent: Id, now: int) returns (r: Option<Property>)
      requires Valid()
      modifies this
      ensures Valid()
      ensures r == Created(input, agent, old(nextId), now)
      ensures props == old(props) + (if r.Some? then [r.value] else [])
    {
      r := Created(input, agent, nextId, now);
      if r.Some? {
        props := props + [r.value];
        nextId := nextId + 1;
      }
    }

    /** `findOneAndUpdate({ _id, agentId }, body, { new: true })`: only the owned record with that id changes. */
    method UpdateOwned(id: Id, agent: Id, patch: PropertyInput, now: int) returns (r: Option<Property>)
      requires Valid()
      modifies this
      ensures Valid()
      ensures nextId == old(nextId)
      ensures IndexOfOwned(old(props), id, agent).None? ==> r.None? && props == old(props)
      ensures IndexOfOwned(old(props), id, agent).Some? ==>
        var i := IndexOfOwned(old(props), id, agent).value;
        && props == old(props)[i := Patched(old(props)[i], patch, now)]
        && r == Some(props[i])
    {
      var i := IndexOfOwned(props, id, agent);
      if i.None? {
        return None;
      }
      var p := Patched(props[i.value], patch, now);
      props := props[i.value := p];
      r := Some(p);
    }

    /** `findOneAndDelete({ _id, agentId })`: only the owned record with that id goes. */
    method DeleteOwned(id: Id, agent: Id) returns (r: Option<Property>)
      requires Valid()
      modifies this
      ensures Valid()
      ensures nextId == old(nextId)
      ensures IndexOfOwned(old(props), id, agent).None? ==> r.None? && props == old(props)
      ensures IndexOfOwned(old(props), id, agent).Some? ==>
        var i := IndexOfOwned(old(props), id, agent).value;
        props == RemoveAt(old(props), i) && r == Some(old(props)[i])
    {
      var i := IndexOfOwned(props, id, agent);
      if i.None? {
        return None;
      }
      r := Some(props[i.value]);
      props := RemoveAt(props, i.value);
    }
  }
}
