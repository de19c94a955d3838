/**
 * The handlers of backend/src/modules/interests/interest.controller.ts: a
 * client marks interest in a property (an upsert keyed by property and
 * client), lists and removes their own marks; an agent lists the interests
 * in a property they own. The try/catch of `expressInterest` maps a
 * duplicate-key error to 400 and every other error to 500; the other three
 * handlers answer every error with 500.
 */
module InterestController {
  import opened Common
  import opened Text
  import opened Jwt
  import opened PropertyModel
  import opened InterestModel
  import opened Http

  /** The `{ propertyId, message }` body of `expressInterest`; `None` is a field left out. */
  datatype InterestBody = InterestBody(propertyId: Option<string>, message: Option<string>)

  /** The catch block: MongoDB's duplicate-key code 11000 is 400, any other error 500. */
  function ErrorReply(code: Option<int>): (r: Reply)
    ensures r.status == 400 <==> code == Some(11000)
    ensures r.status == 400 ==> r == JsonReply(400, Message("Already expressed interest"))
    ensures r.status != 400 ==> r == JsonReply(500, DriverError)
  {
    if code == Some(11000) then JsonReply(400, Message("Already expressed interest")) else JsonReply(500, DriverError)
  }

  // --------------------------------------------------------- expressInterest

  /**
   * The steps in the source's order: the body's id is cast and looked up
   * (404 when absent), and only then is `user.sub` read for the upsert.
   * `findById(undefined)` looks up `_id: null`, which finds nothing, so a
   * body without an id is 404; an id that is present but does not cast is a
   * cast error. None of these errors (a cast error, a missing user) carries
   * a code.
   */
  function ExpressReply(props: seq<Property>, rs: seq<Interest>, nextId: Id, user: Option<Claims>, body: InterestBody, now: int): Reply
  {
    if body.propertyId.None? then JsonReply(404, Message("Property not found"))
    else
    var pid := ParseId(body.propertyId.value);
    if pid.None? then ErrorReply(None)
    else if IndexOfId(props, pid.value).None? then JsonReply(404, Message("Property not found"))
    else if user.None? then ErrorReply(None)
    else JsonReply(201, InterestData(UpsertedRecord(rs, nextId, pid.value, user.value.sub, body.message, now)))
  }

  function ExpressTable(props: seq<Property>, rs: seq<Interest>, nextId: Id, user: Option<Claims>, body: InterestBody, now: int): seq<Interest>
  {
    if body.propertyId.None? then rs
    else
    var pid := ParseId(body.propertyId.value);
    if pid.None? || IndexOfId(props, pid.value).None? || user.None? then rs
    else Upserted(rs, nextId, pid.value, user.value.sub, body.message, now)
  }

  method ExpressInterest(properties: PropertyStore, interests: InterestStore, user: Option<Claims>, body: InterestBody, now: int, res: Response)
    requires interests.Valid() && res.Unsent()
    modifies interests, res
    ensures interests.Valid()
    ensures res.Snapshot() == ExpressReply(properties.props, old(interests.records), old(interests.nextId), user, body, now)
    ensures interests.records == ExpressTable(properties.props, old(interests.records), old(interests.nextId), user, body, now)
  {
    if body.propertyId.None? {
      res.Status(404);
      res.Json(Message("Property not found"));
      return;
    }
    var pid := ParseId(body.propertyId.value);
    if pid.None? {
      var r := ErrorReply(None);
      res.Status(r.status);
      res.Json(r.body.value);
      return;
    }
    var property := properties.FindById(pid.value);
    if property.None? {
      res.Status(404);
      res.Json(Message("Property not found"));
      return;
    }
    if user.None? {
      var r := ErrorReply(None);
      res.Status(r.status);
      res.Json(r.body.value);
      return;
    }
    var interest := interests.Upsert(pid.value, user.value.sub, body.message, now);
    res.Status(201);
    res.Json(InterestData(interest));
  }

  /**
   * For a property that exists, the caller's mark is answered 201 whether it
   * was new or not; afterwards exactly one record has the key
   * (property, caller), it is the one sent back and carries the new message
   * (the old one when none was sent; a new record carries the next id and
   * the current time); records with other keys are untouched.
   * For a property that does not exist the answer is 404 and the table is
   * unchanged.
   */
  lemma ExpressMeaning(props: seq<Property>, rs: seq<Interest>, nextId: Id, c: Claims, propertyId: Id, message: Option<string>, now: int)
    requires KeysUnique(rs)
    ensures var sub := c.sub;
      var user := Some(c);
      var body := InterestBody(Some(DecimalString(propertyId)), message);
      var reply := ExpressReply(props, rs, nextId, user, body, now);
      var after := ExpressTable(props, rs, nextId, user, body, now);
      && KeysUnique(after)
      && ((forall p :: p in props ==> p.id != propertyId) <==> reply == JsonReply(404, Message("Property not found")))
      && (reply.status == 404 ==> after == rs)
      && (reply.status != 404 ==>
            && reply.status == 201
            && reply.body.value.interest in after
            && (forall x :: x in after && HasKey(x, propertyId, sub) <==> x == reply.body.value.interest)
            && reply.body.value.interest.propertyId == propertyId && reply.body.value.interest.clientId == sub
            && (message.Some? ==> reply.body.value.interest.message == message)
            && (message.None? && FindKey(rs, propertyId, sub).Some? ==>
                  reply.body.value.interest.message == rs[FindKey(rs, propertyId, sub).value].message)
            && (FindKey(rs, propertyId, sub).None? ==> reply.body.value.interest == Interest(nextId, propertyId, sub, message, now))
            && (forall x :: x in rs && !HasKey(x, propertyId, sub) ==> x in after)
            && (forall x :: x in after && !HasKey(x, propertyId, sub) ==> x in rs))
  {
    var sub := c.sub;
    ParseIdOfDecimal(propertyId);
    var i := IndexOfId(props, propertyId);
    if i.None? {
      forall p | p in props ensures p.id != propertyId {
        var k :| 0 <= k < |props| && props[k] == p;
      }
    } else {
      UpsertedMeaning(rs, nextId, propertyId, sub, message, now);
      var after := Upserted(rs, nextId, propertyId, sub, message, now);
      var k := FindKey(after, propertyId, sub).value;
      forall x | x in after && HasKey(x, propertyId, sub) ensures x == after[k] {
        var j :| 0 <= j < |after| && after[j] == x;
      }
    }
  }

  /** A body without `propertyId` finds no property: 404, and the table is unchanged, whoever calls. */
  lemma ExpressWithoutPropertyId(props: seq<Property>, rs: seq<Interest>, nextId: Id, user: Option<Claims>, message: Option<string>, now: int)
    ensures ExpressReply(props, rs, nextId, user, InterestBody(None, message), now) == JsonReply(404, Message("Property not found"))
    ensures ExpressTable(props, rs, nextId, user, InterestBody(None, message), now) == rs
  {
  }

  // ---------------------------------------------------------- getMyInterests

  function MyInterestsReply(rs: seq<Interest>, user: Option<Claims>): Reply
  {
    if user.None? then ErrorReply(None)
    else JsonReply(200, InterestList(Where(rs, (x: Interest) => x.clientId == user.value.sub)))
  }

  method GetMyInterests(interests: InterestStore, user: Option<Claims>, res: Response)
    requires res.Unsent()
    modifies res
    ensures res.Snapshot() == MyInterestsReply(interests.records, user)
  {
    if user.None? {
      res.Status(500);
      res.Json(DriverError);
      return;
    }
    res.Json(InterestList(Where(interests.records, (x: Interest) => x.clientId == user.value.sub)));
  }

  /** The caller's list holds exactly the records whose `clientId` is the caller, in stored order. */
  lemma MyInterestsMeaning(rs: seq<Interest>, c: Claims)
    ensures var reply := MyInterestsReply(rs, Some(c));
      && reply.status == 200
      && (forall x :: x in reply.body.value.interests <==> x in rs && x.clientId == c.sub)
  {
  }

  // ---------------------------------------------------------- removeInterest

  function RemoveReply(rs: seq<Interest>, user: Option<Claims>, propertyIdParam: string): Reply
  {
    if user.None? || ParseId(propertyIdParam).None? then ErrorReply(None)
    else if FindKey(rs, ParseId(propertyIdParam).value, user.value.sub).None? then JsonReply(404, Message("Interest not found"))
    else JsonReply(200, Message("Interest removed successfully"))
  }

  function RemoveTable(rs: seq<Interest>, user: Option<Claims>, propertyIdParam: string): seq<Interest>
  {
    if user.None? || ParseId(propertyIdParam).None? then rs
    else Removed(rs, ParseId(propertyIdParam).value, user.value.sub)
  }

  method RemoveInterest(interests: InterestStore, user: Option<Claims>, propertyIdParam: string, res: Response)
    requires interests.Valid() && res.Unsent()
    modifies interests, res
    ensures interests.Valid()
    ensures res.Snapshot() == RemoveReply(old(interests.records), user, propertyIdParam)
    ensures interests.records == RemoveTable(old(interests.records), user, propertyIdParam)
  {
    var pid := ParseId(propertyIdParam);
    if user.None? || pid.None? {
      res.Status(500);
      res.Json(DriverError);
      return;
    }
    var interest := interests.DeleteKey(pid.value, user.value.sub);
    if interest.None? {
      res.Status(404);
      res.Json(Message("Interest not found"));
      return;
    }
    res.Json(Message("Interest removed successfully"));
  }

  /**
   * Removal deletes only the caller's own mark on that property: records with
   * any other key, another client's mark on the same property included, are
   * kept; when the caller has no mark there it answers 404 and changes nothing.
   */
  lemma RemoveOnlyOwn(rs: seq<Interest>, c: Claims, propertyId: Id)
    requires KeysUnique(rs)
    ensures var sub := c.sub;
      var user := Some(c);
      var reply := RemoveReply(rs, user, DecimalString(propertyId));
      var after := RemoveTable(rs, user, DecimalString(propertyId));
      && KeysUnique(after)
      && ((forall x :: x in rs ==> !HasKey(x, propertyId, sub)) <==> reply == JsonReply(404, Message("Interest not found")))
      && (reply.status == 404 ==> after == rs)
      && (reply.status != 404 ==> reply == JsonReply(200, Message("Interest removed successfully")) && |after| == |rs| - 1)
      && (forall x :: x in after ==> !HasKey(x, propertyId, sub))
      && (forall x :: x in rs && !HasKey(x, propertyId, sub) <==> x in after)
  {
    var sub := c.sub;
    ParseIdOfDecimal(propertyId);
    RemovedMeaning(rs, propertyId, sub);
    if FindKey(rs, propertyId, sub).None? {
      forall x | x in rs ensures !HasKey(x, propertyId, sub) {
        var k :| 0 <= k < |rs| && rs[k] == x;
      }
    }
  }

  // ---------------------------------------------------- getInterestedClients

  function InterestedReply(props: seq<Property>, rs: seq<Interest>, user: Option<Claims>, propertyIdParam: string): Reply
  {
    if user.None? || ParseId(propertyIdParam).None? then ErrorReply(None)
    else
      var pid := ParseId(propertyIdParam).value;
      if IndexOfOwned(props, pid, user.value.sub).None? then JsonReply(403, Message("Not authorized"))
      else JsonReply(200, InterestList(Where(rs, (x: Interest) => x.propertyId == pid)))
  }

  method GetInterestedClients(properties: PropertyStore, interests: InterestStore, user: Option<Claims>, propertyIdParam: string, res: Response)
    requires res.Unsent()
    modifies res
    ensures res.Snapshot() == InterestedReply(properties.props, interests.records, user, propertyIdParam)
  {
    var pid := ParseId(propertyIdParam);
    if user.None? || pid.None? {
      res.Status(500);
      res.Json(DriverError);
      return;
    }
    var property := properties.FindOwned(pid.value, user.value.sub);
    if property.None? {
      res.Status(403);
      res.Json(Message("Not authorized"));
      return;
    }
    res.Json(InterestList(Where(interests.records, (x: Interest) => x.propertyId == pid.value)));
  }

  /**
   * An agent sees the interests in a property only if they own it: 403
   * "Not authorized" when no record has that id and the caller as agent
   * (a missing property and someone else's look the same); otherwise every
   * interest in that property, and no other.
   */
  lemma InterestedMeaning(props: seq<Property>, rs: seq<Interest>, c: Claims, propertyId: Id)
    ensures var sub := c.sub;
      var reply := InterestedReply(props, rs, Some(c), DecimalString(propertyId));
      && ((forall p :: p in props ==> !(p.id == propertyId && p.agentId == sub)) <==> reply == JsonReply(403, Message("Not authorized")))
      && (reply.status != 403 ==>
            && reply.status == 200
            && (forall x :: x in reply.body.value.interests <==> x in rs && x.propertyId == propertyId))
  {
    var sub := c.sub;
    ParseIdOfDecimal(propertyId);
    if IndexOfOwned(props, propertyId, sub).None? {
      forall p | p in props ensures !(p.id == propertyId && p.agentId == sub) {
        var k :| 0 <= k < |props| && props[k] == p;
      }
    }
  }
}
