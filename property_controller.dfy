/**
 * The handlers of backend/dist/modules/properties/property.controller.js:
 * the public listing (a filter built field by field from the query string,
 * newest first, one page of it) and lookup, and the agent's create, update,
 * delete and own listing, each scoped to the caller's `sub`.
 *
 * Every handler wraps its body in a try/catch that answers 500 with the
 * error's message; `DriverError` stands for that message. The `$text` search
 * of `q` is the parameter `textMatch`.
 */
module PropertyController {
  import opened Common
  import opened Text
  import opened Jwt
  import opened PropertyModel
  import opened Http

  /** `req.query` with its values as single strings; an absent key is `undefined`. */
  type Query = map<string, string>

  /** A query value as the handler's `if (x)` sees it: present and non-empty. */
  function Param(q: Query, key: string): (r: Option<string>)
    ensures r.Some? <==> key in q && q[key] != ""
    ensures r.Some? ==> r.value == q[key]
  {
    if key in q && q[key] != "" then Some(q[key]) else None
  }

  /**
   * The `filters` object. A numeric bound is `Some(n)` when the condition is
   * present, with `n` the result of `Number(...)` (None for NaN).
   */
  datatype Filter = Filter(
    status: string,
    city: Option<string>,
    minPrice: Option<Option<int>>,
    maxPrice: Option<Option<int>>,
    minBeds: Option<Option<int>>,
    minBaths: Option<Option<int>>,
    text: Option<string>)

  /** Mongoose casts every bound to a Number and throws a CastError on NaN. */
  predicate Casts(f: Filter)
  {
    && (f.minPrice.Some? ==> f.minPrice.value.Some?)
    && (f.maxPrice.Some? ==> f.maxPrice.value.Some?)
    && (f.minBeds.Some? ==> f.minBeds.value.Some?)
    && (f.minBaths.Some? ==> f.minBaths.value.Some?)
  }

  function NumberParam(q: Query, key: string): Option<Option<int>>
  {
    var v := Param(q, key);
    if v.Some? then Some(JsNumber(v.value)) else None
  }

  /** The filter the handler assembles from the query. */
  function QueryFilter(q: Query): Filter
  {
    Filter("available", Param(q, "city"), NumberParam(q, "minPrice"), NumberParam(q, "maxPrice"),
           NumberParam(q, "beds"), NumberParam(q, "baths"), Param(q, "q"))
  }

  /** `count >= bound` for a `$gte` on an optional Number path: an absent field never matches. */
  predicate AtLeast(field: Option<int>, bound: Option<Option<int>>)
    requires bound.Some? ==> bound.value.Some?
  {
    bound.Some? ==> field.Some? && field.value >= bound.value.value
  }

  /** Whether the store's query selects `p` (a filter that casts). */
  predicate Admits(f: Filter, textMatch: (string, Property) -> bool, p: Property)
    requires Casts(f)
  {
    && p.status == f.status
    && (f.city.Some? ==> p.location.city.Some? && ContainsCI(p.location.city.value, f.city.value))
    && (f.minPrice.Some? ==> p.price >= f.minPrice.value.value)
    && (f.maxPrice.Some? ==> p.price <= f.maxPrice.value.value)
    && AtLeast(p.bedrooms, f.minBeds)
    && AtLeast(p.bathrooms, f.minBaths)
    && (f.text.Some? ==> textMatch(f.text.value, p))
  }

  // ------------------------------------------------------- newest-first order

  predicate NewestFirstOrder(s: seq<Property>)
  {
    forall i, j :: 0 <= i < j < |s| ==> s[i].createdAt >= s[j].createdAt
  }

  function Insert(p: Property, s: seq<Property>): (r: seq<Property>)
    ensures |r| == |s| + 1
  {
    if s == [] then [p]
    else if p.createdAt >= s[0].createdAt then [p] + s
    else [s[0]] + Insert(p, s[1..])
  }

  /** `.sort({ createdAt: -1 })`; records with equal stamps keep their stored order. */
  function NewestFirst(s: seq<Property>): (r: seq<Property>)
    ensures |r| == |s|
  {
    if s == [] then [] else Insert(s[0], NewestFirst(s[1..]))
  }

  lemma {:induction false} InsertPerm(p: Property, s: seq<Property>)
    ensures multiset(Insert(p, s)) == multiset(s) + multiset{p}
  {
    if s != [] && p.createdAt < s[0].createdAt {
      InsertPerm(p, s[1..]);
      assert s == [s[0]] + s[1..];
    }
  }

  /** The records of `Insert(p, s)` are `p` and those of `s`. */
  lemma InsertMembers(p: Property, s: seq<Property>)
    ensures forall x :: x in Insert(p, s) <==> x == p || x in s
  {
    InsertPerm(p, s);
    forall x ensures x in Insert(p, s) <==> x == p || x in s {
      assert x in Insert(p, s) <==> x in multiset(Insert(p, s));
      assert x in s <==> x in multiset(s);
    }
  }

  lemma HeadIsNewest(s: seq<Property>)
    requires s != [] && NewestFirstOrder(s)
    ensures forall x :: x in s[1..] ==> s[0].createdAt >= x.createdAt
  {
    forall x | x in s[1..] ensures s[0].createdAt >= x.createdAt {
      var k :| 0 <= k < |s[1..]| && s[1..][k] == x;
      assert s[k + 1] == x;
    }
  }

  lemma {:induction false} InsertOrdered(p: Property, s: seq<Property>)
    requires NewestFirstOrder(s)
    ensures NewestFirstOrder(Insert(p, s))
  {
    if s == [] {
    } else if p.createdAt >= s[0].createdAt {
      var r := [p] + s;
      forall i, j | 0 <= i < j < |r| ensures r[i].createdAt >= r[j].createdAt {
        assert r[j] == s[j - 1];
        if i > 0 {
          assert r[i] == s[i - 1];
        }
      }
    } else {
      var t := Insert(p, s[1..]);
      assert NewestFirstOrder(s[1..]) by {
        forall i, j | 0 <= i < j < |s[1..]| ensures s[1..][i].createdAt >= s[1..][j].createdAt {
          assert s[1..][i] == s[i + 1] && s[1..][j] == s[j + 1];
        }
      }
      InsertOrdered(p, s[1..]);
      InsertMembers(p, s[1..]);
      HeadIsNewest(s);
      var r := [s[0]] + t;
      forall i, j | 0 <= i < j < |r| ensures r[i].createdAt >= r[j].createdAt {
        assert r[j] == t[j - 1];
        if i == 0 {
          assert r[j] in t;
        } else {
          assert r[i] == t[i - 1];
        }
      }
    }
  }

  /** The sort returns the same records, newest first. */
  lemma {:induction false} NewestFirstMeaning(s: seq<Property>)
    ensures multiset(NewestFirst(s)) == multiset(s)
    ensures NewestFirstOrder(NewestFirst(s))
  {
    if s != [] {
      NewestFirstMeaning(s[1..]);
      InsertPerm(s[0], NewestFirst(s[1..]));
      InsertOrdered(s[0], NewestFirst(s[1..]));
      assert s == [s[0]] + s[1..];
    }
  }

  // --------------------------------------------------------------- pagination

  function Abs(n: int): nat
  {
    if n < 0 then -n else n
  }

  /** `.skip(skip).limit(limit)`: a limit of 0 is no limit, a negative one counts as its absolute value. */
  function Paged<T>(s: seq<T>, skip: nat, limit: int): (r: seq<T>)
    ensures |r| == (var rest := if skip <= |s| then |s| - skip else 0;
                    if limit == 0 || Abs(limit) >= rest then rest else Abs(limit))
    ensures forall k :: 0 <= k < |r| ==> skip + k < |s| && r[k] == s[skip + k]
  {
    var rest := if skip <= |s| then s[skip..] else [];
    if limit == 0 || Abs(limit) >= |rest| then rest else rest[..Abs(limit)]
  }

  // ------------------------------------------------------------- listProperties

  function DriverFailure(): Reply
  {
    JsonReply(500, DriverError)
  }

  /** `page` and `limit` after their defaults and `Number(...)`; None for NaN. */
  function PageNumber(q: Query): Option<int>
  {
    if "page" in q then JsNumber(q["page"]) else Some(1)
  }

  function LimitNumber(q: Query): Option<int>
  {
    if "limit" in q then JsNumber(q["limit"]) else Some(10)
  }

  /** All records the filter selects, in stored order (`find(filters)` before sorting, and `countDocuments`). */
  function Matches(props: seq<Property>, f: Filter, textMatch: (string, Property) -> bool): seq<Property>
    requires Casts(f)
  {
    Where(props, (p: Property) => Admits(f, textMatch, p))
  }

  function ListReply(props: seq<Property>, q: Query, textMatch: (string, Property) -> bool): Reply
  {
    var f := QueryFilter(q);
    var page := PageNumber(q);
    var limit := LimitNumber(q);
    if !Casts(f) || page.None? || limit.None? then DriverFailure()
    else
      var skip := (page.value - 1) * limit.value;
      if skip < 0 then DriverFailure()
      else
        var matches := Matches(props, f, textMatch);
        JsonReply(200, PropertyPage(Paged(NewestFirst(matches), skip, limit.value), |matches|, page.value))
  }

  method ListProperties(store: PropertyStore, q: Query, textMatch: (string, Property) -> bool, res: Response)
    requires res.Unsent()
    modifies res
    ensures res.Snapshot() == ListReply(store.props, q, textMatch)
  {
    var filters := Filter("available", None, None, None, None, None, None);
    var city := Param(q, "city");
    if city.Some? {
      filters := filters.(city := city);
    }
    var minPrice, maxPrice := Param(q, "minPrice"), Param(q, "maxPrice");
    if minPrice.Some? || maxPrice.Some? {
      if minPrice.Some? {
        filters := filters.(minPrice := Some(JsNumber(minPrice.value)));
      }
      if maxPrice.Some? {
        filters := filters.(maxPrice := Some(JsNumber(maxPrice.value)));
      }
    }
    var beds := Param(q, "beds");
    if beds.Some? {
      filters := filters.(minBeds := Some(JsNumber(beds.value)));
    }
    var baths := Param(q, "baths");
    if baths.Some? {
      filters := filters.(minBaths := Some(JsNumber(baths.value)));
    }
    var text := Param(q, "q");
    if text.Some? {
      filters := filters.(text := text);
    }
    assert filters == QueryFilter(q);
    var page := if "page" in q then JsNumber(q["page"]) else Some(1);
    var limit := if "limit" in q then JsNumber(q["limit"]) else Some(10);
    if !Casts(filters) || page.None? || limit.None? {
      res.Status(500);
      res.Json(DriverError);
      return;
    }
    var skip := (page.value - 1) * limit.value;
    if skip < 0 {
      res.Status(500);
      res.Json(DriverError);
      return;
    }
    var matches := Where(store.props, (p: Property) => Admits(filters, textMatch, p));
    var properties := Paged(NewestFirst(matches), skip, limit.value);
    res.Json(PropertyPage(properties, |matches|, page.value));
  }

  /**
   * The listing condition stated directly on the query: an available record
   * whose city contains the `city` text at some offset ignoring case, whose
   * price lies within the inclusive bounds, whose bedroom and bathroom counts
   * reach the `beds` and `baths` minimums, and that the `$text` search accepts;
   * each condition applies only when its parameter is non-empty.
   */
  ghost predicate Wanted(q: Query, textMatch: (string, Property) -> bool, p: Property)
  {
    && p.status == "available"
    && ("city" in q && q["city"] != "" ==>
          p.location.city.Some? && exists i: nat :: MatchesAt(p.location.city.value, q["city"], i))
    && ("minPrice" in q && q["minPrice"] != "" ==> JsNumber(q["minPrice"]).Some? && JsNumber(q["minPrice"]).value <= p.price)
    && ("maxPrice" in q && q["maxPrice"] != "" ==> JsNumber(q["maxPrice"]).Some? && p.price <= JsNumber(q["maxPrice"]).value)
    && ("beds" in q && q["beds"] != "" ==>
          JsNumber(q["beds"]).Some? && p.bedrooms.Some? && p.bedrooms.value >= JsNumber(q["beds"]).value)
    && ("baths" in q && q["baths"] != "" ==>
          JsNumber(q["baths"]).Some? && p.bathrooms.Some? && p.bathrooms.value >= JsNumber(q["baths"]).value)
    && ("q" in q && q["q"] != "" ==> textMatch(q["q"], p))
  }

  lemma AdmitsIffWanted(q: Query, textMatch: (string, Property) -> bool, p: Property)
    requires Casts(QueryFilter(q))
    ensures Admits(QueryFilter(q), textMatch, p) <==> Wanted(q, textMatch, p)
  {
    if p.location.city.Some? && "city" in q && q["city"] != "" {
      ContainsCIMeaning(p.location.city.value, q["city"]);
    }
  }

  /** One page of the sorted matches holds matches only, newest first. */
  lemma PageOfMatches(matches: seq<Property>, skip: nat, limit: int)
    ensures var data := Paged(NewestFirst(matches), skip, limit);
      (forall p :: p in data ==> p in matches) && NewestFirstOrder(data)
  {
    var sorted := NewestFirst(matches);
    NewestFirstMeaning(matches);
    var data := Paged(sorted, skip, limit);
    forall p | p in data ensures p in matches {
      var k :| 0 <= k < |data| && data[k] == p;
      assert p == sorted[skip + k];
      assert p in multiset(sorted);
    }
    forall i, j | 0 <= i < j < |data| ensures data[i].createdAt >= data[j].createdAt {
      assert data[i] == sorted[skip + i] && data[j] == sorted[skip + j];
    }
  }

  /** The store's filter selects exactly the wanted records. */
  lemma MatchesAreWanted(props: seq<Property>, q: Query, textMatch: (string, Property) -> bool)
    requires Casts(QueryFilter(q))
    ensures Matches(props, QueryFilter(q), textMatch) == Where(props, (p: Property) => Wanted(q, textMatch, p))
  {
    var f := QueryFilter(q);
    forall p | p in props ensures Admits(f, textMatch, p) == Wanted(q, textMatch, p) {
      AdmitsIffWanted(q, textMatch, p);
    }
    WhereSame(props, (p: Property) => Admits(f, textMatch, p), (p: Property) => Wanted(q, textMatch, p));
  }

  /**
   * A listing that succeeds answers 200 with `total` = the number of stored
   * records that are wanted, `page` = `Number(page)`, and as `data` the
   * page `(page - 1) * limit` of the wanted records newest first; so the
   * records sent are wanted, from the store, newest first and at most the
   * limit.
   */
  lemma ListMeaning(props: seq<Property>, q: Query, textMatch: (string, Property) -> bool)
    ensures var reply := ListReply(props, q, textMatch);
      && (reply.status == 200 || reply == DriverFailure())
      && (reply.status == 200 ==>
            && reply.body.Some? && reply.body.value.PropertyPage?
            && var body := reply.body.value;
            && PageNumber(q).Some? && LimitNumber(q).Some? && body.page == PageNumber(q).value
            && (PageNumber(q).value - 1) * LimitNumber(q).value >= 0
            && body.data == Paged(NewestFirst(Where(props, (p: Property) => Wanted(q, textMatch, p))),
                                  ((PageNumber(q).value - 1) * LimitNumber(q).value) as nat, LimitNumber(q).value)
            && (forall p :: p in body.data ==> p in props && Wanted(q, textMatch, p))
            && NewestFirstOrder(body.data)
            && (LimitNumber(q).value != 0 ==> |body.data| <= Abs(LimitNumber(q).value))
            && body.total == |Where(props, (p: Property) => Wanted(q, textMatch, p))|)
  {
    var reply := ListReply(props, q, textMatch);
    var f := QueryFilter(q);
    if reply.status == 200 {
      var matches := Matches(props, f, textMatch);
      var skip := (PageNumber(q).value - 1) * LimitNumber(q).value;
      PageOfMatches(matches, skip, LimitNumber(q).value);
      MatchesAreWanted(props, q, textMatch);
    }
  }

  /** A listing succeeds exactly when every number casts and page and limit give a non-negative skip. */
  lemma ListFailsIff(props: seq<Property>, q: Query, textMatch: (string, Property) -> bool)
    ensures ListReply(props, q, textMatch) == DriverFailure() <==>
      || !Casts(QueryFilter(q)) || PageNumber(q).None? || LimitNumber(q).None?
      || (PageNumber(q).value - 1) * LimitNumber(q).value < 0
  {
  }

  /** Without `page` and `limit`, the first ten records newest first are sent, and page 1. */
  lemma ListDefaults(props: seq<Property>, q: Query, textMatch: (string, Property) -> bool)
    requires "page" !in q && "limit" !in q && Casts(QueryFilter(q))
    ensures var reply := ListReply(props, q, textMatch);
      var matches := Matches(props, QueryFilter(q), textMatch);
      && reply.status == 200
      && reply.body.value.page == 1
      && reply.body.value.data == NewestFirst(matches)[..if |matches| < 10 then |matches| else 10]
  {
  }

  /** `page=0` with the default limit makes a negative skip, and the query fails. */
  lemma PageZeroFails(props: seq<Property>, q: Query, textMatch: (string, Property) -> bool)
    requires Casts(QueryFilter(q)) && "limit" !in q
    ensures ListReply(props, q["page" := "0"], textMatch) == DriverFailure()
  {
    var q' := q["page" := "0"];
    assert QueryFilter(q') == QueryFilter(q) by {
      assert forall k :: k != "page" ==> (k in q' <==> k in q) && (k in q ==> q'[k] == q[k]);
    }
    assert PageNumber(q') == Some(0) by {
      assert JsNumber("0") == Some(0);
    }
  }

  const ListKeys: set<string> := {"city", "minPrice", "maxPrice", "q", "beds", "baths", "page", "limit"}

  /** Query keys other than the eight the handler reads change nothing. */
  lemma OtherKeysIgnored(props: seq<Property>, q1: Query, q2: Query, textMatch: (string, Property) -> bool)
    requires forall k :: k in ListKeys ==> (k in q1 <==> k in q2)
    requires forall k :: k in ListKeys && k in q1 ==> q1[k] == q2[k]
    ensures ListReply(props, q1, textMatch) == ListReply(props, q2, textMatch)
  {
    assert QueryFilter(q1) == QueryFilter(q2) by {
      assert "city" in ListKeys && "minPrice" in ListKeys && "maxPrice" in ListKeys && "beds" in ListKeys;
      assert "baths" in ListKeys && "q" in ListKeys;
    }
    assert "page" in ListKeys && "limit" in ListKeys;
  }

  // ---------------------------------------------------------- getPropertyById

  function ByIdReply(props: seq<Property>, idParam: string): Reply
  {
    var id := ParseId(idParam);
    if id.None? then DriverFailure()
    else
      var i := IndexOfId(props, id.value);
      if i.None? then JsonReply(404, Message("Property not found"))
      else JsonReply(200, PropertyData(props[i.value]))
  }

  method GetPropertyById(store: PropertyStore, idParam: string, res: Response)
    requires res.Unsent()
    modifies res
    ensures res.Snapshot() == ByIdReply(store.props, idParam)
  {
    var id := ParseId(idParam);
    if id.None? {
      res.Status(500);
      res.Json(DriverError);
      return;
    }
    var i := IndexOfId(store.props, id.value);
    if i.None? {
      res.Status(404);
      res.Json(Message("Property not found"));
      return;
    }
    res.Json(PropertyData(store.props[i.value]));
  }

  /** The lookup answers 404 exactly when no record has the id, and otherwise sends that record. */
  lemma ByIdMeaning(props: seq<Property>, id: Id)
    ensures var reply := ByIdReply(props, DecimalString(id));
      && (reply == JsonReply(404, Message("Property not found")) <==> forall p :: p in props ==> p.id != id)
      && (reply.status == 200 ==> reply.body.value.property in props && reply.body.value.property.id == id)
      && (reply.status == 200 || reply.status == 404)
  {
    ParseIdOfDecimal(id);
    var i := IndexOfId(props, id);
    if i.None? {
      forall p | p in props ensures p.id != id {
        var k :| 0 <= k < |props| && props[k] == p;
      }
    }
  }

  // ----------------------------------------------------------- createProperty

  /** The `{ data: property }` reply of `createProperty`, given the new record (None: validation failed). */
  function CreateReply(created: Option<Property>): Reply
  {
    if created.None? then DriverFailure() else JsonReply(201, PropertyData(created.value))
  }

  method CreateProperty(store: PropertyStore, user: Option<Claims>, data: PropertyInput, now: int, res: Response)
    requires store.Valid() && res.Unsent()
    modifies store, res
    ensures store.Valid()
    ensures user.None? ==> res.Snapshot() == DriverFailure() && store.props == old(store.props)
    ensures user.Some? ==>
      var created := Created(data, user.value.sub, old(store.nextId), now);
      && res.Snapshot() == CreateReply(created)
      && store.props == old(store.props) + (if created.Some? then [created.value] else [])
  {
    if user.None? {
      res.Status(500);
      res.Json(DriverError);
      return;
    }
    var property := store.Create(data, user.value.sub, now);
    if property.None? {
      res.Status(500);
      res.Json(DriverError);
      return;
    }
    res.Status(201);
    res.Json(PropertyData(property.value));
  }

  /** A created record belongs to the caller, whatever `agentId` the body carries. */
  lemma CreateOwnedByCaller(data: PropertyInput, sub: Id, id: Id, now: int, other: Id)
    ensures var r := CreateReply(Created(data.(agentId := Some(other)), sub, id, now));
      && (r.status == 201 <==> Created(data, sub, id, now).Some?)
      && (r.status == 201 ==> r.body.value.property.agentId == sub && SchemaValid(r.body.value.property))
      && (r.status != 201 ==> r == DriverFailure())
  {
  }

  // ----------------------------------------------------------- updateProperty

  function NotFoundOrUnauthorized(): Reply
  {
    JsonReply(404, Message("Property not found or unauthorized"))
  }

  function UpdateReply(props: seq<Property>, user: Option<Claims>, idParam: string, patch: PropertyInput, now: int): Reply
  {
    if user.None? || ParseId(idParam).None? then DriverFailure()
    else
      var i := IndexOfOwned(props, ParseId(idParam).value, user.value.sub);
      if i.None? then NotFoundOrUnauthorized()
      else JsonReply(200, PropertyData(Patched(props[i.value], patch, now)))
  }

  function UpdatedProps(props: seq<Property>, user: Option<Claims>, idParam: string, patch: PropertyInput, now: int): seq<Property>
  {
    if user.None? || ParseId(idParam).None? then props
    else
      var i := IndexOfOwned(props, ParseId(idParam).value, user.value.sub);
      if i.None? then props else props[i.value := Patched(props[i.value], patch, now)]
  }

  method UpdateProperty(store: PropertyStore, user: Option<Claims>, idParam: string, patch: PropertyInput, now: int, res: Response)
    requires store.Valid() && res.Unsent()
    modifies store, res
    ensures store.Valid()
    ensures res.Snapshot() == UpdateReply(old(store.props), user, idParam, patch, now)
    ensures store.props == UpdatedProps(old(store.props), user, idParam, patch, now)
  {
    var id := ParseId(idParam);
    if user.None? || id.None? {
      res.Status(500);
      res.Json(DriverError);
      return;
    }
    var property := store.UpdateOwned(id.value, user.value.sub, patch, now);
    if property.None? {
      res.Status(404);
      res.Json(Message("Property not found or unauthorized"));
      return;
    }
    res.Json(PropertyData(property.value));
  }

  /**
   * An update changes only the record with that id whose `agentId` is the
   * caller: when there is none it answers 404 and the table is unchanged;
   * otherwise no other record changes and the reply is the patched record.
   */
  lemma UpdateOnlyOwned(props: seq<Property>, c: Claims, id: Id, patch: PropertyInput, now: int)
    requires IdsUnique(props)
    ensures var sub := c.sub;
      var user := Some(c);
      var reply := UpdateReply(props, user, DecimalString(id), patch, now);
      var after := UpdatedProps(props, user, DecimalString(id), patch, now);
      && |after| == |props|
      && (forall i :: 0 <= i < |props| && !(props[i].id == id && props[i].agentId == sub) ==> after[i] == props[i])
      && ((forall p :: p in props ==> !(p.id == id && p.agentId == sub)) <==> reply == NotFoundOrUnauthorized())
      && (reply == NotFoundOrUnauthorized() ==> after == props)
      && (reply.status == 200 ==>
            exists i :: 0 <= i < |props| && props[i].id == id && props[i].agentId == sub &&
                        after[i] == Patched(props[i], patch, now) && reply.body.value.property == after[i])
      && (reply.status == 200 || reply == NotFoundOrUnauthorized())
  {
    var sub := c.sub;
    ParseIdOfDecimal(id);
    var k := IndexOfOwned(props, id, sub);
    if k.None? {
      forall p | p in props ensures !(p.id == id && p.agentId == sub) {
        var j :| 0 <= j < |props| && props[j] == p;
      }
    }
  }

  // ----------------------------------------------------------- deleteProperty

  function DeleteReply(props: seq<Property>, user: Option<Claims>, idParam: string): Reply
  {
    if user.None? || ParseId(idParam).None? then DriverFailure()
    else if IndexOfOwned(props, ParseId(idParam).value, user.value.sub).None? then NotFoundOrUnauthorized()
    else JsonReply(200, Message("Property deleted successfully"))
  }

  function DeletedProps(props: seq<Property>, user: Option<Claims>, idParam: string): seq<Property>
  {
    if user.None? || ParseId(idParam).None? then props
    else
      var i := IndexOfOwned(props, ParseId(idParam).value, user.value.sub);
      if i.None? then props else RemoveAt(props, i.value)
  }

  method DeleteProperty(store: PropertyStore, user: Option<Claims>, idParam: string, res: Response)
    requires store.Valid() && res.Unsent()
    modifies store, res
    ensures store.Valid()
    ensures res.Snapshot() == DeleteReply(old(store.props), user, idParam)
    ensures store.props == DeletedProps(old(store.props), user, idParam)
  {
    var id := ParseId(idParam);
    if user.None? || id.None? {
      res.Status(500);
      res.Json(DriverError);
      return;
    }
    var property := store.DeleteOwned(id.value, user.value.sub);
    if property.None? {
      res.Status(404);
      res.Json(Message("Property not found or unauthorized"));
      return;
    }
    res.Json(Message("Property deleted successfully"));
  }

  /**
   * A delete removes exactly the caller's record with that id: every other
   * record survives, and no record with that id remains; when the caller owns
   * no such record it answers 404 and the table is unchanged.
   */
  lemma DeleteOnlyOwned(props: seq<Property>, c: Claims, id: Id)
    requires IdsUnique(props)
    ensures var sub := c.sub;
      var user := Some(c);
      var reply := DeleteReply(props, user, DecimalString(id));
      var after := DeletedProps(props, user, DecimalString(id));
      && (forall p :: p in props && !(p.id == id && p.agentId == sub) ==> p in after)
      && (forall p :: p in after ==> p in props)
      && ((forall p :: p in props ==> !(p.id == id && p.agentId == sub)) <==> reply == NotFoundOrUnauthorized())
      && (reply == NotFoundOrUnauthorized() ==> after == props)
      && (reply.status == 200 || reply == NotFoundOrUnauthorized())
      && ((exists p :: p in props && p.id == id && p.agentId == sub) ==>
            reply == JsonReply(200, Message("Property deleted successfully")))
      && (reply.status == 200 ==> |after| == |props| - 1 && forall p :: p in after ==> p.id != id)
  {
    var sub := c.sub;
    ParseIdOfDecimal(id);
    var k := IndexOfOwned(props, id, sub);
    var after := DeletedProps(props, Some(c), DecimalString(id));
    if k.None? {
      forall p | p in props ensures !(p.id == id && p.agentId == sub) {
        var j :| 0 <= j < |props| && props[j] == p;
      }
    } else {
      var i := k.value;
      forall p | p in props && !(p.id == id && p.agentId == sub) ensures p in after {
        var j :| 0 <= j < |props| && props[j] == p;
        if j < i { assert after[j] == p; } else { assert after[j - 1] == p; }
      }
      forall p | p in after ensures p in props && p.id != id {
        var j :| 0 <= j < |after| && after[j] == p;
        if j < i { assert props[j] == p; } else { assert props[j + 1] == p; }
      }
    }
  }

  // ------------------------------------------------------- getAgentProperties

  function AgentPropertiesReply(props: seq<Property>, user: Option<Claims>): Reply
  {
    if user.None? then DriverFailure()
    else JsonReply(200, PropertyList(NewestFirst(Where(props, (p: Property) => p.agentId == user.value.sub))))
  }

  method GetAgentProperties(store: PropertyStore, user: Option<Claims>, res: Response)
    requires res.Unsent()
    modifies res
    ensures res.Snapshot() == AgentPropertiesReply(store.props, user)
  {
    if user.None? {
      res.Status(500);
      res.Json(DriverError);
      return;
    }
    var properties := NewestFirst(Where(store.props, (p: Property) => p.agentId == user.value.sub));
    res.Json(PropertyList(properties));
  }

  /** The agent's listing holds exactly the caller's records, each once per stored copy, newest first. */
  lemma AgentPropertiesMeaning(props: seq<Property>, c: Claims)
    ensures var reply := AgentPropertiesReply(props, Some(c));
      && reply.status == 200
      && var data := reply.body.value.properties;
      && multiset(data) == multiset(Where(props, (p: Property) => p.agentId == c.sub))
      && (forall p :: p in data <==> p in props && p.agentId == c.sub)
      && NewestFirstOrder(data)
  {
    var own := Where(props, (p: Property) => p.agentId == c.sub);
    NewestFirstMeaning(own);
    forall p ensures p in NewestFirst(own) <==> p in own {
      assert p in NewestFirst(own) <==> p in multiset(NewestFirst(own));
    }
  }
}
