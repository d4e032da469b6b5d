/** The search server's security filter: four alternative permission
    clauses built from the user's id, and the offset of a page of results. */
module Search {
  import opened Values

  // ---------------------------------------------------------------------------
  // The part of the Elasticsearch query DSL the filter uses

  /** A query: a `term` match on a field, a `nested` query over the objects
      under a path, or a `bool` query whose `must` clauses all hold. */
  datatype Query =
    | Term(field: string, value: Json)
    | Nested(path: string, query: Query)
    | Must(clauses: seq<Query>)

  /** The JSON body a query is sent as. */
  function Render(q: Query): Json
    decreases q, 1
  {
    match q
    case Term(f, v) => JObject(map["term" := JObject(map[f := v])])
    case Nested(p, sub) => JObject(map["nested" := JObject(map["path" := JStr(p), "query" := Render(sub)])])
    case Must(cs) => JObject(map["bool" := JObject(map["must" := JArray(RenderAll(cs))])])
  }

  function RenderAll(cs: seq<Query>): (r: seq<Json>)
    decreases cs, 0
    ensures |r| == |cs|
  {
    if cs == [] then [] else [Render(cs[0])] + RenderAll(cs[1..])
  }

  /** Reads a query back from its JSON body; None for anything else. */
  ghost function Parse(j: Json): Option<Query>
    decreases j, 1
  {
    if !j.JObject? || |j.fields| != 1 then None
    else if "term" in j.fields then
      var t := j.fields["term"];
      if t.JObject? && |t.fields| == 1 then
        var f :| f in t.fields;
        Some(Term(f, t.fields[f]))
      else None
    else if "nested" in j.fields then
      var n := j.fields["nested"];
      if n.JObject? && n.fields.Keys == {"path", "query"} && n.fields["path"].JStr? then
        match Parse(n.fields["query"])
        case Some(sub) => Some(Nested(n.fields["path"].s, sub))
        case None => None
      else None
    else if "bool" in j.fields then
      var b := j.fields["bool"];
      if b.JObject? && b.fields.Keys == {"must"} && b.fields["must"].JArray? then
        match ParseAll(b.fields["must"].items)
        case Some(cs) => Some(Must(cs))
        case None => None
      else None
    else None
  }

  ghost function ParseAll(items: seq<Json>): Option<seq<Query>>
    decreases items, 0
  {
    if items == [] then Some([])
    else
      match (Parse(items[0]), ParseAll(items[1..]))
      case (Some(q), Some(qs)) => Some([q] + qs)
      case _ => None
  }

  /** Rendering loses nothing: the body sent reads back as the query built. */
  lemma {:induction false} ParseRender(q: Query)
    ensures Parse(Render(q)) == Some(q)
    decreases q, 1
  {
    match q
    case Term(f, v) =>
      var t := map[f := v];
      assert t.Keys == {f};
    case Nested(p, sub) =>
      ParseRender(sub);
      var n := map["path" := JStr(p), "query" := Render(sub)];
      assert n.Keys == {"path", "query"};
    case Must(cs) =>
      ParseRenderAll(cs);
      var b := map["must" := JArray(RenderAll(cs))];
      assert b.Keys == {"must"};
  }

  lemma {:induction false} ParseRenderAll(cs: seq<Query>)
    ensures ParseAll(RenderAll(cs)) == Some(cs)
    decreases cs, 0
  {
    if cs != [] {
      ParseRender(cs[0]);
      ParseRenderAll(cs[1..]);
      assert RenderAll(cs)[1..] == RenderAll(cs[1..]);
      assert [cs[0]] + cs[1..] == cs;
    }
  }

  /** An indexed document as the filter sees it: its top-level fields and,
      per nested path, the nested objects with their own fields. */
  datatype Indexed = Indexed(fields: map<string, Json>, nested: map<string, seq<map<string, Json>>>)

  /** Whether a query matches a document: a `term` needs the field present
      with that value, a `nested` query one nested object that matches. */
  predicate Eval(q: Query, d: Indexed)
  {
    match q
    case Term(f, v) => f in d.fields && d.fields[f] == v
    case Nested(p, sub) =>
      p in d.nested && exists e :: e in d.nested[p] && Eval(sub, Indexed(e, map[]))
    case Must(cs) => forall i :: 0 <= i < |cs| ==> Eval(cs[i], d)
  }

  // ---------------------------------------------------------------------------
  // The security filter

  const WorldRead := "omero:details.permissions.isWorldRead"
  const GroupRead := "omero:details.permissions.isGroupRead"
  /** The field alternative 2a tests as written. */
  const GroupReadAsWritten := "omero:details.permissions.iGroupRead"
  const UserRead := "omero:details.permissions.isUserRead"
  const Experimenters := "omero:details.group.Experimenters"
  const ExperimenterId := "omero:details.group.Experimenters.@id"
  const ExperimenterIsOwner := "omero:details.group.Experimenters.omero:isGroupOwner"
  const OwnerId := "omero:details.owner.@id"

  /** The session's event context. */
  datatype EventContext = EventContext(userId: int, groupId: int, isAdmin: bool)

  /** The four alternatives, in order: world readable; group readable and
      the user a member of the group (the group-read flag read from field
      `groupReadField`); neither but user readable and the user an owner of
      the group; neither but user readable and the user the owner of the
      object. */
  function ConditionsWith(groupReadField: string, userId: int): (cs: seq<Query>)
    ensures |cs| == 4
  {
    [ Must([Term(WorldRead, JBool(true))]),
      Must([Term(WorldRead, JBool(false)),
            Term(groupReadField, JBool(true)),
            Nested(Experimenters, Term(ExperimenterId, JInt(userId)))]),
      Must([Term(WorldRead, JBool(false)),
            Term(GroupRead, JBool(false)),
            Term(UserRead, JBool(true)),
            Nested(Experimenters, Must([Term(ExperimenterId, JInt(userId)), Term(ExperimenterIsOwner, JBool(true))]))]),
      Must([Term(WorldRead, JBool(false)),
            Term(GroupRead, JBool(false)),
            Term(UserRead, JBool(true)),
            Term(OwnerId, JInt(userId))]) ]
  }

  /** The alternatives as written, testing `iGroupRead` in alternative 2a. */
  function Conditions(userId: int): seq<Query>
  {
    ConditionsWith(GroupReadAsWritten, userId)
  }

  /** The alternatives as the comments describe them, testing `isGroupRead`. */
  function CorrectedConditions(userId: int): seq<Query>
  {
    ConditionsWith(GroupRead, userId)
  }

  /** The filter body for a list of alternatives: a `bool` query with
      `minimum_should_match` 1 whose `should` is the list of alternatives
      wrapped in a further list. */
  function FilterBody(conditions: seq<Query>): Json
  {
    JObject(map["bool" := JObject(map[
      "should" := JArray([JArray(RenderAll(conditions))]),
      "minimum_should_match" := JInt(1)])])
  }

  /** `security_filter`, as written. */
  function SecurityFilter(ctx: EventContext): Json
  {
    FilterBody(Conditions(ctx.userId))
  }

  /** `security_filter` with alternative 2a testing `isGroupRead`. */
  function CorrectedSecurityFilter(ctx: EventContext): Json
  {
    FilterBody(CorrectedConditions(ctx.userId))
  }

  /** The filter is a `bool` query with `minimum_should_match` 1 whose
      `should` holds a single element, the list of alternatives, which reads
      back as exactly the four alternatives in order; only the user id of the
      event context is used. */
  lemma SecurityFilterShape(ctx: EventContext, other: EventContext)
    ensures var b := SecurityFilter(ctx).fields["bool"];
      && SecurityFilter(ctx).fields.Keys == {"bool"}
      && b.fields.Keys == {"should", "minimum_should_match"}
      && b.fields["minimum_should_match"] == JInt(1)
      && |b.fields["should"].items| == 1
      && b.fields["should"].items[0].JArray?
      && ParseAll(b.fields["should"].items[0].items) == Some(Conditions(ctx.userId))
    ensures other.userId == ctx.userId ==> SecurityFilter(other) == SecurityFilter(ctx)
  {
    ParseRenderAll(Conditions(ctx.userId));
    var b := map["should" := JArray([JArray(RenderAll(Conditions(ctx.userId)))]), "minimum_should_match" := JInt(1)];
    assert b.Keys == {"should", "minimum_should_match"};
    assert map["bool" := JObject(b)].Keys == {"bool"};
  }

  // ---------------------------------------------------------------------------
  // What the filter means for an object

  datatype Permissions = Permissions(worldRead: bool, groupRead: bool, userRead: bool)

  /** A member of the object's group. */
  datatype Member = Member(id: int, groupOwner: bool)

  /** The security-relevant details of an indexed object. */
  datatype Secured = Secured(permissions: Permissions, ownerId: int, members: seq<Member>)

  function MemberFields(m: Member): map<string, Json>
  {
    map[ExperimenterId := JInt(m.id), ExperimenterIsOwner := JBool(m.groupOwner)]
  }

  /** The fields the filter names, as they appear in the indexed document. */
  function IndexedOf(o: Secured): Indexed
  {
    Indexed(
      map[WorldRead := JBool(o.permissions.worldRead),
          GroupRead := JBool(o.permissions.groupRead),
          UserRead := JBool(o.permissions.userRead),
          OwnerId := JInt(o.ownerId)],
      map[Experimenters := seq(|o.members|, i requires 0 <= i < |o.members| => MemberFields(o.members[i]))])
  }

  predicate IsMember(o: Secured, userId: int)
  {
    exists i :: 0 <= i < |o.members| && o.members[i].id == userId
  }

  predicate IsGroupOwner(o: Secured, userId: int)
  {
    exists i :: 0 <= i < |o.members| && o.members[i].id == userId && o.members[i].groupOwner
  }

  /** Who may read an object, alternative by alternative, as the comments and
      clauses of `security_filter` describe it. */
  predicate MayRead(o: Secured, userId: int)
  {
    var p := o.permissions;
    || p.worldRead
    || (!p.worldRead && p.groupRead && IsMember(o, userId))
    || (!p.worldRead && !p.groupRead && p.userRead && IsGroupOwner(o, userId))
    || (!p.worldRead && !p.groupRead && p.userRead && o.ownerId == userId)
  }

  /** Some alternative of a list matches the document. */
  predicate AnyMatches(conditions: seq<Query>, d: Indexed)
  {
    exists k :: 0 <= k < |conditions| && Eval(conditions[k], d)
  }

  lemma MemberMatches(o: Secured, userId: int)
    ensures Eval(Nested(Experimenters, Term(ExperimenterId, JInt(userId))), IndexedOf(o)) <==> IsMember(o, userId)
  {
    var es := IndexedOf(o).nested[Experimenters];
    if IsMember(o, userId) {
      var i :| 0 <= i < |o.members| && o.members[i].id == userId;
      assert es[i] in es;
      assert Eval(Term(ExperimenterId, JInt(userId)), Indexed(es[i], map[]));
    }
  }

  lemma GroupOwnerMatches(o: Secured, userId: int)
    ensures Eval(Nested(Experimenters, Must([Term(ExperimenterId, JInt(userId)), Term(ExperimenterIsOwner, JBool(true))])), IndexedOf(o))
      <==> IsGroupOwner(o, userId)
  {
    var es := IndexedOf(o).nested[Experimenters];
    var q := Must([Term(ExperimenterId, JInt(userId)), Term(ExperimenterIsOwner, JBool(true))]);
    if IsGroupOwner(o, userId) {
      var i :| 0 <= i < |o.members| && o.members[i].id == userId && o.members[i].groupOwner;
      assert es[i] in es;
      assert Eval(q, Indexed(es[i], map[]));
    }
    if Eval(Nested(Experimenters, q), IndexedOf(o)) {
      var e :| e in es && Eval(q, Indexed(e, map[]));
      var i :| 0 <= i < |es| && es[i] == e;
      assert Eval(q.clauses[0], Indexed(e, map[])) && Eval(q.clauses[1], Indexed(e, map[]));
      assert o.members[i].id == userId && o.members[i].groupOwner;
    }
  }

  /** Alternative 1 matches exactly the world-readable objects. */
  lemma WorldAlternative(o: Secured, userId: int)
    ensures Eval(CorrectedConditions(userId)[0], IndexedOf(o)) <==> o.permissions.worldRead
  {
    var c := CorrectedConditions(userId)[0];
    assert Eval(c, IndexedOf(o)) <==> Eval(c.clauses[0], IndexedOf(o));
  }

  /** Corrected alternative 2a matches exactly the group-readable objects
      whose group has the user as a member. */
  lemma GroupAlternative(o: Secured, userId: int)
    ensures Eval(CorrectedConditions(userId)[1], IndexedOf(o)) <==>
      !o.permissions.worldRead && o.permissions.groupRead && IsMember(o, userId)
  {
    var d, c := IndexedOf(o), CorrectedConditions(userId)[1];
    MemberMatches(o, userId);
    assert Eval(c, d) <==> Eval(c.clauses[0], d) && Eval(c.clauses[1], d) && Eval(c.clauses[2], d);
  }

  /** Alternative 2b matches exactly the user-private objects whose group
      has the user as an owner. */
  lemma GroupOwnerAlternative(o: Secured, userId: int)
    ensures Eval(CorrectedConditions(userId)[2], IndexedOf(o)) <==>
      !o.permissions.worldRead && !o.permissions.groupRead && o.permissions.userRead && IsGroupOwner(o, userId)
  {
    var d, c := IndexedOf(o), CorrectedConditions(userId)[2];
    GroupOwnerMatches(o, userId);
    assert Eval(c, d) <==> Eval(c.clauses[0], d) && Eval(c.clauses[1], d) && Eval(c.clauses[2], d) && Eval(c.clauses[3], d);
  }

  /** Alternative 3 matches exactly the user-private objects the user owns. */
  lemma OwnerAlternative(o: Secured, userId: int)
    ensures Eval(CorrectedConditions(userId)[3], IndexedOf(o)) <==>
      !o.permissions.worldRead && !o.permissions.groupRead && o.permissions.userRead && o.ownerId == userId
  {
    var d, c := IndexedOf(o), CorrectedConditions(userId)[3];
    assert Eval(c, d) <==> Eval(c.clauses[0], d) && Eval(c.clauses[1], d) && Eval(c.clauses[2], d) && Eval(c.clauses[3], d);
  }

  /** With alternative 2a testing `isGroupRead`, the filter lets a user see
      an object exactly when the permission rules allow it. */
  lemma CorrectedFilterSpec(o: Secured, userId: int)
    ensures AnyMatches(CorrectedConditions(userId), IndexedOf(o)) <==> MayRead(o, userId)
  {
    WorldAlternative(o, userId);
    GroupAlternative(o, userId);
    GroupOwnerAlternative(o, userId);
    OwnerAlternative(o, userId);
  }

  /** As written, alternative 2a never matches an indexed object: the
      document has no `iGroupRead` field. */
  lemma GroupMemberAlternativeNeverMatches(o: Secured, userId: int)
    ensures !Eval(Conditions(userId)[1], IndexedOf(o))
  {
    var d := IndexedOf(o);
    assert GroupReadAsWritten !in d.fields;
    assert !Eval(Conditions(userId)[1].clauses[1], d);
  }

  /** As written, a member of the group does not see an object that is group
      readable but not world readable, though the permissions allow it. */
  lemma AsWrittenFilterHidesGroupData()
    ensures var o := Secured(Permissions(false, true, true), 2, [Member(1, false)]);
      MayRead(o, 1) && !AnyMatches(Conditions(1), IndexedOf(o))
  {
    var o := Secured(Permissions(false, true, true), 2, [Member(1, false)]);
    var d := IndexedOf(o);
    var cs := Conditions(1);
    assert o.members[0].id == 1;
    GroupMemberAlternativeNeverMatches(o, 1);
    assert !Eval(cs[0], d) by { assert !Eval(cs[0].clauses[0], d); }
    assert !Eval(cs[2], d) by { assert !Eval(cs[2].clauses[1], d); }
    assert !Eval(cs[3], d) by { assert !Eval(cs[3].clauses[1], d); }
  }

  // ---------------------------------------------------------------------------
  // Paging of search results

  const DefaultPage: int := 1
  const DefaultBatchSize: int := 100

  /** `_from`: the offset of the requested page. */
  function Offset(page: int, batchSize: int): int
  {
    (page - 1) * batchSize
  }

  /** The first page starts at 0, each page starts one batch after the
      previous one, and pages from 1 on start at or after 0 and do not
      overlap. */
  lemma OffsetSpec(page: int, later: int, batchSize: int)
    ensures Offset(DefaultPage, DefaultBatchSize) == 0
    ensures Offset(1, batchSize) == 0
    ensures Offset(page + 1, batchSize) == Offset(page, batchSize) + batchSize
    ensures 1 <= page && 0 <= batchSize ==> Offset(page, batchSize) >= 0
    ensures page < later && 0 <= batchSize ==> Offset(page, batchSize) + batchSize <= Offset(later, batchSize)
  {
    if page < later && 0 <= batchSize {
      assert Offset(later, batchSize) - Offset(page, batchSize) == (later - page) * batchSize;
      assert (later - page) * batchSize >= batchSize by {
        assert later - page >= 1;
      }
    }
  }
}
