/** `app/api/image/route.ts`: list, create and delete image records for the signed-in
    user. `sessionEmail` is the session's user email (`None` without a session). */
module ImageRoute {
  import opened Options
  import opened Json
  import opened ImageSchema
  import opened MediaStore
  import opened ApiReply
  import Text

  /** GET: the caller's images, newest first. */
  function ListImages(st: Store, sessionEmail: Option<string>): (r: Reply<seq<ImageRecord>>)
    ensures !Authorized(sessionEmail) ==> r == Fail(Unauthorized)
    ensures Authorized(sessionEmail) ==> r.Ok? && r.status == 200
    ensures r.Ok? ==> SortedDesc(r.value, ImageTime)
    ensures r.Ok? ==> forall x :: multiset(r.value)[x] == if x.userEmail == sessionEmail.value then multiset(st.images)[x] else 0
  {
    if !Authorized(sessionEmail) then Fail(Unauthorized)
    else
      OwnedByCounts(st.images, sessionEmail.value);
      Ok(200, SortDesc(OwnedBy(st.images, sessionEmail.value), ImageTime))
  }

  /** `!body.title || !body.description || !body.imageUrl` is false. */
  predicate HasRequiredFields(body: Object)
  {
    Truthy(Get(body, "title")) && Truthy(Get(body, "description")) && Truthy(Get(body, "imageUrl"))
  }

  const TransformationKeys: set<string> := {"width", "height", "crop", "fit", "quality"}

  /** The route's transformation defaults. */
  const RouteTransformations: Object :=
    map["width" := Num(1080), "height" := Num(1080), "crop" := Bool(false), "fit" := Str("cover"), "quality" := Num(80)]

  /** `{ width: 1080, height: 1080, crop: false, fit: "cover",
        quality: t?.quality ?? 80, ...t }`: a shallow merge in which every key the
      caller supplied wins and every other key keeps its default. */
  function MergeTransformations(t: Option<Value>): (m: Object)
    ensures m.Keys == TransformationKeys + Spread(t).Keys
    ensures forall k :: k in Spread(t) ==> m[k] == Spread(t)[k]
    ensures forall k :: k in TransformationKeys && k !in Spread(t) ==> m[k] == RouteTransformations[k]
  {
    map["width" := Num(1080), "height" := Num(1080), "crop" := Bool(false), "fit" := Str("cover"),
        "quality" := Coalesce(Member(t, "quality"), Num(80))] + Spread(t)
  }

  /** The keys the route sets over the body's own. */
  const RouteKeys: set<string> := {"userEmail", "alt", "format", "transformations"}

  /** `{ ...body, userEmail, alt: body.alt ?? "", format: body.format ?? "webp",
        transformations: merged }`. */
  function ImageData(body: Object, email: string): (d: Object)
    ensures d.Keys == body.Keys + RouteKeys
    ensures forall k :: k in body && k !in RouteKeys ==> d[k] == body[k]
    ensures d["userEmail"] == Str(email)
    ensures Nullish(Get(body, "alt")) ==> d["alt"] == Str("")
    ensures !Nullish(Get(body, "alt")) ==> d["alt"] == body["alt"]
    ensures Nullish(Get(body, "format")) ==> d["format"] == Str("webp")
    ensures !Nullish(Get(body, "format")) ==> d["format"] == body["format"]
    ensures d["transformations"] == Obj(MergeTransformations(Get(body, "transformations")))
  {
    body + RouteFields(body, email)
  }

  /** The fields the route sets over the body's own. */
  function RouteFields(body: Object, email: string): (f: Object)
    ensures f.Keys == RouteKeys
  {
    map[
      "userEmail" := Str(email),
      "alt" := Coalesce(Get(body, "alt"), Str("")),
      "format" := Coalesce(Get(body, "format"), Str("webp")),
      "transformations" := Obj(MergeTransformations(Get(body, "transformations")))]
  }

  const CreateFailed := "Failed to create image"

  /** POST: validate, build the document, let the schema cast it, and append it. */
  function CreateImage(st: Store, sessionEmail: Option<string>, body: Object): (s: Step<ImageRecord>)
    ensures !Authorized(sessionEmail) ==> s == Step(Fail(Unauthorized), st)
    ensures Authorized(sessionEmail) && !HasRequiredFields(body) ==> s == Step(Fail(MissingFields), st)
    ensures s.reply.Fail? ==> s.store == st
    ensures Authorized(sessionEmail) && HasRequiredFields(body) ==>
      (s.reply.Ok? <==> CastImage(ImageData(body, sessionEmail.value)).Some?)
    ensures s.reply.Fail? && Authorized(sessionEmail) && HasRequiredFields(body) ==>
      s.reply.failure == ServerError(CreateFailed)
    ensures s.reply.Ok? ==>
      && s.reply.status == 201
      && Authorized(sessionEmail) && HasRequiredFields(body)
      && s.reply.value.userEmail == sessionEmail.value
      && s.reply.value.id == st.nextId && s.reply.value.createdAt == st.clock
      && Some(s.reply.value.doc) == CastImage(ImageData(body, sessionEmail.value))
      && s.store == st.(images := st.images + [s.reply.value], nextId := st.nextId + 1, clock := st.clock + 1)
  {
    if !Authorized(sessionEmail) then Step(Fail(Unauthorized), st)
    else if !HasRequiredFields(body) then Step(Fail(MissingFields), st)
    else
      match CastImage(ImageData(body, sessionEmail.value))
      case None => Step(Fail(ServerError(CreateFailed)), st)
      case Some(doc) =>
        var rec := ImageRecord(st.nextId, st.clock, sessionEmail.value, doc);
        Step(Ok(201, rec), st.(images := st.images + [rec], nextId := st.nextId + 1, clock := st.clock + 1))
  }

  /** A signed-in request whose body has the required fields and casts is created with
      the cast document. */
  lemma CreateFromCastable(st: Store, email: string, body: Object, doc: ImageDoc)
    requires |email| > 0 && HasRequiredFields(body)
    requires CastImage(ImageData(body, email)) == Some(doc)
    ensures CreateImage(st, Some(email), body).reply.Ok?
    ensures CreateImage(st, Some(email), body).reply.value.userEmail == email
    ensures CreateImage(st, Some(email), body).reply.value.doc == doc
  {
  }

  /** The first record matching both id and owner (`findOneAndDelete`), or `|s|`. */
  function FindOwned(s: seq<ImageRecord>, id: string, email: string): (i: nat)
    ensures i <= |s|
    ensures i < |s| ==> IdString(s[i].id) == id && s[i].userEmail == email
    ensures forall j :: 0 <= j < i ==> !(IdString(s[j].id) == id && s[j].userEmail == email)
  {
    if |s| == 0 then 0
    else if IdString(s[0].id) == id && s[0].userEmail == email then 0
    else 1 + FindOwned(s[1..], id, email)
  }

  const DeleteFailed := "Failed to delete image"

  /** DELETE `?id=`: remove the caller's record with that id. "Absent" and "someone
      else's" give the same 404. */
  function DeleteImage(st: Store, sessionEmail: Option<string>, idParam: Option<string>): (s: Step<ImageRecord>)
    ensures !Authorized(sessionEmail) ==> s == Step(Fail(Unauthorized), st)
    ensures Authorized(sessionEmail) && (idParam.None? || idParam.value == "") ==> s == Step(Fail(MissingId), st)
    ensures s.reply.Fail? ==> s.store == st
    ensures s.reply.Fail? && Authorized(sessionEmail) && idParam.Some? && idParam.value != "" ==>
      && s.reply.failure == NotFound
      && forall r :: r in st.images ==> !(IdString(r.id) == idParam.value && r.userEmail == sessionEmail.value)
    ensures s.reply.Ok? ==>
      && s.reply.status == 200
      && Authorized(sessionEmail) && idParam.Some?
      && IdString(s.reply.value.id) == idParam.value && s.reply.value.userEmail == sessionEmail.value
      && |s.store.images| == |st.images| - 1
      && (exists i :: 0 <= i < |st.images| && st.images[i] == s.reply.value
                      && s.store.images == st.images[..i] + st.images[i + 1..])
      && s.store == st.(images := s.store.images)
  {
    if !Authorized(sessionEmail) then Step(Fail(Unauthorized), st)
    else if idParam.None? || idParam.value == "" then Step(Fail(MissingId), st)
    else
      var i := FindOwned(st.images, idParam.value, sessionEmail.value);
      if i == |st.images| then Step(Fail(NotFound), st)
      else Step(Ok(200, st.images[i]), st.(images := st.images[..i] + st.images[i + 1..]))
  }

  /** The `?? 80` in the merge is redundant: the spread overrides `quality` whenever
      the caller supplied it, so the merge is the fixed defaults overlaid with the
      caller's keys. */
  lemma QualityCoalesceIsRedundant(t: Option<Value>)
    ensures MergeTransformations(t) == RouteTransformations + Spread(t)
  {
  }

  /** The stored transformations field by field: a field the caller supplied is the
      caller's value as the schema casts it, any other keeps the
      route's default. */
  lemma CreatedTransformations(st: Store, sessionEmail: Option<string>, body: Object)
    requires CreateImage(st, sessionEmail, body).reply.Ok?
    ensures var t := CreateImage(st, sessionEmail, body).reply.value.doc.transformations;
            var given := Spread(Get(body, "transformations"));
            && ("width" in given ==> CastNumber(given["width"]) == Some(t.width))
            && ("width" !in given ==> t.width == 1080)
            && ("height" in given ==> CastNumber(given["height"]) == Some(t.height))
            && ("height" !in given ==> t.height == 1080)
            && ("crop" in given ==> CastBoolean(given["crop"]) == Some(t.crop))
            && ("crop" !in given ==> !t.crop)
            && ("fit" in given ==> given["fit"] == Str(FitName(t.fit)))
            && ("fit" !in given ==> t.fit == Cover)
            && ("quality" in given ==> t.quality.Some? && CastNumber(given["quality"]) == t.quality)
            && ("quality" !in given ==> t.quality == Some(80))
  {
    var tr := CreateImage(st, sessionEmail, body).reply.value.doc.transformations;
    CreatedCastsMerge(st, sessionEmail, body);
    MergeCastFields(Get(body, "transformations"), tr);
  }

  /** A created image's transformations are the schema's cast of the route's merge. */
  lemma CreatedCastsMerge(st: Store, sessionEmail: Option<string>, body: Object)
    requires CreateImage(st, sessionEmail, body).reply.Ok?
    ensures Some(CreateImage(st, sessionEmail, body).reply.value.doc.transformations)
         == TransformationsOf(Some(Obj(MergeTransformations(Get(body, "transformations")))))
  {
    var data := ImageData(body, sessionEmail.value);
    assert Get(data, "transformations") == Some(Obj(MergeTransformations(Get(body, "transformations"))));
  }

  /** The cast of the merge, field by field: a supplied field is cast, any other
      keeps the route's default. */
  lemma MergeCastFields(t: Option<Value>, tr: Transformations)
    requires TransformationsOf(Some(Obj(MergeTransformations(t)))) == Some(tr)
    ensures var given := Spread(t);
            && ("width" in given ==> CastNumber(given["width"]) == Some(tr.width))
            && ("width" !in given ==> tr.width == 1080)
            && ("height" in given ==> CastNumber(given["height"]) == Some(tr.height))
            && ("height" !in given ==> tr.height == 1080)
            && ("crop" in given ==> CastBoolean(given["crop"]) == Some(tr.crop))
            && ("crop" !in given ==> !tr.crop)
            && ("fit" in given ==> given["fit"] == Str(FitName(tr.fit)))
            && ("fit" !in given ==> tr.fit == Cover)
            && ("quality" in given ==> tr.quality.Some? && CastNumber(given["quality"]) == tr.quality)
            && ("quality" !in given ==> tr.quality == Some(80))
  {
    var m := MergeTransformations(t);
    assert forall k :: k in TransformationKeys ==> Get(m, k) == Some(m[k]);
  }

  /** Without transformations (absent or null) a created image gets every default. */
  lemma AbsentTransformationsGetDefaults(st: Store, sessionEmail: Option<string>, body: Object)
    requires Nullish(Get(body, "transformations"))
    requires CreateImage(st, sessionEmail, body).reply.Ok?
    ensures CreateImage(st, sessionEmail, body).reply.value.doc.transformations
         == Transformations(1080, 1080, false, Cover, Some(80))
  {
    CreatedTransformations(st, sessionEmail, body);
  }

  /** A caller supplying only `quality` still gets the default width, height, crop and fit. */
  lemma QualityOnlyOverridesQuality(st: Store, sessionEmail: Option<string>, body: Object, q: int)
    requires Get(body, "transformations") == Some(Obj(map["quality" := Num(q)]))
    requires CreateImage(st, sessionEmail, body).reply.Ok?
    ensures CreateImage(st, sessionEmail, body).reply.value.doc.transformations
         == Transformations(1080, 1080, false, Cover, Some(q))
  {
    CreatedTransformations(st, sessionEmail, body);
  }

  /** `alt` and `format` take their defaults only when nullish; supplied values are kept. */
  lemma AltAndFormatDefaults(st: Store, sessionEmail: Option<string>, body: Object)
    requires CreateImage(st, sessionEmail, body).reply.Ok?
    ensures var d := CreateImage(st, sessionEmail, body).reply.value.doc;
            && (Nullish(Get(body, "alt")) ==> d.alt == "")
            && (!Nullish(Get(body, "alt")) ==> CastString(body["alt"]) == Some(d.alt))
            && (Nullish(Get(body, "format")) ==> d.format == Webp)
            && (!Nullish(Get(body, "format")) ==> body["format"] == Str(FormatName(d.format)))
  {
    var data := ImageData(body, sessionEmail.value);
    assert Get(data, "alt") == Some(data["alt"]);
    assert Get(data, "format") == Some(data["format"]);
  }

  /** The owner comes from the session: whatever `userEmail` the body carries, the
      outcome is the same as without it. */
  lemma BodyOwnerIsIgnored(st: Store, sessionEmail: Option<string>, body: Object, claimed: Value)
    ensures CreateImage(st, sessionEmail, body["userEmail" := claimed])
         == CreateImage(st, sessionEmail, body - {"userEmail"})
  {
    var b1 := body["userEmail" := claimed];
    var b2 := body - {"userEmail"};
    if Authorized(sessionEmail) {
      assert Get(b1, "title") == Get(b2, "title");
      assert Get(b1, "description") == Get(b2, "description");
      assert Get(b1, "imageUrl") == Get(b2, "imageUrl");
      ImageDataIgnoresOwner(body, sessionEmail.value, claimed);
    }
  }

  lemma ImageDataIgnoresOwner(body: Object, email: string, claimed: Value)
    ensures ImageData(body["userEmail" := claimed], email) == ImageData(body - {"userEmail"}, email)
  {
    var b1 := body["userEmail" := claimed];
    var b2 := body - {"userEmail"};
    assert Get(b1, "alt") == Get(b2, "alt");
    assert Get(b1, "format") == Get(b2, "format");
    assert Get(b1, "transformations") == Get(b2, "transformations");
    var f := RouteFields(b1, email);
    assert RouteFields(b2, email) == f;
    OverlayHides(b1, b2, f);
  }

  /** Two objects that differ only on keys an overlay sets are equal once overlaid. */
  lemma OverlayHides(a: Object, b: Object, over: Object)
    requires forall k :: k !in over ==> (k in a <==> k in b)
    requires forall k :: k !in over && k in a ==> a[k] == b[k]
    ensures a + over == b + over
  {
    var l, r := a + over, b + over;
    assert l.Keys == r.Keys;
    assert forall k :: k in l ==> l[k] == r[k];
  }

  /** A body holding just the three required fields is created with every default. */
  lemma MinimalBodyIsCreated(st: Store, email: string, title: string, description: string, url: string)
    requires |email| > 0 && |title| > 0 && |description| > 0 && |url| > 0
    ensures var s := CreateImage(st, Some(email), map["title" := Str(title), "description" := Str(description), "imageUrl" := Str(url)]);
            && s.reply.Ok?
            && s.reply.value.userEmail == email
            && s.reply.value.doc == ImageDoc(title, description, url, "", Webp, Transformations(1080, 1080, false, Cover, Some(80)))
  {
    var body := map["title" := Str(title), "description" := Str(description), "imageUrl" := Str(url)];
    var doc := ImageDoc(title, description, url, "", Webp, Transformations(1080, 1080, false, Cover, Some(80)));
    MinimalBodyCreated(st, email, body, Str(title), doc);
  }

  /** A title that is a non-zero number passes the route's truthiness check and the
      schema's String cast stores it as its text: the body `{"title": 5, ...}` is
      created with the title "5". */
  lemma NumericTitleIsStoredAsText(st: Store, email: string, n: int, description: string, url: string)
    requires |email| > 0 && n != 0 && |description| > 0 && |url| > 0
    ensures var s := CreateImage(st, Some(email), map["title" := Num(n), "description" := Str(description), "imageUrl" := Str(url)]);
            && s.reply.Ok?
            && s.reply.value.doc.title == Text.IntToString(n)
  {
    var body := map["title" := Num(n), "description" := Str(description), "imageUrl" := Str(url)];
    var doc := ImageDoc(Text.IntToString(n), description, url, "", Webp, Transformations(1080, 1080, false, Cover, Some(80)));
    MinimalBodyCreated(st, email, body, Num(n), doc);
  }

  /** A signed-in minimal body whose title is truthy and casts to `doc.title` is
      created with `doc`. */
  lemma MinimalBodyCreated(st: Store, email: string, body: Object, title: Value, doc: ImageDoc)
    requires |email| > 0
    requires body == map["title" := title, "description" := Str(doc.description), "imageUrl" := Str(doc.imageUrl)]
    requires Truthy(Some(title)) && RequiredString(Some(title)) == Some(doc.title)
    requires |doc.description| > 0 && |doc.imageUrl| > 0
    requires doc.alt == "" && doc.format == Webp && doc.transformations == Transformations(1080, 1080, false, Cover, Some(80))
    ensures CreateImage(st, Some(email), body).reply.Ok?
    ensures CreateImage(st, Some(email), body).reply.value.userEmail == email
    ensures CreateImage(st, Some(email), body).reply.value.doc == doc
  {
    MinimalBodyCast(body, email, title, doc);
    assert Get(body, "title") == Some(title);
    assert Get(body, "description") == Some(Str(doc.description));
    assert Get(body, "imageUrl") == Some(Str(doc.imageUrl));
    CreateFromCastable(st, email, body, doc);
  }

  /** A minimal body whose title casts to `doc.title` is cast to `doc` with every
      default. */
  lemma MinimalBodyCast(body: Object, email: string, title: Value, doc: ImageDoc)
    requires body == map["title" := title, "description" := Str(doc.description), "imageUrl" := Str(doc.imageUrl)]
    requires RequiredString(Some(title)) == Some(doc.title)
    requires |doc.description| > 0 && |doc.imageUrl| > 0
    requires doc.alt == "" && doc.format == Webp && doc.transformations == Transformations(1080, 1080, false, Cover, Some(80))
    ensures CastImage(ImageData(body, email)) == Some(doc)
  {
    var data := ImageData(body, email);
    MinimalBodyData(body, email, title, doc.description, doc.imageUrl);
    RouteTransformationsCast();
    assert FormatOf(Some(Str("webp"))) == Some(Webp);
    CastFromFields(data, doc);
  }

  lemma MinimalBodyData(body: Object, email: string, title: Value, description: string, url: string)
    requires body == map["title" := title, "description" := Str(description), "imageUrl" := Str(url)]
    ensures var data := ImageData(body, email);
            && Get(data, "title") == Some(title)
            && Get(data, "description") == Some(Str(description))
            && Get(data, "imageUrl") == Some(Str(url))
            && Get(data, "alt") == Some(Str(""))
            && Get(data, "format") == Some(Str("webp"))
            && Get(data, "transformations") == Some(Obj(RouteTransformations))
  {
    MinimalBodyKeepsFields(body, email, title, description, url);
    MinimalBodyDefaults(body, email);
  }

  /** The three fields the body does carry pass through unchanged. */
  lemma MinimalBodyKeepsFields(body: Object, email: string, title: Value, description: string, url: string)
    requires body == map["title" := title, "description" := Str(description), "imageUrl" := Str(url)]
    ensures var data := ImageData(body, email);
            && Get(data, "title") == Some(title)
            && Get(data, "description") == Some(Str(description))
            && Get(data, "imageUrl") == Some(Str(url))
  {
    assert "title" !in RouteKeys && "description" !in RouteKeys && "imageUrl" !in RouteKeys;
  }

  /** A body without alt, format and transformations gets the route's defaults for them. */
  lemma MinimalBodyDefaults(body: Object, email: string)
    requires "alt" !in body && "format" !in body && "transformations" !in body
    ensures var data := ImageData(body, email);
            && Get(data, "alt") == Some(Str(""))
            && Get(data, "format") == Some(Str("webp"))
            && Get(data, "transformations") == Some(Obj(RouteTransformations))
  {
    MergeOfAbsent();
  }

  /** Without caller transformations the merge is the route's defaults. */
  lemma MergeOfAbsent()
    ensures MergeTransformations(None) == RouteTransformations
  {
    var m := MergeTransformations(None);
    assert m.Keys == RouteTransformations.Keys;
    assert forall k :: k in m ==> m[k] == RouteTransformations[k];
  }

  lemma RouteTransformationsCast()
    ensures TransformationsOf(Some(Obj(RouteTransformations))) == Some(Transformations(1080, 1080, false, Cover, Some(80)))
  {
    var m := RouteTransformations;
    assert Get(m, "width") == Some(Num(1080)) && Get(m, "height") == Some(Num(1080));
    assert Get(m, "crop") == Some(Bool(false)) && Get(m, "fit") == Some(Str("cover"));
    assert Get(m, "quality") == Some(Num(80));
  }

  lemma {:induction false} OwnedByConcat(a: seq<ImageRecord>, b: seq<ImageRecord>, email: string)
    ensures OwnedBy(a + b, email) == OwnedBy(a, email) + OwnedBy(b, email)
  {
    if |a| == 0 {
      assert a + b == b;
    } else {
      assert (a + b)[0] == a[0];
      assert (a + b)[1..] == a[1..] + b;
      OwnedByConcat(a[1..], b, email);
      if a[0].userEmail == email {
        assert OwnedBy(a + b, email) == [a[0]] + (OwnedBy(a[1..], email) + OwnedBy(b, email));
      }
    }
  }

  /** Creating an image leaves every other owner's list as it was. */
  lemma CreateIsolatesOwners(st: Store, sessionEmail: Option<string>, body: Object, other: string)
    requires Authorized(sessionEmail) && other != sessionEmail.value
    ensures OwnedBy(CreateImage(st, sessionEmail, body).store.images, other) == OwnedBy(st.images, other)
  {
    var s := CreateImage(st, sessionEmail, body);
    if s.reply.Ok? {
      OwnedByConcat(st.images, [s.reply.value], other);
      assert OwnedBy([s.reply.value], other) == [];
    }
  }

  /** Deleting an image leaves every other owner's list as it was. */
  lemma DeleteIsolatesOwners(st: Store, sessionEmail: Option<string>, idParam: Option<string>, other: string)
    requires Authorized(sessionEmail) && other != sessionEmail.value
    ensures OwnedBy(DeleteImage(st, sessionEmail, idParam).store.images, other) == OwnedBy(st.images, other)
  {
    var s := DeleteImage(st, sessionEmail, idParam);
    if s.reply.Ok? {
      var i := FindOwned(st.images, idParam.value, sessionEmail.value);
      assert s.store.images == st.images[..i] + st.images[i + 1..];
      assert st.images == st.images[..i] + ([st.images[i]] + st.images[i + 1..]);
      OwnedByConcat(st.images[..i], [st.images[i]] + st.images[i + 1..], other);
      OwnedByConcat([st.images[i]], st.images[i + 1..], other);
      OwnedByConcat(st.images[..i], st.images[i + 1..], other);
      assert OwnedBy([st.images[i]], other) == [];
    }
  }

  /** A record someone else owns cannot be deleted: 404 and nothing changes. */
  lemma ForeignDeleteIsNotFound(st: Store, email: string, id: string)
    requires |email| > 0 && id != ""
    requires forall r :: r in st.images && IdString(r.id) == id ==> r.userEmail != email
    ensures DeleteImage(st, Some(email), Some(id)) == Step(Fail(NotFound), st)
  {
  }

  /** Creating keeps a well-formed store well formed. */
  lemma CreatePreservesWellFormed(st: Store, sessionEmail: Option<string>, body: Object)
    requires WellFormed(st)
    ensures WellFormed(CreateImage(st, sessionEmail, body).store)
  {
    var s := CreateImage(st, sessionEmail, body);
    if s.reply.Ok? {
      AppendPreservesWellFormed(st, s.reply.value);
    }
  }

  /** Appending a valid record stamped with the next id and time, and advancing both. */
  lemma AppendPreservesWellFormed(st: Store, rec: ImageRecord)
    requires WellFormed(st)
    requires rec.id == st.nextId && rec.createdAt == st.clock
    requires ValidImage(rec.doc) && |rec.userEmail| > 0
    ensures WellFormed(st.(images := st.images + [rec], nextId := st.nextId + 1, clock := st.clock + 1))
  {
    var n := st.images + [rec];
    assert forall k :: 0 <= k < |st.images| ==> n[k] == st.images[k];
  }

  /** Deleting keeps a well-formed store well formed. */
  lemma DeletePreservesWellFormed(st: Store, sessionEmail: Option<string>, idParam: Option<string>)
    requires WellFormed(st)
    ensures WellFormed(DeleteImage(st, sessionEmail, idParam).store)
  {
    var s := DeleteImage(st, sessionEmail, idParam);
    if s.reply.Ok? {
      var i :| 0 <= i < |st.images| && st.images[i] == s.reply.value
               && s.store.images == st.images[..i] + st.images[i + 1..];
      RemovePreservesImageInvariant(st, i);
    }
  }

  lemma RemovePreservesImageInvariant(st: Store, i: nat)
    requires WellFormed(st) && i < |st.images|
    ensures WellFormed(st.(images := st.images[..i] + st.images[i + 1..]))
  {
    var s := st.images;
    var n := s[..i] + s[i + 1..];
    assert forall k :: 0 <= k < |n| ==> n[k] == s[if k < i then k else k + 1];
    assert ImagesOrdered(n, st.nextId, st.clock) by {
      forall a, b | 0 <= a < b < |n|
        ensures n[a].id != n[b].id && n[a].createdAt < n[b].createdAt
      {
        var a', b' := if a < i then a else a + 1, if b < i then b else b + 1;
        assert n[a] == s[a'] && n[b] == s[b'] && a' < b';
      }
    }
  }

  /** Two creates with the same body give two records with distinct ids and increasing
      creation times, and the owner's list shows the later one first. */
  lemma TwoCreatesAreDistinct(st: Store, email: string, body: Object)
    requires |email| > 0
    requires CreateImage(st, Some(email), body).reply.Ok?
    ensures var s1 := CreateImage(st, Some(email), body);
            var s2 := CreateImage(s1.store, Some(email), body);
            && s2.reply.Ok?
            && s1.reply.value.id != s2.reply.value.id
            && s1.reply.value.createdAt < s2.reply.value.createdAt
            && var l := ListImages(s2.store, Some(email)).value;
               && s1.reply.value in l && s2.reply.value in l
               && forall i, j :: 0 <= i < |l| && 0 <= j < |l| && l[i] == s2.reply.value && l[j] == s1.reply.value ==> i < j
  {
    var s1 := CreateImage(st, Some(email), body);
    var s2 := CreateImage(s1.store, Some(email), body);
    var r1 := s1.reply.value;
    var r2 := s2.reply.value;
    var l := ListImages(s2.store, Some(email)).value;
    assert s2.store.images == st.images + [r1] + [r2];
    assert multiset(s2.store.images)[r1] > 0 && multiset(s2.store.images)[r2] > 0;
    assert multiset(l)[r1] > 0 && multiset(l)[r2] > 0;
    NewerListedFirst(l, r2, r1);
  }

  /** In a newest-first list, a strictly newer record comes before an older one. */
  lemma NewerListedFirst(l: seq<ImageRecord>, newer: ImageRecord, older: ImageRecord)
    requires SortedDesc(l, ImageTime)
    requires older.createdAt < newer.createdAt
    ensures forall i, j :: 0 <= i < |l| && 0 <= j < |l| && l[i] == newer && l[j] == older ==> i < j
  {
    forall i, j | 0 <= i < |l| && 0 <= j < |l| && l[i] == newer && l[j] == older
      ensures i < j
    {
      assert ImageTime(older) < ImageTime(newer);
    }
  }
}
