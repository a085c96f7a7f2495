/** `app/api/video/route.ts`: list every video and create a video record. Unlike the
    image list, the video list is not filtered by owner. */
module VideoRoute {
  import opened Options
  import opened Json
  import opened MediaStore
  import opened ApiReply

  /** GET: every video in the store, newest first, whoever asks. */
  function ListVideos(st: Store, sessionEmail: Option<string>): (r: Reply<seq<VideoRecord>>)
    ensures !Authorized(sessionEmail) ==> r == Fail(Unauthorized)
    ensures Authorized(sessionEmail) ==> r.Ok? && r.status == 200
    ensures r.Ok? ==> SortedDesc(r.value, VideoTime) && multiset(r.value) == multiset(st.videos)
  {
    if !Authorized(sessionEmail) then Fail(Unauthorized)
    else Ok(200, SortDesc(st.videos, VideoTime))
  }

  /** `!body.title || !body.description || !body.videoUrl || !body.thumbnailUrl` is false. */
  predicate HasRequiredFields(body: Object)
  {
    && Truthy(Get(body, "title")) && Truthy(Get(body, "description"))
    && Truthy(Get(body, "videoUrl")) && Truthy(Get(body, "thumbnailUrl"))
  }

  /** `{ width: 1080, height: 1920, quality: t?.quality ?? 100 }`: fixed dimensions,
      the caller's quality or 100, and nothing else of the caller's. */
  function VideoTransformations(t: Option<Value>): (m: Object)
    ensures m.Keys == {"width", "height", "quality"}
    ensures m["width"] == Num(1080) && m["height"] == Num(1920)
    ensures Nullish(Member(t, "quality")) ==> m["quality"] == Num(100)
    ensures !Nullish(Member(t, "quality")) ==> m["quality"] == t.value.fields["quality"]
  {
    map["width" := Num(1080), "height" := Num(1920), "quality" := Coalesce(Member(t, "quality"), Num(100))]
  }

  const RouteKeys: set<string> := {"userEmail", "controls", "transformations"}

  /** `{ ...body, userEmail, controls: body.controls ?? true, transformations }`. */
  function VideoData(body: Object, email: string): (d: Object)
    ensures d.Keys == body.Keys + RouteKeys
    ensures forall k :: k in body && k !in RouteKeys ==> d[k] == body[k]
    ensures d["userEmail"] == Str(email)
    ensures Nullish(Get(body, "controls")) ==> d["controls"] == Bool(true)
    ensures !Nullish(Get(body, "controls")) ==> d["controls"] == body["controls"]
    ensures d["transformations"] == Obj(VideoTransformations(Get(body, "transformations")))
  {
    body + map[
      "userEmail" := Str(email),
      "controls" := Coalesce(Get(body, "controls"), Bool(true)),
      "transformations" := Obj(VideoTransformations(Get(body, "transformations")))]
  }

  /** POST: validate and append. */
  function CreateVideo(st: Store, sessionEmail: Option<string>, body: Object): (s: Step<VideoRecord>)
    ensures !Authorized(sessionEmail) ==> s == Step(Fail(Unauthorized), st)
    ensures Authorized(sessionEmail) && !HasRequiredFields(body) ==> s == Step(Fail(MissingFields), st)
    ensures s.reply.Fail? ==> s.store == st
    ensures Authorized(sessionEmail) && HasRequiredFields(body) ==> s.reply.Ok?
    ensures s.reply.Ok? ==>
      && s.reply.status == 201
      && s.reply.value.userEmail == sessionEmail.value
      && s.reply.value.doc == VideoData(body, sessionEmail.value)
      && s.reply.value.id == st.nextId && s.reply.value.createdAt == st.clock
      && s.store == st.(videos := st.videos + [s.reply.value], nextId := st.nextId + 1, clock := st.clock + 1)
  {
    if !Authorized(sessionEmail) then Step(Fail(Unauthorized), st)
    else if !HasRequiredFields(body) then Step(Fail(MissingFields), st)
    else
      var rec := VideoRecord(st.nextId, st.clock, sessionEmail.value, VideoData(body, sessionEmail.value));
      Step(Ok(201, rec), st.(videos := st.videos + [rec], nextId := st.nextId + 1, clock := st.clock + 1))
  }

  /** The stored transformations ignore the caller's width, height and any other key:
      two bodies that agree on everything but their transformations' other keys are
      stored alike. */
  lemma OnlyQualityIsTakenFromCaller(t1: Object, t2: Object)
    requires Get(t1, "quality") == Get(t2, "quality")
    ensures VideoTransformations(Some(Obj(t1))) == VideoTransformations(Some(Obj(t2)))
  {
  }

  /** `controls: false` is kept: only a nullish value is defaulted. */
  lemma ExplicitControlsAreKept(body: Object, email: string, c: bool)
    requires Get(body, "controls") == Some(Bool(c))
    ensures VideoData(body, email)["controls"] == Bool(c)
  {
  }

  /** Every signed-in user sees the same list, including other users' videos. */
  lemma ListIsTheSameForEveryone(st: Store, e1: string, e2: string)
    requires |e1| > 0 && |e2| > 0
    ensures ListVideos(st, Some(e1)) == ListVideos(st, Some(e2))
  {
  }

  /** Creating keeps a well-formed store well formed. */
  lemma CreatePreservesWellFormed(st: Store, sessionEmail: Option<string>, body: Object)
    requires WellFormed(st)
    ensures WellFormed(CreateVideo(st, sessionEmail, body).store)
  {
  }
}
