/** The in-memory stand-in for the two document collections (images, videos): records
    in insertion order, a counter for fresh ids and a logical clock for `createdAt`,
    plus the two queries the list routes run on them (owner filter, newest-first sort). */
module MediaStore {
  import opened Json
  import opened Text
  import opened ImageSchema

  datatype ImageRecord = ImageRecord(id: nat, createdAt: nat, userEmail: string, doc: ImageDoc)

  /** The video schema is not part of this model: a video record keeps the document the
      route built, beside its id, creation time and owner. */
  datatype VideoRecord = VideoRecord(id: nat, createdAt: nat, userEmail: string, doc: Object)

  datatype Store = Store(images: seq<ImageRecord>, videos: seq<VideoRecord>, nextId: nat, clock: nat)

  const EmptyStore := Store([], [], 0, 0)

  /** The id as it travels in JSON and in the `?id=` query parameter. */
  function IdString(id: nat): string
  {
    NatToString(id)
  }

  function ImageTime(r: ImageRecord): nat { r.createdAt }
  function VideoTime(r: VideoRecord): nat { r.createdAt }

  /** Ordered by `key` descending, as `.sort({ createdAt: -1 })` returns them. */
  predicate SortedDesc<T>(s: seq<T>, key: T -> nat)
  {
    forall i, j :: 0 <= i < j < |s| ==> key(s[i]) >= key(s[j])
  }

  function InsertDesc<T>(x: T, s: seq<T>, key: T -> nat): (r: seq<T>)
    requires SortedDesc(s, key)
    ensures |r| == |s| + 1
    ensures r[0] == x || (|s| > 0 && r[0] == s[0])
    ensures SortedDesc(r, key)
    ensures multiset(r) == multiset(s) + multiset{x}
  {
    if |s| == 0 then [x]
    else if key(x) >= key(s[0]) then [x] + s
    else
      var rest := InsertDesc(x, s[1..], key);
      assert s == [s[0]] + s[1..];
      PrependSorted(s[0], rest, key);
      [s[0]] + rest
  }

  /** A head no smaller than the first element keeps a newest-first list ordered. */
  lemma PrependSorted<T>(y: T, s: seq<T>, key: T -> nat)
    requires SortedDesc(s, key)
    requires |s| > 0 ==> key(y) >= key(s[0])
    ensures SortedDesc([y] + s, key)
  {
    var r := [y] + s;
    forall i, j | 0 <= i < j < |r|
      ensures key(r[i]) >= key(r[j])
    {
      if i == 0 {
        assert r[j] == s[j - 1];
        assert key(s[0]) >= key(s[j - 1]) || j == 1;
      } else {
        assert r[i] == s[i - 1] && r[j] == s[j - 1];
      }
    }
  }

  /** Newest first; records with equal keys keep no particular order. */
  function SortDesc<T>(s: seq<T>, key: T -> nat): (r: seq<T>)
    ensures SortedDesc(r, key)
    ensures multiset(r) == multiset(s)
  {
    if |s| == 0 then []
    else
      assert s == [s[0]] + s[1..];
      InsertDesc(s[0], SortDesc(s[1..], key), key)
  }

  /** `Image.find({ userEmail })`: the records of one owner, in store order. */
  function OwnedBy(s: seq<ImageRecord>, email: string): (r: seq<ImageRecord>)
    ensures |r| <= |s|
    ensures forall i :: 0 <= i < |r| ==> r[i].userEmail == email
  {
    if |s| == 0 then []
    else if s[0].userEmail == email then [s[0]] + OwnedBy(s[1..], email) else OwnedBy(s[1..], email)
  }

  /** The owner filter keeps every record of the owner, as often as it occurs, and no other. */
  lemma {:induction false} OwnedByCounts(s: seq<ImageRecord>, email: string)
    ensures forall x :: multiset(OwnedBy(s, email))[x] == if x.userEmail == email then multiset(s)[x] else 0
  {
    if |s| > 0 {
      assert s == [s[0]] + s[1..];
      OwnedByCounts(s[1..], email);
    }
  }

  /** Ids are fresh and distinct, and creation times strictly increase in store order. */
  predicate ImagesOrdered(s: seq<ImageRecord>, nextId: nat, clock: nat)
  {
    && (forall i :: 0 <= i < |s| ==> s[i].id < nextId && s[i].createdAt < clock)
    && (forall i, j :: 0 <= i < j < |s| ==> s[i].id != s[j].id && s[i].createdAt < s[j].createdAt)
  }

  predicate VideosOrdered(s: seq<VideoRecord>, nextId: nat, clock: nat)
  {
    && (forall i :: 0 <= i < |s| ==> s[i].id < nextId && s[i].createdAt < clock)
    && (forall i, j :: 0 <= i < j < |s| ==> s[i].id != s[j].id && s[i].createdAt < s[j].createdAt)
  }

  /** What every reachable store satisfies: the above, every image document valid for
      the schema, and every record owned by a non-empty email. */
  predicate WellFormed(st: Store)
  {
    && ImagesOrdered(st.images, st.nextId, st.clock)
    && VideosOrdered(st.videos, st.nextId, st.clock)
    && (forall i :: 0 <= i < |st.images| ==> ValidImage(st.images[i].doc) && |st.images[i].userEmail| > 0)
    && (forall i :: 0 <= i < |st.videos| ==> |st.videos[i].userEmail| > 0)
  }
}
