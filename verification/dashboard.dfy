/** The dashboard page (`app/dashboard/page.tsx`): the m:ss duration label, the
    mapping of fetched records to cards, and which dataset and upload modal the
    active tab selects. */
module Dashboard {
  import opened Options
  import opened Text

  // ---- Duration label ----

  /** `caption` is an m:ss label for `m` minutes and `s` seconds: digits, a colon third
      from the end, and two digits, the two fields reading back as `m` and `s`. */
  predicate ReadsAs(caption: string, m: nat, s: nat)
  {
    && |caption| >= 4 && caption[|caption| - 3] == ':'
    && AllDigits(caption[..|caption| - 3]) && AllDigits(caption[|caption| - 2..])
    && ParseDigits(caption[..|caption| - 3]) == m
    && ParseDigits(caption[|caption| - 2..]) == s
  }

  /** `formatDuration`: whole minutes, a colon, and the remaining seconds padded to
      two digits. The colon is therefore always third from the end. */
  function FormatDuration(seconds: nat): (r: string)
    ensures ReadsAs(r, seconds / 60, seconds % 60)
  {
    var m, s := seconds / 60, seconds % 60;
    var minutes, secs := NatToString(m), PadStart(NatToString(s), 2, '0');
    ParseNatToString(m);
    SecondsField(s);
    JoinedFields(minutes, secs, m, s);
    minutes + ":" + secs
  }

  /** The seconds field: two digits reading back as the value. */
  lemma SecondsField(s: nat)
    requires s < 60
    ensures |PadStart(NatToString(s), 2, '0')| == 2
    ensures AllDigits(PadStart(NatToString(s), 2, '0'))
    ensures ParseDigits(PadStart(NatToString(s), 2, '0')) == s
  {
    var d := NatToString(s);
    var p := PadStart(d, 2, '0');
    ParseNatToString(s);
    if s >= 10 {
      assert d == NatToString(s / 10) + [DigitChar(s % 10)];
      assert |d| == 2;
    } else {
      assert |d| == 1;
      assert p == ['0'] + d;
      assert p[..1] == ['0'];
      assert p[1..] == d;
      assert ParseDigits(p[..1][..0]) == 0;
      assert DigitChar(0) == '0';
      assert ParseDigits(p[..1]) == 0;
    }
  }

  /** Where the fields of a joined caption sit, and what they read as. */
  lemma JoinedFields(a: string, b: string, m: nat, s: nat)
    requires |a| >= 1 && |b| == 2 && AllDigits(a) && AllDigits(b)
    requires ParseDigits(a) == m && ParseDigits(b) == s
    ensures ReadsAs(a + ":" + b, m, s)
  {
    var r := a + ":" + b;
    assert r[..|r| - 3] == a;
    assert r[|r| - 2..] == b;
  }

  /** Reading a caption back: digits, a colon third from the end, two digits of
      seconds below 60; the result is the (minutes, seconds) pair. */
  function ParseDuration(caption: string): (r: Option<(nat, nat)>)
    ensures r.Some? ==> |caption| >= 4 && caption[|caption| - 3] == ':' && r.value.1 < 60
  {
    if |caption| >= 4 && caption[|caption| - 3] == ':'
       && AllDigits(caption[..|caption| - 3]) && AllDigits(caption[|caption| - 2..])
       && ParseDigits(caption[|caption| - 2..]) < 60
    then Some((ParseDigits(caption[..|caption| - 3]), ParseDigits(caption[|caption| - 2..])))
    else None
  }

  /** The total a (minutes, seconds) pair stands for. */
  function TotalSeconds(p: (nat, nat)): nat
  {
    p.0 * 60 + p.1
  }

  /** The label loses nothing of a natural duration: it reads back as whole minutes
      and a seconds field below 60 that together make the duration. */
  lemma DurationRoundTrip(seconds: nat)
    ensures ParseDuration(FormatDuration(seconds)).Some?
    ensures TotalSeconds(ParseDuration(FormatDuration(seconds)).value) == seconds
  {
    var r := FormatDuration(seconds);
    assert ParseDuration(r) == Some((seconds / 60, seconds % 60));
  }

  /** Distinct durations get distinct labels. */
  lemma FormatDurationInjective(a: nat, b: nat)
    requires FormatDuration(a) == FormatDuration(b)
    ensures a == b
  {
    DurationRoundTrip(a);
    DurationRoundTrip(b);
  }

  // ---- Cards ----

  /** An image record as the list endpoint returns it; `_id` and `createdAt` may be absent. */
  datatype FetchedImage = FetchedImage(id: Option<string>, title: string, imageUrl: string, createdAt: Option<string>)
  datatype FetchedVideo = FetchedVideo(id: Option<string>, title: string, thumbnailUrl: string, createdAt: Option<string>, duration: nat)

  /** A card's date: "Unknown", or a timestamp that the browser renders in its locale. */
  datatype CardDate = Unknown | Dated(createdAt: string)

  datatype ImageCard = ImageCard(id: string, title: string, thumbnail: string, date: CardDate, aiFeatures: seq<string>)
  datatype VideoCard = VideoCard(id: string, title: string, thumbnail: string, date: CardDate, aiFeatures: seq<string>, duration: nat)

  const ImageFeatures: seq<string> := ["AI Enhanced", "Auto Format"]
  const VideoFeatures: seq<string> := ["AI Enhanced", "Auto Format", "Smart Compression"]

  /** `x?.toString() || ""`: the id, or "" when absent. */
  function CardId(id: Option<string>): (r: string)
    ensures id.Some? ==> r == id.value
    ensures id.None? ==> r == ""
  {
    id.GetOr("")
  }

  /** A truthy `createdAt` is dated; an absent or empty one is "Unknown". */
  function DateOf(createdAt: Option<string>): (r: CardDate)
    ensures r.Unknown? <==> createdAt.None? || createdAt.value == ""
    ensures r.Dated? ==> r.createdAt == createdAt.value
  {
    if createdAt.Some? && createdAt.value != "" then Dated(createdAt.value) else Unknown
  }

  function ImageCardOf(x: FetchedImage): (c: ImageCard)
    ensures c.id == CardId(x.id) && c.title == x.title && c.thumbnail == x.imageUrl
    ensures c.date == DateOf(x.createdAt) && c.aiFeatures == ImageFeatures
  {
    ImageCard(CardId(x.id), x.title, x.imageUrl, DateOf(x.createdAt), ImageFeatures)
  }

  function VideoCardOf(x: FetchedVideo): (c: VideoCard)
    ensures c.id == CardId(x.id) && c.title == x.title && c.thumbnail == x.thumbnailUrl
    ensures c.date == DateOf(x.createdAt) && c.aiFeatures == VideoFeatures
    ensures c.duration == x.duration
  {
    VideoCard(CardId(x.id), x.title, x.thumbnailUrl, DateOf(x.createdAt), VideoFeatures, x.duration)
  }

  /** The records mapped one for one, order kept. */
  function ImageCards(xs: seq<FetchedImage>): (r: seq<ImageCard>)
    ensures |r| == |xs|
    ensures forall i :: 0 <= i < |xs| ==> r[i] == ImageCardOf(xs[i])
  {
    if |xs| == 0 then [] else ImageCards(xs[..|xs| - 1]) + [ImageCardOf(xs[|xs| - 1])]
  }

  function VideoCards(xs: seq<FetchedVideo>): (r: seq<VideoCard>)
    ensures |r| == |xs|
    ensures forall i :: 0 <= i < |xs| ==> r[i] == VideoCardOf(xs[i])
  {
    if |xs| == 0 then [] else VideoCards(xs[..|xs| - 1]) + [VideoCardOf(xs[|xs| - 1])]
  }

  /** Cards of a concatenation are the concatenation of the cards. */
  lemma ImageCardsAppend(a: seq<FetchedImage>, b: seq<FetchedImage>)
    ensures ImageCards(a + b) == ImageCards(a) + ImageCards(b)
  {
    assert |ImageCards(a + b)| == |ImageCards(a) + ImageCards(b)|;
    forall i | 0 <= i < |a + b|
      ensures ImageCards(a + b)[i] == (ImageCards(a) + ImageCards(b))[i]
    {
      if i < |a| { assert (a + b)[i] == a[i]; } else { assert (a + b)[i] == b[i - |a|]; }
    }
  }

  /** What a list request gives the page: a failure (thrown or non-ok), or a JSON body
      that is an array of records or something else. */
  datatype ListResponse<T> = RequestFailed | NotAnArray | Records(items: seq<T>)

  /** The first load (`fetchImages`): nothing without a signed-in email; a failure keeps
      the cards; a non-array or an empty array clears them; records are mapped. */
  function LoadImages(hasEmail: bool, prev: seq<ImageCard>, resp: ListResponse<FetchedImage>): (r: seq<ImageCard>)
    ensures !hasEmail || resp.RequestFailed? ==> r == prev
    ensures hasEmail && resp.NotAnArray? ==> r == []
    ensures hasEmail && resp.Records? ==> r == ImageCards(resp.items)
  {
    if !hasEmail then prev
    else match resp
      case RequestFailed => prev
      case NotAnArray => []
      case Records(items) => if |items| == 0 then [] else ImageCards(items)
  }

  function LoadVideos(hasEmail: bool, prev: seq<VideoCard>, resp: ListResponse<FetchedVideo>): (r: seq<VideoCard>)
    ensures !hasEmail || resp.RequestFailed? ==> r == prev
    ensures hasEmail && resp.NotAnArray? ==> r == []
    ensures hasEmail && resp.Records? ==> r == VideoCards(resp.items)
  {
    if !hasEmail then prev
    else match resp
      case RequestFailed => prev
      case NotAnArray => []
      case Records(items) => if |items| == 0 then [] else VideoCards(items)
  }

  /** The refresh after a modal upload: no array check, so a non-array body makes the
      mapping throw and, like a failure, leaves the cards as they were. */
  function RefreshImages(hasEmail: bool, prev: seq<ImageCard>, resp: ListResponse<FetchedImage>): (r: seq<ImageCard>)
    ensures !hasEmail || !resp.Records? ==> r == prev
    ensures hasEmail && resp.Records? ==> r == ImageCards(resp.items)
  {
    if hasEmail && resp.Records? then ImageCards(resp.items) else prev
  }

  function RefreshVideos(hasEmail: bool, prev: seq<VideoCard>, resp: ListResponse<FetchedVideo>): (r: seq<VideoCard>)
    ensures !hasEmail || !resp.Records? ==> r == prev
    ensures hasEmail && resp.Records? ==> r == VideoCards(resp.items)
  {
    if hasEmail && resp.Records? then VideoCards(resp.items) else prev
  }

  /** The two paths agree on array bodies and differ only on a non-array one. */
  lemma LoadAndRefreshAgreeOnRecords(prev: seq<ImageCard>, resp: ListResponse<FetchedImage>)
    ensures LoadImages(true, prev, resp) == RefreshImages(true, prev, resp) <==> !resp.NotAnArray? || prev == []
  {
  }

  // ---- Tabs ----

  /** The modal the Upload button opens. */
  datatype UploadModal = ImageModal | VideoModal

  /** `handleUpload`: the image modal on the "images" tab, the video modal on any other. */
  function HandleUpload(activeTab: string): (r: UploadModal)
    ensures r == ImageModal <==> activeTab == "images"
  {
    if activeTab == "images" then ImageModal else VideoModal
  }

  datatype Shown = ShownImages(images: seq<ImageCard>) | ShownVideos(videos: seq<VideoCard>)

  /** `currentData`: the image cards on the "images" tab, the video cards otherwise. */
  function CurrentData(activeTab: string, images: seq<ImageCard>, videos: seq<VideoCard>): (r: Shown)
    ensures r.ShownImages? <==> activeTab == "images"
    ensures r.ShownImages? ==> r.images == images
    ensures r.ShownVideos? ==> r.videos == videos
  {
    if activeTab == "images" then ShownImages(images) else ShownVideos(videos)
  }

  /** The Upload button always adds to the dataset on display. */
  lemma UploadMatchesDisplayedTab(activeTab: string, images: seq<ImageCard>, videos: seq<VideoCard>)
    ensures HandleUpload(activeTab) == ImageModal <==> CurrentData(activeTab, images, videos).ShownImages?
  {
  }
}
