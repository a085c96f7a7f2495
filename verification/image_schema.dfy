/** The image document schema of `models/Image.ts`: required fields, enum domains,
    defaults and the quality range, as a cast from a JSON document to a typed
    record that either succeeds with a valid record or fails validation. */
module ImageSchema {
  import opened Options
  import opened Json
  import opened Text

  /** `IMAGE_DIMENSIONS`. */
  const DefaultWidth: int := 1080
  const DefaultHeight: int := 1080
  const MinQuality: int := 1
  const MaxQuality: int := 100

  datatype Format = Jpg | Png | Webp | Avif
  datatype Fit = Cover | Contain | Fill

  function FormatName(f: Format): string
  {
    match f
    case Jpg => "jpg"
    case Png => "png"
    case Webp => "webp"
    case Avif => "avif"
  }

  function FitName(f: Fit): string
  {
    match f
    case Cover => "cover"
    case Contain => "contain"
    case Fill => "fill"
  }

  /** The schema's `enum` test for `format`: exactly the four names. */
  function ParseFormat(s: string): (r: Option<Format>)
    ensures r.Some? <==> s in {"jpg", "png", "webp", "avif"}
    ensures r.Some? ==> FormatName(r.value) == s
    ensures forall f :: s == FormatName(f) ==> r == Some(f)
  {
    if s == "jpg" then Some(Jpg)
    else if s == "png" then Some(Png)
    else if s == "webp" then Some(Webp)
    else if s == "avif" then Some(Avif)
    else None
  }

  /** The schema's `enum` test for `fit`: exactly the three names. */
  function ParseFit(s: string): (r: Option<Fit>)
    ensures r.Some? <==> s in {"cover", "contain", "fill"}
    ensures r.Some? ==> FitName(r.value) == s
    ensures forall f :: s == FitName(f) ==> r == Some(f)
  {
    if s == "cover" then Some(Cover)
    else if s == "contain" then Some(Contain)
    else if s == "fill" then Some(Fill)
    else None
  }

  datatype Transformations = Transformations(width: int, height: int, crop: bool, fit: Fit, quality: Option<int>)

  /** An image document as the schema stores it (without id and timestamps). */
  datatype ImageDoc = ImageDoc(
    title: string,
    description: string,
    imageUrl: string,
    alt: string,
    format: Format,
    transformations: Transformations)

  /** What the schema guarantees of every stored image document. */
  predicate ValidImage(d: ImageDoc)
  {
    && |d.title| > 0 && |d.description| > 0 && |d.imageUrl| > 0
    && (d.transformations.quality.Some? ==> MinQuality <= d.transformations.quality.value <= MaxQuality)
  }

  /** Mongoose's String cast: a string as is; a number or a boolean as the text
      JavaScript's `String` gives it; anything else is a cast error. */
  function CastString(v: Value): (r: Option<string>)
    ensures r.Some? <==> v.Str? || v.Num? || v.Bool?
    ensures v.Str? ==> r == Some(v.s)
    ensures v.Num? ==> r == Some(IntToString(v.n))
    ensures v.Bool? ==> r == Some(if v.b then "true" else "false")
  {
    match v
    case Str(s) => Some(s)
    case Num(n) => Some(IntToString(n))
    case Bool(b) => Some(if b then "true" else "false")
    case _ => None
  }

  /** The text of a number or a boolean is none of the `format` or `fit` names: a
      number's starts with a digit or a minus sign, and neither "true" nor "false"
      is a name. */
  lemma {:induction false} RenderedScalarsAreNotNames(v: Value)
    requires v.Num? || v.Bool?
    ensures CastString(v).value !in {"jpg", "png", "webp", "avif", "cover", "contain", "fill"}
  {
    if v.Num? {
      var s := IntToString(v.n);
      assert IsDigit(s[0]) || s[0] == '-';
    }
  }

  /** A `required: true` String path: a value that is absent, does not cast, or
      casts to the empty string fails. */
  function RequiredString(v: Option<Value>): (r: Option<string>)
    ensures r.Some? <==> v.Some? && CastString(v.value).Some? && |CastString(v.value).value| > 0
    ensures r.Some? ==> r == CastString(v.value)
  {
    match v
    case None => None
    case Some(x) =>
      var s := CastString(x);
      if s.Some? && |s.value| > 0 then s else None
  }

  /** A String path with a default: the default fills only an absent value. */
  function StringOr(v: Option<Value>, default: string): (r: Option<string>)
    ensures v.None? ==> r == Some(default)
    ensures v.Some? ==> r == CastString(v.value)
  {
    match v
    case None => Some(default)
    case Some(x) => CastString(x)
  }

  /** A string Mongoose casts to a number, among those of plain decimal digits (the
      value an `<input type="range">` reports). */
  predicate DecimalText(s: string)
  {
    |s| > 0 && AllDigits(s)
  }

  /** Mongoose's Number cast: a number as is, a boolean as 1 or 0, a decimal string
      as the number it spells, anything else a cast error. */
  function CastNumber(v: Value): (r: Option<int>)
    ensures r.Some? <==> v.Num? || v.Bool? || (v.Str? && DecimalText(v.s))
    ensures v.Num? ==> r == Some(v.n)
    ensures v.Bool? ==> r == Some(if v.b then 1 else 0)
    ensures v.Str? && DecimalText(v.s) ==> r == Some(ParseDigits(v.s))
  {
    match v
    case Num(n) => Some(n)
    case Bool(b) => Some(if b then 1 else 0)
    case Str(s) => if DecimalText(s) then Some(ParseDigits(s)) else None
    case _ => None
  }

  /** A natural rendered as text casts back to itself. */
  lemma CastNumberOfRendered(n: nat)
    ensures CastNumber(Str(NatToString(n))) == Some(n)
  {
    ParseNatToString(n);
  }

  /** Mongoose's Boolean cast: `true`, "true", 1, "1" and "yes" are true; `false`,
      "false", 0, "0" and "no" are false; anything else is a cast error. */
  function CastBoolean(v: Value): (r: Option<bool>)
    ensures r == Some(true) <==> v in {Bool(true), Str("true"), Num(1), Str("1"), Str("yes")}
    ensures r == Some(false) <==> v in {Bool(false), Str("false"), Num(0), Str("0"), Str("no")}
  {
    match v
    case Bool(b) => Some(b)
    case Num(n) => if n == 1 then Some(true) else if n == 0 then Some(false) else None
    case Str(s) =>
      if s == "true" || s == "1" || s == "yes" then Some(true)
      else if s == "false" || s == "0" || s == "no" then Some(false)
      else None
    case _ => None
  }

  /** The String cast's text of a boolean or a natural casts back to the value:
      the Boolean and Number casts read what the String cast writes. */
  lemma {:induction false} RenderedScalarsCastBack(b: bool, n: nat)
    ensures CastBoolean(Str(CastString(Bool(b)).value)) == Some(b)
    ensures CastNumber(Str(CastString(Num(n)).value)) == Some(n)
  {
    CastNumberOfRendered(n);
  }

  /** A Number path with a default. */
  function NumberOr(v: Option<Value>, default: int): (r: Option<int>)
    ensures v.None? ==> r == Some(default)
    ensures v.Some? ==> r == CastNumber(v.value)
  {
    match v
    case None => Some(default)
    case Some(x) => CastNumber(x)
  }

  /** A Boolean path with a default. */
  function BooleanOr(v: Option<Value>, default: bool): (r: Option<bool>)
    ensures v.None? ==> r == Some(default)
    ensures v.Some? ==> r == CastBoolean(v.value)
  {
    match v
    case None => Some(default)
    case Some(x) => CastBoolean(x)
  }

  /** `format`: default "webp", otherwise a value whose String cast is one of the
      four names; only a string can be one. */
  function FormatOf(v: Option<Value>): (r: Option<Format>)
    ensures v.None? ==> r == Some(Webp)
    ensures v.Some? ==> (r.Some? <==> CastString(v.value).Some? && CastString(v.value).value in {"jpg", "png", "webp", "avif"})
    ensures v.Some? && r.Some? ==> v.value == Str(FormatName(r.value))
  {
    match v
    case None => Some(Webp)
    case Some(x) =>
      var s := CastString(x);
      if s.None? then None
      else
        var f := ParseFormat(s.value);
        if f.Some? && !x.Str? then RenderedScalarsAreNotNames(x); assert false; None
        else f
  }

  /** `fit`: default "cover", otherwise a value whose String cast is one of the
      three names; only a string can be one. */
  function FitOf(v: Option<Value>): (r: Option<Fit>)
    ensures v.None? ==> r == Some(Cover)
    ensures v.Some? ==> (r.Some? <==> CastString(v.value).Some? && CastString(v.value).value in {"cover", "contain", "fill"})
    ensures v.Some? && r.Some? ==> v.value == Str(FitName(r.value))
  {
    match v
    case None => Some(Cover)
    case Some(x) =>
      var s := CastString(x);
      if s.None? then None
      else
        var f := ParseFit(s.value);
        if f.Some? && !x.Str? then RenderedScalarsAreNotNames(x); assert false; None
        else f
  }

  /** `quality`: no default (`Some(None)` is "left unset"); the cast number must lie in [1,100]. */
  function QualityOf(v: Option<Value>): (r: Option<Option<int>>)
    ensures v.None? ==> r == Some(None)
    ensures v.Some? ==> (r.Some? <==> CastNumber(v.value).Some? && MinQuality <= CastNumber(v.value).value <= MaxQuality)
    ensures v.Some? && r.Some? ==> r.value == CastNumber(v.value)
  {
    match v
    case None => Some(None)
    case Some(x) =>
      var q := CastNumber(x);
      if q.Some? && MinQuality <= q.value <= MaxQuality then Some(q) else None
  }

  /** The transformation sub-document with every default in place. */
  const DefaultTransformations := Transformations(DefaultWidth, DefaultHeight, false, Cover, None)

  /** The nested `transformations` path: absent gives every default; an object is
      cast field by field, each absent field taking its own default; keys the schema
      does not declare are dropped. */
  function TransformationsOf(v: Option<Value>): (r: Option<Transformations>)
    ensures v.None? ==> r == Some(DefaultTransformations)
    ensures v.Some? && !v.value.Obj? ==> r.None?
    ensures r.Some? ==> (r.value.quality.Some? ==> MinQuality <= r.value.quality.value <= MaxQuality)
    ensures v.Some? && v.value.Obj? ==>
      (r.Some? <==>
        && NumberOr(Get(v.value.fields, "width"), DefaultWidth).Some?
        && NumberOr(Get(v.value.fields, "height"), DefaultHeight).Some?
        && BooleanOr(Get(v.value.fields, "crop"), false).Some?
        && FitOf(Get(v.value.fields, "fit")).Some?
        && QualityOf(Get(v.value.fields, "quality")).Some?)
    ensures v.Some? && v.value.Obj? && r.Some? ==>
      && Some(r.value.width) == NumberOr(Get(v.value.fields, "width"), DefaultWidth)
      && Some(r.value.height) == NumberOr(Get(v.value.fields, "height"), DefaultHeight)
      && Some(r.value.crop) == BooleanOr(Get(v.value.fields, "crop"), false)
      && Some(r.value.fit) == FitOf(Get(v.value.fields, "fit"))
      && Some(r.value.quality) == QualityOf(Get(v.value.fields, "quality"))
  {
    match v
    case None => Some(DefaultTransformations)
    case Some(Obj(m)) =>
      var w := NumberOr(Get(m, "width"), DefaultWidth);
      var h := NumberOr(Get(m, "height"), DefaultHeight);
      var c := BooleanOr(Get(m, "crop"), false);
      var f := FitOf(Get(m, "fit"));
      var q := QualityOf(Get(m, "quality"));
      if w.Some? && h.Some? && c.Some? && f.Some? && q.Some? then
        Some(Transformations(w.value, h.value, c.value, f.value, q.value))
      else None
    case _ => None
  }

  /** `Image.create`'s cast and validation of a document. Paths the schema does not
      declare are not part of the result. */
  function CastImage(doc: Object): (r: Option<ImageDoc>)
    ensures r.Some? ==> ValidImage(r.value)
    ensures r.Some? <==>
      && RequiredString(Get(doc, "title")).Some?
      && RequiredString(Get(doc, "description")).Some?
      && RequiredString(Get(doc, "imageUrl")).Some?
      && StringOr(Get(doc, "alt"), "").Some?
      && FormatOf(Get(doc, "format")).Some?
      && TransformationsOf(Get(doc, "transformations")).Some?
    ensures r.Some? ==>
      && Some(r.value.title) == RequiredString(Get(doc, "title"))
      && Some(r.value.description) == RequiredString(Get(doc, "description"))
      && Some(r.value.imageUrl) == RequiredString(Get(doc, "imageUrl"))
      && Some(r.value.alt) == StringOr(Get(doc, "alt"), "")
      && Some(r.value.format) == FormatOf(Get(doc, "format"))
      && Some(r.value.transformations) == TransformationsOf(Get(doc, "transformations"))
    ensures RequiredString(Get(doc, "title")).None? ==> r.None?
    ensures RequiredString(Get(doc, "description")).None? ==> r.None?
    ensures RequiredString(Get(doc, "imageUrl")).None? ==> r.None?
  {
    var title := RequiredString(Get(doc, "title"));
    var description := RequiredString(Get(doc, "description"));
    var url := RequiredString(Get(doc, "imageUrl"));
    var alt := StringOr(Get(doc, "alt"), "");
    var format := FormatOf(Get(doc, "format"));
    var t := TransformationsOf(Get(doc, "transformations"));
    if title.Some? && description.Some? && url.Some? && alt.Some? && format.Some? && t.Some? then
      Some(ImageDoc(title.value, description.value, url.value, alt.value, format.value, t.value))
    else None
  }

  /** A document whose six paths each cast to the given record's field is cast to
      that record. */
  lemma CastFromFields(doc: Object, d: ImageDoc)
    requires RequiredString(Get(doc, "title")) == Some(d.title)
    requires RequiredString(Get(doc, "description")) == Some(d.description)
    requires RequiredString(Get(doc, "imageUrl")) == Some(d.imageUrl)
    requires StringOr(Get(doc, "alt"), "") == Some(d.alt)
    requires FormatOf(Get(doc, "format")) == Some(d.format)
    requires TransformationsOf(Get(doc, "transformations")) == Some(d.transformations)
    ensures CastImage(doc) == Some(d)
  {
  }

  /** The schema's defaults: a document holding only the three required fields is
      stored with alt "", format webp and 1080x1080, no crop, fit cover, quality unset. */
  lemma {:induction false} MinimalDocumentGetsDefaults(title: string, description: string, url: string)
    requires |title| > 0 && |description| > 0 && |url| > 0
    ensures CastImage(map["title" := Str(title), "description" := Str(description), "imageUrl" := Str(url)])
         == Some(ImageDoc(title, description, url, "", Webp, DefaultTransformations))
  {
    var doc := map["title" := Str(title), "description" := Str(description), "imageUrl" := Str(url)];
    assert "alt" !in doc && "format" !in doc && "transformations" !in doc;
  }
}
