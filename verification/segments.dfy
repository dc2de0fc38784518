/** The message the BatchPush handler builds from the posted HTML (web_app.py
    lines 391-409). The HTML parser is not modelled: each `<p>` tag arrives
    as its serialised text and each `<img>` tag as its three attributes. */
module MessageSegments {
  import opened Wrappers
  import opened PyStr
  import opened PyValues

  /** One message segment. `GroupMarker` is `Message('group', uuid)`, the
      segment the dispatch loop appends for every group recipient. */
  datatype Segment =
    | Text(text: string)
    | Image(source: string)
    | ImageSize(width: int, height: int)
    | GroupMarker(uuid: string)

  /** The attributes of an `<img>` tag; `None` when the attribute is absent
      (`img.get` then returns Python's None). */
  datatype ImgTag = ImgTag(src: Option<string>, width: Option<string>, height: Option<string>)

  /** `MessageSegment.text(str(text)[3:-4] + '\n')`. */
  function TextSegment(p: string): Segment
  {
    Text(PySlice(p, 3, -4) + "\n")
  }

  /** The slice drops exactly the `<p>` and `</p>` around a plain paragraph. */
  lemma TextOfParagraph(body: string)
    ensures TextSegment("<p>" + body + "</p>") == Text(body + "\n")
  {
    var p := "<p>" + body + "</p>";
    assert p[3..|p| - 4] == body;
  }

  /** A serialised tag of at most seven characters leaves only the newline. */
  lemma TextOfShortTag(p: string)
    requires |p| <= 7
    ensures TextSegment(p) == Text("\n")
  {
  }

  /** `'base64://' + src.split(',')[-1]`. */
  function ImageSource(src: string): string
  {
    "base64://" + LastPiece(src, ',')
  }

  /** A data URL `header,payload` becomes `base64://payload`, whatever the
      header holds (commas included). */
  lemma ImageSourceOfDataUrl(header: string, payload: string)
    requires ',' !in payload
    ensures ImageSource(header + "," + payload) == "base64://" + payload
  {
    LastPieceAfter(header, ',', payload);
  }

  /** A source without a comma is passed on whole. */
  lemma ImageSourceWithoutComma(src: string)
    requires ',' !in src
    ensures ImageSource(src) == "base64://" + src
  {
    LastPieceIsTail(src, ',');
  }

  /** What `int(img.get(name))` receives: the attribute string, or None. */
  function AttrValue(a: Option<string>): Value
  {
    if a.Some? then Str(a.value) else Other
  }

  /** The two segments of one image: the image itself and its size. A missing
      `src` fails on `.split` (AttributeError); a missing width or height
      fails in `int(None)` (TypeError) and a non-integer one in `int`
      (ValueError); `src` is looked at first, then width, then height. */
  function ImageSegments(img: ImgTag): (r: Result<seq<Segment>, PyError>)
    ensures img.src.None? ==> r == Err(AttributeError("src"))
    ensures r.Ok? <==>
      && img.src.Some?
      && img.width.Some? && ParseInt(img.width.value).Some?
      && img.height.Some? && ParseInt(img.height.value).Some?
    ensures r.Ok? ==>
      r.value == [Image(ImageSource(img.src.value)),
                  ImageSize(ParseInt(img.width.value).value, ParseInt(img.height.value).value)]
    ensures img.src.Some? && img.width.None? ==> r == Err(TypeError("width"))
    ensures img.src.Some? && img.width.Some? && ParseInt(img.width.value).None? ==>
      r == Err(ValueError("width"))
    ensures img.src.Some? && img.width.Some? && ParseInt(img.width.value).Some? ==>
      (img.height.None? ==> r == Err(TypeError("height"))) &&
      (img.height.Some? && ParseInt(img.height.value).None? ==> r == Err(ValueError("height")))
  {
    if img.src.None? then Err(AttributeError("src"))
    else match PyInt(AttrValue(img.width), "width")
      case Err(e) => Err(e)
      case Ok(w) =>
        match PyInt(AttrValue(img.height), "height")
        case Err(e) => Err(e)
        case Ok(h) => Ok([Image(ImageSource(img.src.value)), ImageSize(w, h)])
  }

  /** The text segments, one per paragraph, in document order. */
  function TextSegments(paras: seq<string>): (r: seq<Segment>)
    ensures |r| == |paras|
    ensures forall k :: 0 <= k < |paras| ==> r[k] == TextSegment(paras[k])
  {
    if paras == [] then []
    else TextSegments(paras[..|paras| - 1]) + [TextSegment(paras[|paras| - 1])]
  }

  /** The image segments, in document order; the first bad image ends it. */
  function ImagesSegments(imgs: seq<ImgTag>): Result<seq<Segment>, PyError>
  {
    if imgs == [] then Ok([])
    else match ImageSegments(imgs[0])
      case Err(e) => Err(e)
      case Ok(s) =>
        match ImagesSegments(imgs[1..])
        case Err(e) => Err(e)
        case Ok(t) => Ok(s + t)
  }

  /** `acc` followed by the segments of `r`, or the error of `r`. */
  function Prefixed(acc: seq<Segment>, r: Result<seq<Segment>, PyError>): Result<seq<Segment>, PyError>
  {
    match r
    case Ok(s) => Ok(acc + s)
    case Err(e) => Err(e)
  }

  /** The whole message: every paragraph first, then every image. */
  function Message(paras: seq<string>, imgs: seq<ImgTag>): Result<seq<Segment>, PyError>
  {
    Prefixed(TextSegments(paras), ImagesSegments(imgs))
  }

  predicate ImagesOk(imgs: seq<ImgTag>)
  {
    forall j :: 0 <= j < |imgs| ==> ImageSegments(imgs[j]).Ok?
  }

  /** The image part fails exactly when some image is bad, with the error of
      the first bad one; otherwise it holds two segments per image, in order. */
  lemma {:induction false} ImagesSegmentsSpec(imgs: seq<ImgTag>)
    ensures ImagesSegments(imgs).Ok? <==> ImagesOk(imgs)
    ensures ImagesSegments(imgs).Err? ==>
      exists j :: 0 <= j < |imgs| && ImagesOk(imgs[..j]) &&
        ImageSegments(imgs[j]) == Err(ImagesSegments(imgs).error)
    ensures ImagesSegments(imgs).Ok? ==>
      var s := ImagesSegments(imgs).value;
      && |s| == 2 * |imgs|
      && forall j :: 0 <= j < |imgs| ==>
           s[2 * j] == ImageSegments(imgs[j]).value[0] &&
           s[2 * j + 1] == ImageSegments(imgs[j]).value[1]
  {
    if imgs != [] {
      var rest := imgs[1..];
      ImagesSegmentsSpec(rest);
      ImagesOkCons(imgs);
      if ImageSegments(imgs[0]).Err? {
        assert ImagesOk(imgs[..0]);
      } else if ImagesSegments(rest).Err? {
        var j :| 0 <= j < |rest| && ImagesOk(rest[..j]) &&
          ImageSegments(rest[j]) == Err(ImagesSegments(rest).error);
        assert imgs[j + 1] == rest[j];
        GoodPrefixCons(imgs, j);
      } else {
        PairsCons(imgs, ImageSegments(imgs[0]).value, ImagesSegments(rest).value);
      }
    }
  }

  /** Every image is good exactly when the first one and all the others are. */
  lemma ImagesOkCons(imgs: seq<ImgTag>)
    requires imgs != []
    ensures ImagesOk(imgs) <==> ImageSegments(imgs[0]).Ok? && ImagesOk(imgs[1..])
  {
    var rest := imgs[1..];
    if ImageSegments(imgs[0]).Ok? && ImagesOk(rest) {
      forall j | 0 <= j < |imgs| ensures ImageSegments(imgs[j]).Ok? {
        if j > 0 { assert imgs[j] == rest[j - 1]; }
      }
    }
    if ImagesOk(imgs) {
      forall j | 0 <= j < |rest| ensures ImageSegments(rest[j]).Ok? {
        assert rest[j] == imgs[j + 1];
      }
    }
  }

  /** A good first image before a good run of the others is a good run. */
  lemma GoodPrefixCons(imgs: seq<ImgTag>, j: nat)
    requires j + 1 < |imgs|
    requires ImageSegments(imgs[0]).Ok? && ImagesOk(imgs[1..][..j])
    ensures ImagesOk(imgs[..j + 1])
  {
    var pre := imgs[..j + 1];
    forall i | 0 <= i < |pre| ensures ImageSegments(pre[i]).Ok? {
      if i > 0 { assert pre[i] == imgs[1..][..j][i - 1]; }
    }
  }

  /** The pairs of the first image, then the pairs of the others. */
  lemma PairsCons(imgs: seq<ImgTag>, h: seq<Segment>, t: seq<Segment>)
    requires imgs != [] && ImagesOk(imgs) && ImageSegments(imgs[0]) == Ok(h)
    requires |t| == 2 * (|imgs| - 1)
    requires forall j :: 0 <= j < |imgs| - 1 ==>
      t[2 * j] == ImageSegments(imgs[1..][j]).value[0] &&
      t[2 * j + 1] == ImageSegments(imgs[1..][j]).value[1]
    ensures |h + t| == 2 * |imgs|
    ensures forall j :: 0 <= j < |imgs| ==>
      (h + t)[2 * j] == ImageSegments(imgs[j]).value[0] &&
      (h + t)[2 * j + 1] == ImageSegments(imgs[j]).value[1]
  {
    forall j | 0 <= j < |imgs|
      ensures (h + t)[2 * j] == ImageSegments(imgs[j]).value[0]
      ensures (h + t)[2 * j + 1] == ImageSegments(imgs[j]).value[1]
    {
      if j > 0 {
        assert imgs[j] == imgs[1..][j - 1];
        assert (h + t)[2 * j] == t[2 * (j - 1)];
        assert (h + t)[2 * j + 1] == t[2 * (j - 1) + 1];
      }
    }
  }

  /** The built message fails exactly when some image is bad; otherwise it
      is one text segment per paragraph, in order, followed by an image and
      an image-size segment per image, in order. */
  lemma MessageLayout(paras: seq<string>, imgs: seq<ImgTag>)
    ensures Message(paras, imgs).Ok? <==> ImagesOk(imgs)
    ensures Message(paras, imgs).Ok? ==>
      var m := Message(paras, imgs).value;
      && |m| == |paras| + 2 * |imgs|
      && (forall k :: 0 <= k < |paras| ==> m[k] == TextSegment(paras[k]))
      && (forall j :: 0 <= j < |imgs| ==>
            m[|paras| + 2 * j] == Image(ImageSource(imgs[j].src.value)) &&
            m[|paras| + 2 * j + 1] ==
              ImageSize(ParseInt(imgs[j].width.value).value, ParseInt(imgs[j].height.value).value))
  {
    ImagesSegmentsSpec(imgs);
    if ImagesOk(imgs) {
      var t := TextSegments(paras);
      var s := ImagesSegments(imgs).value;
      forall j | 0 <= j < |imgs|
        ensures (t + s)[|paras| + 2 * j] == Image(ImageSource(imgs[j].src.value))
        ensures (t + s)[|paras| + 2 * j + 1] ==
          ImageSize(ParseInt(imgs[j].width.value).value, ParseInt(imgs[j].height.value).value)
      {
        assert ImageSegments(imgs[j]).Ok?;
      }
    }
  }

  /** One good image moves its two segments onto the accumulated message. */
  lemma ImagesStep(acc: seq<Segment>, imgs: seq<ImgTag>, j: nat)
    requires j < |imgs| && ImageSegments(imgs[j]).Ok?
    ensures Prefixed(acc, ImagesSegments(imgs[j..])) ==
      Prefixed(acc + ImageSegments(imgs[j]).value, ImagesSegments(imgs[j + 1..]))
  {
    assert imgs[j..][1..] == imgs[j + 1..];
    var h := ImageSegments(imgs[j]).value;
    match ImagesSegments(imgs[j + 1..]) {
      case Ok(t) => assert acc + (h + t) == acc + h + t;
      case Err(_) =>
    }
  }

  /** The two paragraph and image loops of the handler. */
  method BuildMessage(paras: seq<string>, imgs: seq<ImgTag>) returns (r: Result<seq<Segment>, PyError>)
    ensures r == Message(paras, imgs)
  {
    var msg: seq<Segment> := [];
    for i := 0 to |paras|
      invariant msg == TextSegments(paras[..i])
    {
      assert paras[..i + 1][..i] == paras[..i];
      msg := msg + [TextSegment(paras[i])];
    }
    assert paras[..|paras|] == paras;
    for j := 0 to |imgs|
      invariant Prefixed(msg, ImagesSegments(imgs[j..])) == Message(paras, imgs)
    {
      var img := imgs[j];
      if img.src.None? {
        assert imgs[j..][0] == img;
        return Err(AttributeError("src"));
      }
      var image := Image(ImageSource(img.src.value));
      var width := PyInt(AttrValue(img.width), "width");
      if width.Err? {
        assert imgs[j..][0] == img;
        return Err(width.error);
      }
      var height := PyInt(AttrValue(img.height), "height");
      if height.Err? {
        assert imgs[j..][0] == img;
        return Err(height.error);
      }
      ImagesStep(msg, imgs, j);
      msg := msg + [image, ImageSize(width.value, height.value)];
    }
    assert imgs[|imgs|..] == [];
    assert msg + [] == msg;
    return Ok(msg);
  }
}
