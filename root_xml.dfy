/**
 * Building the ad feed (root_xml.py): the `Ads` root, the `Ad` elements
 * appended to it one call at a time, and the path the feed is saved under.
 */
module RootXml {
  import opened Wrappers
  import opened PyValues
  import opened Elements
  import opened Utils

  /** The directory save_xml writes into. */
  const OutputDir := "out_xml"

  /** The attributes of the feed root. */
  const FeedAttrib: map<string, Json> := map["formatVersion" := JStr("3"), "target" := JStr("Avito.ru")]

  /** The arguments of one add_ad_element call. `images` are the values the
      call iterates over; `params` is the dict of extra fields, if one is given. */
  datatype AdFields = AdFields(title: Json, description: Json, price: Json, images: seq<Json>, params: Option<Dict>)

  /** `SubElement(images_element, 'Image', url=url)` */
  function ImageElement(url: Json): Element {
    Element("Image", map["url" := url], JNull, [])
  }

  /** The children of `Images`, one per image in order. */
  function ImageElements(images: seq<Json>): seq<Element> {
    if images == [] then []
    else ImageElements(images[..|images| - 1]) + [ImageElement(images[|images| - 1])]
  }

  /** `SubElement(ad, key).text = str(value)` */
  function ParamElement(entry: (string, Json)): Element {
    TextElement(entry.0, JStr(PyStr(entry.1)))
  }

  /** The extra-field children, one per params entry in insertion order. */
  function ParamElements(entries: Dict): seq<Element> {
    if entries == [] then []
    else ParamElements(entries[..|entries| - 1]) + [ParamElement(entries[|entries| - 1])]
  }

  /** The entries `if params: … params.items()` visits: none for None or an empty dict. */
  function ParamEntries(params: Option<Dict>): Dict {
    match params
    case None => []
    case Some(entries) => entries
  }

  /** The `Ad` element add_ad_element builds from its arguments. */
  function AdEntry(f: AdFields): Element {
    Element("Ad", map[], JNull,
      [ TextElement("Title", f.title),
        TextElement("Description", f.description),
        TextElement("Price", JStr(PyStr(f.price))),
        Element("Images", map[], JNull, ImageElements(f.images)) ]
      + ParamElements(ParamEntries(f.params)))
  }

  /** The `Ad` elements of a sequence of add_ad_element calls, in call order. */
  function AdEntries(ads: seq<AdFields>): seq<Element> {
    if ads == [] then []
    else AdEntries(ads[..|ads| - 1]) + [AdEntry(ads[|ads| - 1])]
  }

  /** The document create_root_xml returns after add_ad_element was called once per element of `ads`. */
  function Feed(ads: seq<AdFields>): Element {
    Element("Ads", FeedAttrib, JNull, AdEntries(ads))
  }

  /** The in-memory root element, which add_ad_element changes in place. */
  class Doc {
    var tag: string
    var attrib: map<string, Json>
    var text: Json
    var children: seq<Element>

    /** The element tree this object currently holds. */
    function Value(): Element
      reads this
    {
      Element(tag, attrib, text, children)
    }

    /** create_root_xml: `category` and `params` are accepted and have no effect. */
    constructor CreateRootXml(category: Json, params: Option<Dict>)
      ensures Value() == Feed([])
    {
      tag := "Ads";
      attrib := FeedAttrib;
      text := JNull;
      children := [];
    }

    /** add_ad_element: appends one `Ad` built from the arguments and returns it. */
    method AddAdElement(title: Json, description: Json, price: Json, images: seq<Json>, params: Option<Dict>)
      returns (ad: Element)
      modifies this
      ensures ad == AdEntry(AdFields(title, description, price, images, params))
      ensures tag == old(tag) && attrib == old(attrib) && text == old(text)
      ensures children == old(children) + [ad]
    {
      var fields := [
        TextElement("Title", title),
        TextElement("Description", description),
        TextElement("Price", JStr(PyStr(price)))
      ];

      var imageChildren: seq<Element> := [];
      for i := 0 to |images|
        invariant imageChildren == ImageElements(images[..i])
      {
        assert images[..i + 1][..i] == images[..i];
        imageChildren := imageChildren + [ImageElement(images[i])];
      }
      assert images[..|images|] == images;
      assert imageChildren == ImageElements(images);
      fields := fields + [Element("Images", map[], JNull, imageChildren)];

      var paramChildren: seq<Element> := [];
      if params.Some? && params.value != [] {
        var entries := params.value;
        for i := 0 to |entries|
          invariant paramChildren == ParamElements(entries[..i])
        {
          assert entries[..i + 1][..i] == entries[..i];
          paramChildren := paramChildren + [ParamElement(entries[i])];
        }
        assert entries[..|entries|] == entries;
      }
      assert paramChildren == ParamElements(ParamEntries(params));
      fields := fields + paramChildren;

      ghost var f := AdFields(title, description, price, images, params);
      assert fields == AdEntry(f).children;
      ad := Element("Ad", map[], JNull, fields);
      children := children + [ad];
    }
  }

  /** `os.path.join(directory, name)` */
  function JoinPath(directory: string, name: string): string {
    if |name| > 0 && name[0] == '/' then name
    else if directory == [] || directory[|directory| - 1] == '/' then directory + name
    else directory + "/" + name
  }

  /** The path part of save_xml. Writing the file is not modelled. */
  function SaveXml(root: Element, filename: string): (path: string)
    ensures |filename| > 0 && filename[0] == '/' ==> path == filename
    ensures (|filename| == 0 || filename[0] != '/') ==> path == OutputDir + "/" + filename
  {
    JoinPath(OutputDir, filename)
  }

  // ---- what the built document looks like ----

  lemma {:induction false} ImageElementsAt(images: seq<Json>)
    ensures |ImageElements(images)| == |images|
    ensures forall k :: 0 <= k < |images| ==> ImageElements(images)[k] == ImageElement(images[k])
  {
    if images != [] {
      var front := images[..|images| - 1];
      ImageElementsAt(front);
      assert ImageElements(images) == ImageElements(front) + [ImageElement(images[|images| - 1])];
      forall k | 0 <= k < |front| ensures ImageElements(images)[k] == ImageElement(images[k]) {
        assert images[k] == front[k];
      }
    }
  }

  lemma {:induction false} ParamElementsAt(entries: Dict)
    ensures |ParamElements(entries)| == |entries|
    ensures forall k :: 0 <= k < |entries| ==> ParamElements(entries)[k] == ParamElement(entries[k])
  {
    if entries != [] {
      var front := entries[..|entries| - 1];
      ParamElementsAt(front);
      assert ParamElements(entries) == ParamElements(front) + [ParamElement(entries[|entries| - 1])];
      forall k | 0 <= k < |front| ensures ParamElements(entries)[k] == ParamElement(entries[k]) {
        assert entries[k] == front[k];
      }
    }
  }

  lemma {:induction false} AdEntriesAt(ads: seq<AdFields>)
    ensures |AdEntries(ads)| == |ads|
    ensures forall k :: 0 <= k < |ads| ==> AdEntries(ads)[k] == AdEntry(ads[k])
  {
    if ads != [] {
      var front := ads[..|ads| - 1];
      AdEntriesAt(front);
      assert AdEntries(ads) == AdEntries(front) + [AdEntry(ads[|ads| - 1])];
      forall k | 0 <= k < |front| ensures AdEntries(ads)[k] == AdEntry(ads[k]) {
        assert ads[k] == front[k];
      }
    }
  }

  /** The children of an `Ad`: Title, Description, Price, Images with one
      Image per image, then one element per params entry in order. */
  lemma AdEntryShape(f: AdFields)
    ensures var ad := AdEntry(f);
      && ad.tag == "Ad"
      && |ad.children| == 4 + |ParamEntries(f.params)|
      && ad.children[0] == TextElement("Title", f.title)
      && ad.children[1] == TextElement("Description", f.description)
      && ad.children[2] == TextElement("Price", JStr(PyStr(f.price)))
      && ad.children[3].tag == "Images"
      && |ad.children[3].children| == |f.images|
      && (forall k :: 0 <= k < |f.images| ==>
            ad.children[3].children[k].tag == "Image" && ad.children[3].children[k].attrib == map["url" := f.images[k]])
      && (forall k :: 0 <= k < |ParamEntries(f.params)| ==>
            ad.children[4 + k].tag == ParamEntries(f.params)[k].0
            && ad.children[4 + k].text == JStr(PyStr(ParamEntries(f.params)[k].1)))
  {
    ImageElementsAt(f.images);
    ParamElementsAt(ParamEntries(f.params));
  }

  /** The params entries become the children after Images, one per entry in order. */
  lemma AdEntryParamAt(f: AdFields, k: nat)
    requires k < |ParamEntries(f.params)|
    ensures 4 + k < |AdEntry(f).children|
    ensures AdEntry(f).children[4 + k] == ParamElement(ParamEntries(f.params)[k])
  {
    ParamElementsAt(ParamEntries(f.params));
  }

  /** A price given as an int is written as its canonical decimal text. */
  lemma PriceText(f: AdFields, price: int)
    requires f.price == JInt(price)
    ensures var text := AdEntry(f).children[2].text;
      text.JStr? && IsCanonicalDecimal(text.s) && ParseInt(text.s) == price
  {
    DecimalRoundTrip(price);
  }

  /** The values an ad must be given for validate_ad to accept it. */
  predicate Fillable(f: AdFields) {
    Truthy(f.title) && Truthy(f.description) && f.price != JStr("")
  }

  /** validate_ad accepts an `Ad` built by add_ad_element exactly when its title
      and description are truthy and str(price) is non-empty. The Title,
      Description and Price it checks are the first three children, even when
      a params key repeats one of those tags. */
  lemma AdEntryValid(f: AdFields)
    ensures ValidateAd(AdEntry(f)) <==> Fillable(f)
  {
    var ad := AdEntry(f);
    FindAt(ad, "Title", 0);
    FindAt(ad, "Description", 1);
    FindAt(ad, "Price", 2);
    PyStrEmpty(f.price);
    assert HasFilledField(ad, "Title") == Truthy(f.title);
    assert HasFilledField(ad, "Description") == Truthy(f.description);
    assert HasFilledField(ad, "Price") == (f.price != JStr(""));
  }

  /** A feed built by create_root_xml and add_ad_element calls passes
      validate_xml exactly when every ad was given fillable values. */
  lemma FeedValid(ads: seq<AdFields>)
    ensures ValidateXml(Feed(ads)) <==> forall k :: 0 <= k < |ads| ==> Fillable(ads[k])
  {
    if forall k :: 0 <= k < |ads| ==> Fillable(ads[k]) {
      FeedValidWhenFillable(ads);
    } else {
      var k :| 0 <= k < |ads| && !Fillable(ads[k]);
      FeedInvalidAt(ads, k);
    }
  }

  /** The "if" half of FeedValid. */
  lemma FeedValidWhenFillable(ads: seq<AdFields>)
    requires forall k :: 0 <= k < |ads| ==> Fillable(ads[k])
    ensures ValidateXml(Feed(ads))
  {
    var children := AdEntries(ads);
    AdEntriesAt(ads);
    forall c | c in children && c.tag == "Ad"
      ensures ValidateAd(c)
    {
      var k :| 0 <= k < |children| && children[k] == c;
      AdEntryValid(ads[k]);
    }
  }

  /** The "only if" half of FeedValid: one bad ad spoils the feed. */
  lemma FeedInvalidAt(ads: seq<AdFields>, k: nat)
    requires k < |ads| && !Fillable(ads[k])
    ensures !ValidateXml(Feed(ads))
  {
    var children := AdEntries(ads);
    AdEntriesAt(ads);
    AdEntryValid(ads[k]);
    assert children[k] in children && children[k].tag == "Ad" && !ValidateAd(children[k]);
  }

  /** One more add_ad_element call adds its Ad after the earlier ones. */
  lemma FeedAppend(ads: seq<AdFields>, f: AdFields)
    ensures Feed(ads + [f]) == Element("Ads", FeedAttrib, JNull, Feed(ads).children + [AdEntry(f)])
  {
    assert (ads + [f])[..|ads|] == ads;
  }
}
