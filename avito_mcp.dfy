/**
 * The decisions of the feed service's handlers (mcp_service/avito_mcp.py):
 * which required fields a request must have, how a request becomes a feed
 * document, which response is given, and what file name the feed gets.
 * A request body is the parsed JSON object; the timestamp that goes into file
 * names is a parameter.
 */
module AvitoMcp {
  import opened Wrappers
  import opened PyValues
  import opened Elements
  import opened Utils
  import opened RootXml

  /** What a handler answers. */
  datatype Response =
    | Success(message: string, file: string)   // 200 {status: "success", message, file}
    | ClientError(error: string)               // 400 {error}
    | ServerError(cause: PyError)              // 500 {error: str(exception)}

  function StatusCode(r: Response): int {
    match r
    case Success(_, _) => 200
    case ClientError(_) => 400
    case ServerError(_) => 500
  }

  /** A handler's answer together with the feed it handed to save_xml, if any. */
  datatype Outcome = Outcome(response: Response, saved: Option<Element>)

  /** The fields create_ad checks, in the order it checks them. */
  const RequiredFields: seq<string> := ["title", "description", "price", "category"]

  const BulkMissingMessage := "Missing required fields: category, ads"

  function MissingFieldMessage(field: string): string {
    "Missing required field: " + field
  }

  function SingleFileName(stamp: string): (name: string)
    ensures |name| == |stamp| + 13 && name[..9] == "avito_ad_" && name[|name| - 4..] == ".xml"
  {
    "avito_ad_" + stamp + ".xml"
  }

  function BulkFileName(stamp: string): (name: string)
    ensures |name| == |stamp| + 15 && name[..11] == "avito_bulk_" && name[|name| - 4..] == ".xml"
  {
    "avito_bulk_" + stamp + ".xml"
  }

  function BulkMessage(count: nat): string {
    "Created " + Decimal(count) + " ads successfully"
  }

  /** The first of `fields` that `body` lacks. */
  function FirstMissing(body: Dict, fields: seq<string>): (r: Option<string>)
    ensures r.None? <==> forall k :: 0 <= k < |fields| ==> HasKey(body, fields[k])
    ensures r.Some? ==> r.value in fields && !HasKey(body, r.value)
  {
    if fields == [] then None
    else if !HasKey(body, fields[0]) then Some(fields[0])
    else FirstMissing(body, fields[1..])
  }

  /** The `params` argument add_ad_element receives: `if params:` skips a
      falsy value, and `.items()` fails on a truthy value that is not a dict. */
  function ParamsArgument(v: Json): (r: Result<Option<Dict>, PyError>)
    ensures r.Err? <==> Truthy(v) && !v.JDict?
    ensures r.Ok? ==> ParamEntries(r.value) == if v.JDict? then v.entries else []
  {
    match v
    case JDict(entries) => Ok(Some(entries))
    case _ => if Truthy(v) then Err(NoItems) else Ok(None)
  }

  /** The arguments a handler passes to add_ad_element for one ad record,
      or the exception raised first: a KeyError while reading `title`,
      `description` and `price`, then a TypeError when `images` cannot be
      iterated, then an AttributeError for `params.items()`. */
  function AdArguments(record: Dict): (r: Result<AdFields, PyError>)
    ensures !HasKey(record, "title") ==> r == Err(KeyError("title"))
    ensures HasKey(record, "title") && !HasKey(record, "description") ==> r == Err(KeyError("description"))
    ensures HasKey(record, "title") && HasKey(record, "description") && !HasKey(record, "price") ==>
      r == Err(KeyError("price"))
    ensures r.Ok? ==>
      && r.value.title == Item(record, "title")
      && r.value.description == Item(record, "description")
      && r.value.price == Item(record, "price")
      && (!HasKey(record, "images") ==> r.value.images == [])
      && (!HasKey(record, "params") ==> ParamEntries(r.value.params) == [])
    ensures r.Ok? <==>
      && HasKey(record, "title") && HasKey(record, "description") && HasKey(record, "price")
      && PyIter(Get(record, "images", JList([]))).Some?
      && ParamsArgument(Get(record, "params", JDict([]))).Ok?
    ensures r.Ok? ==>
      && Some(r.value.images) == PyIter(Get(record, "images", JList([])))
      && Ok(r.value.params) == ParamsArgument(Get(record, "params", JDict([])))
  {
    if !HasKey(record, "title") then Err(KeyError("title"))
    else if !HasKey(record, "description") then Err(KeyError("description"))
    else if !HasKey(record, "price") then Err(KeyError("price"))
    else
      match PyIter(Get(record, "images", JList([])))
      case None => Err(NotIterable)
      case Some(images) =>
        match ParamsArgument(Get(record, "params", JDict([])))
        case Err(e) => Err(e)
        case Ok(params) =>
          Ok(AdFields(Item(record, "title"), Item(record, "description"), Item(record, "price"), images, params))
  }

  /** One element of a bulk request's `ads`: only a dict can be indexed by a field name. */
  function ReadAd(v: Json): (r: Result<AdFields, PyError>)
    ensures !v.JDict? ==> r == Err(NotSubscriptable)
  {
    match v
    case JDict(entries) => AdArguments(entries)
    case _ => Err(NotSubscriptable)
  }

  /** The records of a bulk request read in order, stopping at the first failure. */
  function ReadAds(items: seq<Json>): Result<seq<AdFields>, PyError> {
    if items == [] then Ok([])
    else
      match ReadAds(items[..|items| - 1])
      case Err(e) => Err(e)
      case Ok(ads) =>
        match ReadAd(items[|items| - 1])
        case Err(e) => Err(e)
        case Ok(f) => Ok(ads + [f])
  }

  /** What create_ad answers and saves. */
  function CreateAdOutcome(body: Dict, stamp: string): Outcome {
    match FirstMissing(body, RequiredFields)
    case Some(field) => Outcome(ClientError(MissingFieldMessage(field)), None)
    case None =>
      match AdArguments(body)
      case Err(e) => Outcome(ServerError(e), None)
      case Ok(f) =>
        var root := Feed([f]);
        Outcome(Success("Ad created successfully", SaveXml(root, SingleFileName(stamp))), Some(root))
  }

  /** What create_bulk_ads answers and saves. */
  function CreateBulkAdsOutcome(body: Dict, stamp: string): Outcome {
    if !HasKey(body, "category") || !HasKey(body, "ads") then
      Outcome(ClientError(BulkMissingMessage), None)
    else
      match PyIter(Item(body, "ads"))
      case None => Outcome(ServerError(NotIterable), None)
      case Some(items) =>
        match ReadAds(items)
        case Err(e) => Outcome(ServerError(e), None)
        case Ok(ads) =>
          var root := Feed(ads);
          Outcome(Success(BulkMessage(|items|), SaveXml(root, BulkFileName(stamp))), Some(root))
  }

  /** The create_ad handler. */
  method CreateAd(body: Dict, stamp: string) returns (response: Response, saved: Option<Element>)
    ensures Outcome(response, saved) == CreateAdOutcome(body, stamp)
  {
    for i := 0 to |RequiredFields|
      invariant FirstMissing(body, RequiredFields) == FirstMissing(body, RequiredFields[i..])
    {
      var field := RequiredFields[i];
      assert RequiredFields[i..][1..] == RequiredFields[i + 1..];
      if !HasKey(body, field) {
        return ClientError(MissingFieldMessage(field)), None;
      }
    }
    assert RequiredFields[3] == "category";
    var root := new Doc.CreateRootXml(Item(body, "category"), None);
    var args := AdArguments(body);
    if args.Err? {
      return ServerError(args.error), None;
    }
    var f := args.value;
    var _ := root.AddAdElement(f.title, f.description, f.price, f.images, f.params);
    response := Success("Ad created successfully", SaveXml(root.Value(), SingleFileName(stamp)));
    saved := Some(root.Value());
  }

  /** The create_bulk_ads handler. */
  method CreateBulkAds(body: Dict, stamp: string) returns (response: Response, saved: Option<Element>)
    ensures Outcome(response, saved) == CreateBulkAdsOutcome(body, stamp)
  {
    if !HasKey(body, "category") || !HasKey(body, "ads") {
      return ClientError(BulkMissingMessage), None;
    }
    var root := new Doc.CreateRootXml(Item(body, "category"), None);
    var iterated := PyIter(Item(body, "ads"));
    if iterated.None? {
      return ServerError(NotIterable), None;
    }
    var items := iterated.value;
    ghost var ads: seq<AdFields> := [];
    for i := 0 to |items|
      invariant ReadAds(items[..i]) == Ok(ads)
      invariant root.Value() == Feed(ads)
    {
      var args := ReadAd(items[i]);
      ReadAdsStep(items, i, ads);
      if args.Err? {
        return ServerError(args.error), None;
      }
      var f := args.value;
      var _ := root.AddAdElement(f.title, f.description, f.price, f.images, f.params);
      FeedAppend(ads, f);
      ads := ads + [f];
    }
    assert items[..|items|] == items;
    assert ReadAds(items) == Ok(ads);
    response := Success(BulkMessage(|items|), SaveXml(root.Value(), BulkFileName(stamp)));
    saved := Some(root.Value());
  }

  /** The health_check handler's body: always healthy, stamped with the time it is given. */
  datatype Health = Health(status: string, timestamp: string)

  function HealthCheck(now: string): (h: Health)
    ensures h.status == "healthy" && h.timestamp == now
  {
    Health("healthy", now)
  }

  // ---- reading records ----

  /** Once a prefix of the records fails, the whole batch fails with that error. */
  lemma {:induction false} ReadAdsFailureSticks(items: seq<Json>, n: nat)
    requires n <= |items| && ReadAds(items[..n]).Err?
    ensures ReadAds(items) == ReadAds(items[..n])
  {
    if n < |items| {
      var front := items[..|items| - 1];
      assert front[..n] == items[..n];
      ReadAdsFailureSticks(front, n);
    } else {
      assert items[..n] == items;
    }
  }

  /** One more record read after a prefix that was read: it either fails the
      whole batch or extends what was read. */
  lemma ReadAdsStep(items: seq<Json>, i: nat, ads: seq<AdFields>)
    requires i < |items| && ReadAds(items[..i]) == Ok(ads)
    ensures ReadAd(items[i]).Err? ==> ReadAds(items) == Err(ReadAd(items[i]).error)
    ensures ReadAd(items[i]).Ok? ==> ReadAds(items[..i + 1]) == Ok(ads + [ReadAd(items[i]).value])
  {
    assert items[..i + 1][..i] == items[..i];
    assert items[..i + 1][i] == items[i];
    if ReadAd(items[i]).Err? {
      ReadAdsFailureSticks(items, i + 1);
    }
  }

  /** A batch is read when its records are, one AdFields per record in order. */
  lemma {:induction false} ReadAdsOk(items: seq<Json>)
    requires forall k :: 0 <= k < |items| ==> ReadAd(items[k]).Ok?
    ensures ReadAds(items).Ok?
    ensures |ReadAds(items).value| == |items|
    ensures forall k :: 0 <= k < |items| ==> ReadAd(items[k]) == Ok(ReadAds(items).value[k])
  {
    if items != [] {
      var front, last := items[..|items| - 1], items[|items| - 1];
      forall k | 0 <= k < |front| ensures ReadAd(front[k]).Ok? {
        assert front[k] == items[k];
      }
      ReadAdsOk(front);
      var ads, f := ReadAds(front).value, ReadAd(last).value;
      assert ReadAds(items) == Ok(ads + [f]);
      forall k | 0 <= k < |items| ensures ReadAd(items[k]) == Ok(ReadAds(items).value[k]) {
        if k < |front| {
          assert items[k] == front[k];
        }
      }
    }
  }

  /** A batch with a record that does not read is not read. */
  lemma {:induction false} ReadAdsErr(items: seq<Json>, k: nat)
    requires k < |items| && ReadAd(items[k]).Err?
    ensures ReadAds(items).Err?
  {
    var front := items[..|items| - 1];
    if k < |front| {
      assert front[k] == items[k];
      ReadAdsErr(front, k);
      assert ReadAds(items) == Err(ReadAds(front).error);
    } else {
      assert items[|items| - 1] == items[k];
    }
  }

  /** The first record that fails decides the batch's error. */
  lemma {:induction false} ReadAdsFirstFailure(items: seq<Json>, k: nat)
    requires k < |items| && ReadAd(items[k]).Err?
    requires forall j :: 0 <= j < k ==> ReadAd(items[j]).Ok?
    ensures ReadAds(items) == Err(ReadAd(items[k]).error)
  {
    var prefix := items[..k + 1];
    assert prefix[..k] == items[..k];
    ReadAdsOk(items[..k]);
    ReadAdsFailureSticks(items, k + 1);
  }

  /** The missing key a bulk record reports. */
  lemma {:induction false} FirstMissingAt(body: Dict, fields: seq<string>, k: nat)
    requires k < |fields| && !HasKey(body, fields[k])
    requires forall j :: 0 <= j < k ==> HasKey(body, fields[j])
    ensures FirstMissing(body, fields) == Some(fields[k])
  {
    if k > 0 {
      FirstMissingAt(body, fields[1..], k - 1);
    }
  }

  // ---- create_ad ----

  /** A request lacking a required field gets a 400 naming the first missing
      one in the order title, description, price, category, and nothing is saved. */
  lemma CreateAdMissingField(body: Dict, stamp: string, k: nat)
    requires k < |RequiredFields| && !HasKey(body, RequiredFields[k])
    requires forall j :: 0 <= j < k ==> HasKey(body, RequiredFields[j])
    ensures CreateAdOutcome(body, stamp) == Outcome(ClientError(MissingFieldMessage(RequiredFields[k])), None)
  {
    FirstMissingAt(body, RequiredFields, k);
  }

  /** Only the presence of the four keys is checked, never their values. */
  lemma CreateAdKeysSuffice(body: Dict, stamp: string)
    requires forall k :: 0 <= k < |RequiredFields| ==> HasKey(body, RequiredFields[k])
    ensures !CreateAdOutcome(body, stamp).response.ClientError?
  {
  }

  /** A complete request is saved as a feed with exactly one Ad built from its
      fields (images default to none, params to no extra fields) under
      out_xml/avito_ad_<stamp>.xml. */
  lemma CreateAdSuccess(body: Dict, stamp: string)
    requires forall k :: 0 <= k < |RequiredFields| ==> HasKey(body, RequiredFields[k])
    requires AdArguments(body).Ok?
    ensures var o := CreateAdOutcome(body, stamp);
      var f := AdArguments(body).value;
      && o.response == Success("Ad created successfully", OutputDir + "/" + SingleFileName(stamp))
      && o.saved.Some?
      && o.saved.value.tag == "Ads"
      && o.saved.value.attrib == FeedAttrib
      && o.saved.value.children == [AdEntry(f)]
      && f.title == Item(body, "title")
      && f.description == Item(body, "description")
      && f.price == Item(body, "price")
      && (!HasKey(body, "images") ==> f.images == [])
      && (!HasKey(body, "params") ==> |AdEntry(f).children| == 4)
      && Some(f.images) == PyIter(Get(body, "images", JList([])))
      && Ok(f.params) == ParamsArgument(Get(body, "params", JDict([])))
  {
    var f := AdArguments(body).value;
    FirstMissingNone(body);
    assert CreateAdOutcome(body, stamp) ==
      Outcome(Success("Ad created successfully", SaveXml(Feed([f]), SingleFileName(stamp))), Some(Feed([f])));
    assert AdEntries([f]) == [AdEntry(f)];
    AdEntryShape(f);
  }

  /** With the four keys present, the request is answered 500 exactly when
      `images` cannot be iterated or `params` is truthy and not a dict. */
  lemma CreateAdServerError(body: Dict, stamp: string)
    requires HasKey(body, "title") && HasKey(body, "description") && HasKey(body, "price") && HasKey(body, "category")
    ensures CreateAdOutcome(body, stamp).response.ServerError? <==>
      PyIter(Get(body, "images", JList([]))).None? || ParamsArgument(Get(body, "params", JDict([]))).Err?
  {
    RequestKeys(body);
  }

  /** With the four keys present and usable `images` and `params`, the saved
      feed holds the one Ad built from the request's title, description,
      price, the values its `images` iterates over, and its `params` entries. */
  lemma CreateAdFromRequest(body: Dict, stamp: string)
    requires HasKey(body, "title") && HasKey(body, "description") && HasKey(body, "price") && HasKey(body, "category")
    requires PyIter(Get(body, "images", JList([]))).Some?
    requires ParamsArgument(Get(body, "params", JDict([]))).Ok?
    ensures CreateAdOutcome(body, stamp).saved ==
      Some(Feed([AdFields(Item(body, "title"), Item(body, "description"), Item(body, "price"),
        PyIter(Get(body, "images", JList([]))).value, ParamsArgument(Get(body, "params", JDict([]))).value)]))
  {
    RequestKeys(body);
  }

  /** The four keys present by name: the field check lets the request through. */
  lemma RequestKeys(body: Dict)
    requires HasKey(body, "title") && HasKey(body, "description") && HasKey(body, "price") && HasKey(body, "category")
    ensures FirstMissing(body, RequiredFields) == None
  {
    assert RequiredFields == ["title", "description", "price", "category"];
    FirstMissingNone(body);
  }

  /** All four keys present: the field check lets the request through. */
  lemma FirstMissingNone(body: Dict)
    requires forall k :: 0 <= k < |RequiredFields| ==> HasKey(body, RequiredFields[k])
    ensures FirstMissing(body, RequiredFields) == None
  {
  }

  /** When the request's title and description are truthy and its price is not
      the empty string, the saved feed passes validate_xml. */
  lemma CreateAdSavesValidFeed(body: Dict, stamp: string)
    requires CreateAdOutcome(body, stamp).response.Success?
    requires Truthy(Item(body, "title")) && Truthy(Item(body, "description"))
    requires Item(body, "price") != JStr("")
    ensures CreateAdOutcome(body, stamp).saved.Some?
    ensures ValidateXml(CreateAdOutcome(body, stamp).saved.value)
  {
    var f := AdArguments(body).value;
    FeedValid([f]);
  }

  // ---- create_bulk_ads ----

  /** A 400 is given exactly when `category` or `ads` is absent, always with
      the same message, and nothing is saved then. */
  lemma BulkMissingFields(body: Dict, stamp: string)
    ensures var o := CreateBulkAdsOutcome(body, stamp);
      (o.response == ClientError(BulkMissingMessage) <==> !HasKey(body, "category") || !HasKey(body, "ads"))
      && (o.response.ClientError? ==> o.saved == None)
  {
  }

  /** A batch whose records all read is saved as a feed with one Ad per
      record in input order, under out_xml/avito_bulk_<stamp>.xml, and the
      message reports the number of records. */
  lemma BulkSuccess(body: Dict, stamp: string, items: seq<Json>)
    requires HasKey(body, "category") && HasKey(body, "ads")
    requires PyIter(Item(body, "ads")) == Some(items)
    requires forall k :: 0 <= k < |items| ==> ReadAd(items[k]).Ok?
    ensures var o := CreateBulkAdsOutcome(body, stamp);
      && o.response == Success(BulkMessage(|items|), OutputDir + "/" + BulkFileName(stamp))
      && o.saved.Some?
      && o.saved.value.tag == "Ads"
      && o.saved.value.attrib == FeedAttrib
      && |o.saved.value.children| == |items|
      && forall k :: 0 <= k < |items| ==> o.saved.value.children[k] == AdEntry(ReadAd(items[k]).value)
  {
    ReadAdsOk(items);
    var ads := ReadAds(items).value;
    var o := CreateBulkAdsOutcome(body, stamp);
    assert o.saved == Some(Feed(ads));
    assert BulkFileName(stamp)[0] == 'a';
    assert o.response == Success(BulkMessage(|items|), SaveXml(Feed(ads), BulkFileName(stamp)));
    AdEntriesAt(ads);
  }

  /** A record that is not a dict or lacks title, description or price fails
      the whole batch with a 500, and no feed is saved. */
  lemma BulkBadRecord(body: Dict, stamp: string, items: seq<Json>, k: nat)
    requires HasKey(body, "category") && HasKey(body, "ads")
    requires PyIter(Item(body, "ads")) == Some(items)
    requires k < |items|
    requires !items[k].JDict?
      || !HasKey(items[k].entries, "title")
      || !HasKey(items[k].entries, "description")
      || !HasKey(items[k].entries, "price")
    ensures CreateBulkAdsOutcome(body, stamp).response.ServerError?
    ensures CreateBulkAdsOutcome(body, stamp).saved == None
  {
    ReadAdsErr(items, k);
  }

  /** When every record has a truthy title and description and a price that
      is not the empty string, the saved batch feed passes validate_xml. */
  lemma BulkSavesValidFeed(body: Dict, stamp: string)
    requires CreateBulkAdsOutcome(body, stamp).response.Success?
    requires forall k :: 0 <= k < |ReadAds(PyIter(Item(body, "ads")).value).value| ==>
      Fillable(ReadAds(PyIter(Item(body, "ads")).value).value[k])
    ensures CreateBulkAdsOutcome(body, stamp).saved.Some?
    ensures ValidateXml(CreateBulkAdsOutcome(body, stamp).saved.value)
  {
    FeedValid(ReadAds(PyIter(Item(body, "ads")).value).value);
  }

  // ---- both handlers ----

  /** No feed is handed to save_xml unless the answer is a 200, and on a 200 one always is. */
  lemma SavedOnlyOnSuccess(body: Dict, stamp: string)
    ensures var o := CreateAdOutcome(body, stamp);
      (o.saved.Some? <==> StatusCode(o.response) == 200)
    ensures var o := CreateBulkAdsOutcome(body, stamp);
      (o.saved.Some? <==> StatusCode(o.response) == 200)
  {
  }

  /** The two handlers' file names never collide, and each stamp gives its own name. */
  lemma FileNamesDistinct(s: string, t: string)
    ensures SingleFileName(s) != BulkFileName(t)
    ensures SingleFileName(s) == SingleFileName(t) ==> s == t
    ensures BulkFileName(s) == BulkFileName(t) ==> s == t
  {
    assert SingleFileName(s)[6] == 'a' && BulkFileName(t)[6] == 'b';
    if SingleFileName(s) == SingleFileName(t) {
      assert s == SingleFileName(s)[9..|SingleFileName(s)| - 4];
    }
    if BulkFileName(s) == BulkFileName(t) {
      assert s == BulkFileName(s)[11..|BulkFileName(s)| - 4];
    }
  }

  /** The bulk message carries the number of records as decimal text that reads back. */
  lemma BulkMessageCount(count: nat)
    ensures var m := BulkMessage(count);
      && |m| > 25
      && m[..8] == "Created "
      && m[|m| - 17..] == " ads successfully"
      && IsCanonicalDecimal(m[8..|m| - 17])
      && ParseInt(m[8..|m| - 17]) == count
  {
    var m := BulkMessage(count);
    assert m[8..|m| - 17] == Decimal(count);
    DecimalRoundTrip(count);
  }

  // ---- the service's test requests ----

  /** A request without `description` is answered 400 "Missing required field: description". */
  lemma MissingDescriptionExample(stamp: string)
    ensures var body := [("title", JStr("Test iPhone")), ("price", JInt(100000)), ("category", JStr("Электроника"))];
      CreateAdOutcome(body, stamp) == Outcome(ClientError(MissingFieldMessage("description")), None)
  {
    var body := [("title", JStr("Test iPhone")), ("price", JInt(100000)), ("category", JStr("Электроника"))];
    assert body[0].0 == "title" && RequiredFields[0] == "title" && RequiredFields[1] == "description";
    assert forall i :: 0 <= i < |body| ==> body[i].0 != "description";
    CreateAdMissingField(body, stamp, 1);
  }

  /** A request shaped like the service's test request for one ad: string
      title, description and category, the price 100000, one image and the
      params Condition and Brand. */
  function TestAdBody(title: string, description: string, category: string, image: string, condition: string, brand: string): Dict {
    [ ("title", JStr(title)), ("description", JStr(description)), ("price", JInt(100000)),
      ("category", JStr(category)), ("images", JList([JStr(image)])),
      ("params", JDict([("Condition", JStr(condition)), ("Brand", JStr(brand))])) ]
  }

  /** A record holding title, description, price, a list of images and a
      dict of params is read into exactly those arguments. */
  lemma AdArgumentsOfValues(record: Dict, title: Json, description: Json, price: Json, images: seq<Json>, params: Dict)
    requires Lookup(record, "title") == Some(title)
    requires Lookup(record, "description") == Some(description)
    requires Lookup(record, "price") == Some(price)
    requires Lookup(record, "images") == Some(JList(images))
    requires Lookup(record, "params") == Some(JDict(params))
    ensures AdArguments(record) == Ok(AdFields(title, description, price, images, Some(params)))
  {
  }

  /** The add_ad_element arguments the test request is read into. */
  lemma TestAdArguments(title: string, description: string, category: string, image: string, condition: string, brand: string)
    ensures AdArguments(TestAdBody(title, description, category, image, condition, brand))
      == Ok(AdFields(JStr(title), JStr(description), JInt(100000), [JStr(image)],
           Some([("Condition", JStr(condition)), ("Brand", JStr(brand))])))
  {
    var body := TestAdBody(title, description, category, image, condition, brand);
    TestAdLookups(body);
    AdArgumentsOfValues(body, body[0].1, body[1].1, body[2].1, body[4].1.items, body[5].1.entries);
  }

  /** The values a body with the test request's keys holds, in that key order. */
  lemma TestAdLookups(body: Dict)
    requires |body| == 6
    requires body[0].0 == "title" && body[1].0 == "description" && body[2].0 == "price"
    requires body[3].0 == "category" && body[4].0 == "images" && body[5].0 == "params"
    ensures Lookup(body, "title") == Some(body[0].1)
    ensures Lookup(body, "description") == Some(body[1].1)
    ensures Lookup(body, "price") == Some(body[2].1)
    ensures Lookup(body, "images") == Some(body[4].1)
    ensures Lookup(body, "params") == Some(body[5].1)
  {
    LookupAt(body, "title", 0);
    LookupAt(body, "description", 1);
    LookupAt(body, "price", 2);
    LookupAt(body, "images", 4);
    assert "images"[0] != "params"[0];
    LookupAt(body, "params", 5);
  }

  /** An Ad built from a string title and description answers `find` for its
      fixed fields with those values and `str(price)`. */
  lemma TestAdFieldFinds(f: AdFields, title: string, description: string)
    requires f.title == JStr(title) && f.description == JStr(description)
    ensures var ad := AdEntry(f);
      && Find(ad, "Title") == Some(TextElement("Title", JStr(title)))
      && Find(ad, "Description") == Some(TextElement("Description", JStr(description)))
      && Find(ad, "Price") == Some(TextElement("Price", JStr(PyStr(f.price))))
  {
    var ad := AdEntry(f);
    FindAt(ad, "Title", 0);
    FindAt(ad, "Description", 1);
    FindAt(ad, "Price", 2);
  }

  /** An Ad built with the params Condition and Brand answers `find` for them
      with their values. */
  lemma TestAdParamFinds(f: AdFields, condition: string, brand: string)
    requires f.params == Some([("Condition", JStr(condition)), ("Brand", JStr(brand))])
    ensures var ad := AdEntry(f);
      && Find(ad, "Condition") == Some(TextElement("Condition", JStr(condition)))
      && Find(ad, "Brand") == Some(TextElement("Brand", JStr(brand)))
  {
    var ad := AdEntry(f);
    assert ad.children[0].tag == "Title" && ad.children[1].tag == "Description";
    assert ad.children[2].tag == "Price" && ad.children[3].tag == "Images";
    AdEntryParamAt(f, 0);
    AdEntryParamAt(f, 1);
    FindAt(ad, "Condition", 4);
    FindAt(ad, "Brand", 5);
  }

  /** `str(100000)`, the test request's price. */
  lemma HundredThousand()
    ensures PyStr(JInt(100000)) == "100000"
  {
    assert NatDigits(1) == "1";
    assert NatDigits(10) == "10";
    assert NatDigits(100) == "100";
    assert NatDigits(1000) == "1000";
    assert NatDigits(10000) == "10000";
    assert NatDigits(100000) == "100000";
  }

  /** test_create_ad: its request is answered 200 and the saved feed holds one
      Ad whose Title, Description, Price, Condition and Brand read back as the
      request's title, description, `str(price)` and params values. */
  lemma CreateAdTestRequest(stamp: string, title: string, description: string, category: string, image: string, condition: string, brand: string)
    ensures var o := CreateAdOutcome(TestAdBody(title, description, category, image, condition, brand), stamp);
      && o.response.Success?
      && o.saved.Some?
      && |o.saved.value.children| == 1
      && var ad := o.saved.value.children[0];
      && Find(ad, "Title") == Some(TextElement("Title", JStr(title)))
      && Find(ad, "Description") == Some(TextElement("Description", JStr(description)))
      && Find(ad, "Price") == Some(TextElement("Price", JStr("100000")))
      && Find(ad, "Condition") == Some(TextElement("Condition", JStr(condition)))
      && Find(ad, "Brand") == Some(TextElement("Brand", JStr(brand)))
  {
    var body := TestAdBody(title, description, category, image, condition, brand);
    assert body[0].0 == "title" && body[1].0 == "description" && body[2].0 == "price" && body[3].0 == "category";
    RequestKeys(body);
    TestAdArguments(title, description, category, image, condition, brand);
    var f := AdArguments(body).value;
    TestAdFieldFinds(f, title, description);
    TestAdParamFinds(f, condition, brand);
    HundredThousand();
    assert AdEntries([f]) == [AdEntry(f)];
  }

  /** A bulk request without `category` is answered 400 with the fixed message. */
  lemma MissingCategoryExample(stamp: string)
    ensures var ad := JDict([("title", JStr("iPhone 1")), ("description", JStr("Description 1")), ("price", JInt(100000))]);
      CreateBulkAdsOutcome([("ads", JList([ad]))], stamp)
        == Outcome(ClientError(BulkMissingMessage), None)
  {
  }
}
