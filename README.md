# Ad-feed document pipeline: a Dafny model

This project models the bulk ad-feed pipeline of `Avito_autoload`. It has
three parts:

- **Building the document** (`root_xml.py`). An `Ads` root carries the fixed
  attributes `formatVersion="3"` and `target="Avito.ru"`. Each
  `add_ad_element` call appends one `Ad` to it. The children of an `Ad` are,
  in order: `Title`, `Description`, `Price` (the text `str(price)`), an
  `Images` element with one `Image url=…` per image, and then one element per
  `params` entry. `save_xml` saves the tree under `out_xml/<filename>`.
- **Validation** (`utils.py`). The root must be tagged `Ads` and must carry a
  `formatVersion` and a `target` attribute. Every direct `Ad` child must have
  a first `Title`, `Description` and `Price` child with non-empty text.
- **The service's two POST handlers** (`mcp_service/avito_mcp.py`):
  - `create_ad` checks for `title`, `description`, `price` and `category`, in
    that order, and answers 400 `Missing required field: <first missing>`.
  - `create_bulk_ads` answers 400 `Missing required fields: category, ads`
    when either key is absent.
  - Otherwise, each handler builds one `Ad` per record, in input order. It
    saves the feed as `avito_ad_<stamp>.xml` or `avito_bulk_<stamp>.xml` and
    answers 200 with the path. For the bulk handler the message is
    `Created <n> ads successfully`.
  - An exception raised while reading the request or building the feed gives
    a 500 before `save_xml` is called. An exception inside `tree.write` also
    gives a 500, but after the file has been created; that case is outside
    this model (see "Left out").

Modules, one per source file plus two for the Python and ElementTree
behaviour the code relies on, and `Wrappers`:

- `Wrappers` (`wrappers.dfy`): the `Option` and `Result` datatypes.
- `PyValues` (`py_values.dfy`): Python values as parsed from the JSON body
  (`Json`), dicts as insertion-ordered entries, and the built-ins used on them:
  `in`, `[]`, `.get`, truthiness, `str()`, `for … in`. Handing an iterable to
  `len` gives the number of values `for … in` visits, so the bulk message
  counts the iterated records.
- `Elements` (`elements.dfy`): the element value (tag, attributes, text, children) and
  `find` / `findall` over direct children.
- `Utils` (`utils.dfy`): `validate_ad` and `validate_xml` as functions that
  follow the source's early-return loops, each proved equal to a quantified statement.
- `RootXml` (`root_xml.dfy`): the root is a class `Doc`, because
  `add_ad_element` changes it in place. Its constructor is `create_root_xml`,
  and its method `AddAdElement` builds the `Ad` with loops over the images and
  the params and appends it. The pure functions `AdEntry` and `Feed` describe
  what the calls build, and lemmas prove the document's shape and that it
  passes validation.
- `AvitoMcp` (`avito_mcp.dfy`): the handlers are methods. They build the feed
  through `Doc` and return the response together with the document handed to
  `save_xml` (None when nothing is saved). Each method is proved equal to a
  specification function (`CreateAdOutcome`, `CreateBulkAdsOutcome`), and
  lemmas state the handlers' behaviour in terms of those functions.

Behaviour of the code worth knowing:

- The bulk error message is always the fixed `Missing required fields:
  category, ads`; it does not list the fields that are actually missing.
- The service never calls `validate_xml` before saving.
- `validate_xml` checks only that the root attributes are present, not that
  they are non-empty.
- Nothing checks that the price is non-negative; the price is whatever value
  the request holds.

Request bodies are JSON objects given already parsed (`seq<(string, Json)>`).
The timestamp used in file names and in the health answer is a string
parameter.

## Model

| member | source | states |
|---|---|---|
| `PyValues.Lookup` | Avito_autoload/mcp_service/avito_mcp.py:60 | a value is found exactly when the key is in the dict (`field in data`), and it is an entry stored under that key |
| `PyValues.Get` | Avito_autoload/mcp_service/avito_mcp.py:73-74 | `data.get(key, default)` gives the default exactly when the key is absent, otherwise a value stored under the key |
| `PyValues.LookupAt` | Avito_autoload/mcp_service/avito_mcp.py:70-74 | `d[key]` is the value of the entry holding `key`, located by its position |
| `PyValues.Truthy` | Avito_autoload/utils.py:74 | definition, no contract: `bool(v)` as `not element.text` and `if params:` test it |
| `PyValues.FalsyValues` | Avito_autoload/root_xml.py:60 | the falsy values are exactly None, False, 0, `""`, `[]` and `{}` |
| `PyValues.Repr` | Avito_autoload/root_xml.py:52 | `repr` is never empty; None is `None`, booleans `True`/`False`, an int its canonical decimal text that reads back |
| `PyValues.PyStr` | Avito_autoload/root_xml.py:52 | `str` of a string is the string itself; of an int, canonical decimal text that reads back as the int; of None, `None` |
| `PyValues.DecimalRoundTrip` | Avito_autoload/root_xml.py:52 | `str(price)` of an int is canonical decimal text (optional minus sign, no leading zeros, never `-0`), and reading it back gives the same int |
| `PyValues.PyStrEmpty` | Avito_autoload/root_xml.py:52 | `str(v)` is empty exactly when `v` is the empty string, so the `Price` text is empty only for the price `""` |
| `PyValues.PyIter` | Avito_autoload/root_xml.py:56 | `for x in v` fails exactly for None, bools and ints; a list yields its items, a string yields its one-character strings in order, a dict yields its keys in insertion order |
| `Elements.FindIndex` | Avito_autoload/utils.py:73 | `find` picks the first direct child with the tag: every earlier child has another tag, and None means no child has it |
| `Elements.Find` | Avito_autoload/utils.py:73 | the child `find` returns is the first direct child with the requested tag (every earlier child has another tag); None exactly when no direct child has that tag |
| `Elements.FindAt` | Avito_autoload/utils.py:73 | the child at position j is what `find` returns when it is the first with its tag |
| `Elements.FindAll` | Avito_autoload/utils.py:50 | `findall('Ad')` holds exactly the direct children tagged `Ad` |
| `Utils.CheckFields` | Avito_autoload/utils.py:72-78 | the loop over the required fields succeeds iff every field has a first child with truthy text |
| `Utils.ValidateAd` | Avito_autoload/utils.py:60-78 | true iff `Title`, `Description` and `Price` each have a first direct child whose text is non-empty |
| `Utils.AllAdsValid` | Avito_autoload/utils.py:50-54 | the loop over the `Ad` children succeeds iff every one of them passes `validate_ad` |
| `Utils.ValidateXml` | Avito_autoload/utils.py:25-58 | false when the root tag is not `Ads`, when `formatVersion` is absent, or when `target` is absent; otherwise true iff every direct child tagged `Ad` passes `validate_ad`; other children are ignored |
| `RootXml.Doc.CreateRootXml` | Avito_autoload/root_xml.py:11-23 | the new root is `Ads` with exactly `formatVersion="3"` and `target="Avito.ru"`, no text and no children; `category` and `params` have no effect |
| `RootXml.Doc.AddAdElement` | Avito_autoload/root_xml.py:25-64 | appends exactly one child at the end, namely the returned `Ad` built from the arguments; the root's tag, attributes, text and earlier children are unchanged |
| `RootXml.SaveXml` | Avito_autoload/root_xml.py:66-81 | the path is `out_xml/<filename>`, or the filename itself when it is absolute (as `os.path.join` gives); the tree is only read |
| `RootXml.ImageElementsAt` | Avito_autoload/root_xml.py:55-57 | `Images` has exactly one child per image, the k-th an `Image` whose `url` is the k-th image |
| `RootXml.ParamElementsAt` | Avito_autoload/root_xml.py:60-62 | one element per params entry in insertion order, tagged with the key, text `str(value)` |
| `RootXml.AdEntriesAt` | Avito_autoload/root_xml.py:47 | after n calls the root has n `Ad` children, the k-th built by the k-th call |
| `RootXml.AdEntryShape` | Avito_autoload/root_xml.py:47-62 | an `Ad`'s children are exactly `Title`, `Description`, `Price`, `Images`, then the params elements; without params exactly 4 children |
| `RootXml.PriceText` | Avito_autoload/root_xml.py:52 | for an int price, the `Price` text is its canonical decimal form and reads back as that price |
| `RootXml.AdEntryValid` | Avito_autoload/utils.py:60-78 | `validate_ad` accepts an `Ad` built by `add_ad_element` iff title and description are truthy and the price is not `""`; a params key repeating `Title` does not matter, because the first `Title` child is the one from line 50 |
| `RootXml.FeedValid` | Avito_autoload/root_xml.py:22-62 | a root from `create_root_xml` extended by any number of `add_ad_element` calls passes `validate_xml` iff every call had a truthy title and description and a price other than `""` |
| `RootXml.FeedValidWhenFillable` | Avito_autoload/root_xml.py:22-62 | if every `add_ad_element` call had fillable values, the resulting root passes `validate_xml` |
| `RootXml.FeedInvalidAt` | Avito_autoload/root_xml.py:22-62 | one call with an empty title or description, or a price whose `str` is empty, makes `validate_xml` reject the whole root |
| `RootXml.FeedAppend` | Avito_autoload/root_xml.py:47-64 | each `add_ad_element` call leaves the earlier `Ad` elements in place and adds its own after them |
| `AvitoMcp.FirstMissing` | Avito_autoload/mcp_service/avito_mcp.py:58-64 | None iff the request has every required key; otherwise a missing key |
| `AvitoMcp.FirstMissingAt` | Avito_autoload/mcp_service/avito_mcp.py:58-64 | the key reported is the first missing one in check order |
| `AvitoMcp.ParamsArgument` | Avito_autoload/root_xml.py:60-61 | `params.items()` fails exactly for a truthy value that is not a dict; a falsy value gives no extra fields |
| `AvitoMcp.AdArguments` | Avito_autoload/mcp_service/avito_mcp.py:68-75 | a missing `title`, `description` or `price` raises a KeyError for the first such key; the record reads exactly when those three keys are present, `images` (default `[]`) is iterable and `params` (default `{}`) is falsy or a dict; then the fields are the request's own values, the images are what iterating `images` yields and the params are the `params` entries |
| `AvitoMcp.ReadAd` | Avito_autoload/mcp_service/avito_mcp.py:132-140 | a record that is not a dict fails with the TypeError for subscripting; a dict is read as `create_ad` reads its body (definition) |
| `AvitoMcp.SingleFileName` | Avito_autoload/mcp_service/avito_mcp.py:78 | the name is `avito_ad_`, the stamp, `.xml` |
| `AvitoMcp.BulkFileName` | Avito_autoload/mcp_service/avito_mcp.py:143 | the name is `avito_bulk_`, the stamp, `.xml` |
| `AvitoMcp.FileNamesDistinct` | Avito_autoload/mcp_service/avito_mcp.py:78-143 | a single-ad name never equals a bulk name, and different stamps give different names |
| `AvitoMcp.BulkMessageCount` | Avito_autoload/mcp_service/avito_mcp.py:148 | the bulk message is `Created `, the record count as canonical decimal text that reads back as the count, ` ads successfully` |
| `AvitoMcp.ReadAdsStep` | Avito_autoload/mcp_service/avito_mcp.py:132-140 | one more record either fails the batch with its error or extends what was read by its arguments |
| `AvitoMcp.CreateAd` | Avito_autoload/mcp_service/avito_mcp.py:37-92 | the handler answers and saves exactly `CreateAdOutcome`, which the lemmas below characterise |
| `AvitoMcp.CreateBulkAds` | Avito_autoload/mcp_service/avito_mcp.py:94-157 | the handler, looping over the records and appending to the root, answers and saves exactly `CreateBulkAdsOutcome` |
| `AvitoMcp.HealthCheck` | Avito_autoload/mcp_service/avito_mcp.py:159-168 | the status is always `healthy`, stamped with the given time |
| `AvitoMcp.CreateAdMissingField` | Avito_autoload/mcp_service/avito_mcp.py:58-64 | a request lacking a required key gets 400 `Missing required field: <first missing in order title, description, price, category>` and nothing is saved |
| `AvitoMcp.CreateAdKeysSuffice` | Avito_autoload/mcp_service/avito_mcp.py:58-64 | only key presence is checked: with all four keys the answer is never a 400, whatever the values |
| `AvitoMcp.CreateAdSuccess` | Avito_autoload/mcp_service/avito_mcp.py:66-85 | a complete request saves a feed `Ads` with the fixed attributes and exactly one `Ad` built from the request's title, description, price, the values its `images` yields and its `params` entries, with no images or extra fields when those keys are absent; the answer is `Ad created successfully` with `out_xml/avito_ad_<stamp>.xml` |
| `AvitoMcp.CreateAdServerError` | Avito_autoload/mcp_service/avito_mcp.py:66-92 | with the four keys present, the answer is a 500 exactly when `images` is not iterable or `params` is truthy and not a dict |
| `AvitoMcp.CreateAdFromRequest` | Avito_autoload/mcp_service/avito_mcp.py:66-79 | with the four keys and usable `images` and `params`, the saved feed is the one `Ad` built from the request's title, description, price, iterated images and params entries |
| `AvitoMcp.AdArgumentsOfValues` | Avito_autoload/mcp_service/avito_mcp.py:68-75 | a record with a list of images and a dict of params is read into exactly those values |
| `AvitoMcp.CreateAdSavesValidFeed` | Avito_autoload/mcp_service/avito_mcp.py:66-85 | when the title and description are truthy and the price is not `""`, the saved feed passes `validate_xml` |
| `AvitoMcp.BulkMissingFields` | Avito_autoload/mcp_service/avito_mcp.py:122-126 | the answer is 400 `Missing required fields: category, ads` iff `category` or `ads` is absent, and then nothing is saved |
| `AvitoMcp.ReadAdsOk` | Avito_autoload/mcp_service/avito_mcp.py:132-140 | when every record reads, the batch gives one set of arguments per record, in input order |
| `AvitoMcp.ReadAdsErr` | Avito_autoload/mcp_service/avito_mcp.py:132-140 | one record that does not read makes the whole batch fail |
| `AvitoMcp.ReadAdsFailureSticks` | Avito_autoload/mcp_service/avito_mcp.py:132-140 | once a prefix of the records fails, the batch fails with that prefix's error |
| `AvitoMcp.ReadAdsFirstFailure` | Avito_autoload/mcp_service/avito_mcp.py:132-140 | the batch's error is the error of the first record that fails |
| `AvitoMcp.BulkSuccess` | Avito_autoload/mcp_service/avito_mcp.py:128-150 | when every record reads, the saved feed has exactly one `Ad` per record in input order; the answer is `Created <n> ads successfully` with `out_xml/avito_bulk_<stamp>.xml` |
| `AvitoMcp.BulkBadRecord` | Avito_autoload/mcp_service/avito_mcp.py:132-157 | a record that is not a dict, or lacks `title`, `description` or `price`, gives a 500 before `save_xml` is reached, so no feed is handed to it |
| `AvitoMcp.BulkSavesValidFeed` | Avito_autoload/mcp_service/avito_mcp.py:128-150 | when every record has a truthy title and description and a price other than `""`, the saved batch passes `validate_xml` |
| `AvitoMcp.SavedOnlyOnSuccess` | Avito_autoload/mcp_service/avito_mcp.py:37-157 | for both handlers a feed is handed to `save_xml` exactly when the status is 200 (the file write itself, which can fail after creating the file, is not modelled) |
| `AvitoMcp.MissingDescriptionExample` | Avito_autoload/mcp_service/tests/test_mcp_service.py:118-132 | the test request without `description` gets 400 `Missing required field: description` |
| `AvitoMcp.MissingCategoryExample` | Avito_autoload/mcp_service/tests/test_mcp_service.py:134-152 | the test bulk request without `category` gets 400 with the fixed message |
| `AvitoMcp.CreateAdTestRequest` | Avito_autoload/mcp_service/tests/test_mcp_service.py:28-66 | the test's single-ad request, for any string values, is answered 200 and the saved `Ad` gives back its title, description, `str(100000)` and the `Condition` and `Brand` params through `find` |
| `AvitoMcp.TestAdArguments` | Avito_autoload/mcp_service/tests/test_mcp_service.py:30-40 | the test request is read into its own title, description, price, image list and params |
| `AvitoMcp.TestAdFieldFinds` | Avito_autoload/mcp_service/tests/test_mcp_service.py:62-64 | an `Ad` with string title and description answers `find` with them and with `str(price)` |
| `AvitoMcp.TestAdParamFinds` | Avito_autoload/mcp_service/tests/test_mcp_service.py:65-66 | an `Ad` with the params `Condition` and `Brand` answers `find` for both with their values |
| `RootXml.AdEntryParamAt` | Avito_autoload/root_xml.py:60-62 | the k-th params entry becomes the child right after `Images` plus k |

## Left out

- The aiohttp application, route setup, `run`, `__init__`'s host and port,
  async/await and the logging through loguru are not modelled.
- Parsing the request body is not modelled. A body that is not valid JSON, or
  not a JSON object, is not modelled either; the source treats the latter
  with `in` on lists and strings. A parsed dict has distinct keys, so lookups
  take the first entry. The `Dict` type itself admits repeated keys; every
  result is stated for all entry sequences, so it holds in particular for the
  duplicate-free ones a parsed body gives. JSON floats are not modelled.
- The clock (`datetime.now()`) is not modelled: the formatted timestamp used
  in file names and the health timestamp are parameters.
- Filesystem I/O is not modelled: `create_directory`, the XML declaration, and
  ElementTree's serialisation and escaping in `tree.write`. `save_xml` is
  modelled as the path it returns. Storage failures, which the source would
  answer with a 500, are not modelled.
- AvitoMcp.CreateAd: a truthy non-string title or description (JSON
  `"title": 123`, say), or a non-string image value, is stored as given and
  answered 200 in the model. In the source `tree.write` creates
  `out_xml/avito_ad_<stamp>.xml` first and then, depending on ElementTree's
  serialiser (which is not part of this model), may fail on such a value:
  it raises for a truthy non-string text and for a None, bool or int `url`,
  so the source answers 500 and leaves a partly written file behind.
- AvitoMcp.CreateBulkAds: the same for such a value in any record; the partly
  written `avito_bulk_<stamp>.xml` then holds the ads serialised before it.
- AvitoMcp.SavedOnlyOnSuccess: "no feed handed to `save_xml` unless 200" holds
  because writing is not modelled; the source does leave a partial file in
  the case above. The same applies to AvitoMcp.BulkBadRecord, which covers
  only the failures that happen before `save_xml` is called.
- AvitoMcp.Response: a 500 carries the kind of exception (a KeyError with its
  key, a TypeError for subscripting or iteration, an AttributeError for
  `.items()`), not the text of `str(e)`.
- PyValues.Repr: `str()` of a list or dict inside a price or a params value
  quotes strings with single quotes. Python's choice of double quotes and its
  escapes are not modelled.
- RootXml.Doc.AddAdElement: the `Ad` is built as a value and then appended.
  The source appends it first and fills it afterwards. The difference shows
  only when an exception is raised part-way, and the handlers then discard the
  root. The returned `Ad` is a value, so aliasing between it and the root's
  child is not modelled.
- AvitoMcp.AdArguments: the iteration of `images` and the `.items()` call on
  `params` happen inside `add_ad_element` in the source. Here the handler
  performs them before calling `AddAdElement`, in the same order, so the same
  exception is raised first.
- `validate_xml`'s exception handler is not modelled: none of its checks can
  raise on the trees modelled here.
- The `sys.path.append` line in `avito_mcp.py` uses `sys` without importing
  it, so that module fails at import as written. The model treats the import
  of `root_xml` as working.
- File names with second-resolution timestamps can collide between
  concurrent requests; concurrency is not modelled.
- The browser wrapper `avito_agent.py`, its tests and the container tests
  are not part of this model.
