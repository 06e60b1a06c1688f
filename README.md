# shcli request construction and response projection, in Dafny

This project models the core of `shcli`, a command-line client for the
Sentinel Hub REST services: the logic that sits between the CLI commands and
the endpoints. It covers four pieces:

- the bounding-box guard `validate_bbox`;
- the Process API request builder (`get_evalscript`, `create_request_data`);
- the Catalog search (the CQL2-JSON payload behind the bounding-box guard, the
  swallow-every-failure POST policy, and `extract_statistics`);
- the request-shaping rules of the `getimages` and `catalog-s` commands (the
  output-file extension fix-up, the ISO-8601 interval, the fixed filter values).

The Python dicts and lists are modelled as a small JSON value type
(`Json.Value`). Subscript chains such as `data["input"]["data"][0]` are
written `Found(data).Key("input").Key("data").Index(0)`.

Three collaborators cannot be seen, so they are parameters:

- shapely's `box(...).is_valid` is a `GeometryCheck`, which answers or raises;
- `requests.post` is a `Transport`, which returns a status and a body, or
  fails in transport;
- the OAuth2 access token is a string.

Python exceptions that escape the modelled code are `Err(...)` results.

Files, one module each:

- `wrappers.dfy`: Option, Result and the Python exception kinds.
- `json.dfy`: JSON values, lookups, and lists of floats and strings.
- `text.dfy`: `str.upper`, `str.endswith` and suffix stripping.
- `bbox.dfy`: `validate_bbox`.
- `query_builder.dfy`: the evalscripts, the MIME mapping, `create_request_data` and its decoder.
- `catalog.dfy`: the search payload and its decoder, `catalog_request` and `extract_statistics`.
- `cli.dfy`: the extension fix-up, the catalog interval, and `getimages` up to the download, and `catalog-s` through the search and the extraction.

Each builder has a partner: a decoder that reads the parameters back out of
the JSON. A round-trip lemma shows that nothing is lost in building.
`extract_statistics` is a loop method. It is proved equal to the recursive
function `Statistics`, and the lemmas about the output are stated on that
function.

## Model

| member | source | states |
|---|---|---|
| `BoundingBox.Validate` | shcli/utils/utils.py:14-37 | An absent box, a length other than 4, `maxLon <= minLon` or `maxLat <= minLat` give false. A true result implies four strictly increasing corners. For a well-ordered box, the result is true exactly when the geometry check answers valid, and an exception from the check gives false. |
| `BoundingBox.ValidateExamples` | tests/test_utils.py:16-30 | `[12,47,13,48]` is accepted when the geometry check accepts it. The reversed box `[13,48,12,47]`, the empty list and None are rejected, whatever the check says. |
| `Text.UpperEqualsIff` | shcli/process/query_builder.py:75 | Comparing `s.upper()` with an upper-case word holds exactly when `s` spells that word in any mix of cases. |
| `QueryBuilder.EvalscriptsDistinct` | shcli/process/query_builder.py:17-73 | The NDVI and visual scripts are distinct and non-empty. |
| `QueryBuilder.GetEvalscript` | shcli/process/query_builder.py:10-75 | The result is the NDVI script if and only if `eval_type.upper() == "NDVI"`, and the visual script in every other case. |
| `QueryBuilder.EvalscriptIgnoresCase` | shcli/process/query_builder.py:75 | The NDVI script is chosen exactly for the case-insensitive spellings of "NDVI", and the visual script for everything else. |
| `QueryBuilder.OutputMimeType` | shcli/process/query_builder.py:101-107 | The result is `image/tiff` if and only if the upper-cased format is TIFF, and `image/jpeg` if and only if it is JPEG. Every other value gives `image/png`. |
| `QueryBuilder.OutputMimeTypeIgnoresCase` | shcli/process/query_builder.py:101-107 | The same mapping, stated as case-insensitive matching of TIFF and JPEG, with PNG for everything else. |
| `QueryBuilder.CreateRequestData` | shcli/process/query_builder.py:77-138 | An invalid box gives the empty mapping, whatever the other arguments are. A valid box gives a dict with exactly the keys `input`, `output` and `evalscript`. |
| `QueryBuilder.RequestDataInput` | shcli/process/query_builder.py:96-122 | For a valid box, `input.bounds.bbox` is the box. `input.data` has exactly one entry, whose `timeRange` is `start_date + "T00:00:00Z"` to `end_date + "T23:59:59Z"`. Its `maxCloudCoverage`, `mosaickingOrder` and `type` are the arguments, unchanged. |
| `QueryBuilder.RequestDataOutput` | shcli/process/query_builder.py:99-136 | For a valid box, `output.width` and `output.height` are the arguments (682.987 and 514.207 by default). `output.responses` has exactly one entry, with identifier `"default"` and the mapped MIME type. `evalscript` is `get_evalscript(eval_type)`. |
| `QueryBuilder.RequestDataInputShape` | shcli/process/query_builder.py:110-122 | For a valid box, every dict under `input` has exactly the literal's keys: `bounds` and `data`; `bbox`; `dataFilter` and `type`; `timeRange`, `maxCloudCoverage` and `mosaickingOrder`; `from` and `to`. |
| `QueryBuilder.RequestDataOutputShape` | shcli/process/query_builder.py:123-134 | For a valid box, every dict under `output` has exactly the literal's keys: `width`, `height` and `responses`; `identifier` and `format`; `type`. |
| `QueryBuilder.RequestDataExample` | tests/test_query_builder.py:8-12 | The unit test's request has `input` and `output`, and `maxCloudCoverage` is 20. |
| `QueryBuilder.ProcessRequestRoundTrip` | shcli/process/query_builder.py:109-136 | Decoding a request built for a valid box gives back the box, the two dates, the filter values and the size that went in. It also gives the selected evalscript and MIME type. |
| `QueryBuilder.EmptyRequestCarriesNothing` | shcli/process/query_builder.py:92-94 | The empty mapping returned for an invalid box does not decode as a request. |
| `Catalog.SearchPayload` | shcli/catalog/catalog.py:43-58 | The search body has exactly the keys `collections`, `datetime`, `bbox`, `limit`, `filter` and `filter-lang`. |
| `Catalog.SearchPayloadFields` | shcli/catalog/catalog.py:43-58 | `collections`, `datetime`, `bbox` and `limit` are the arguments, unchanged. The filter is `op "<="` with two args, `{property: "eo:cloud_cover"}` and the cloud-cover ceiling. `filter-lang` is `"cql2-json"`. |
| `Catalog.SearchPayloadRoundTrip` | shcli/catalog/catalog.py:43-58 | Decoding a search body gives back its collections, interval, box, limit and cloud-cover ceiling. |
| `Catalog.ResponseJson` | shcli/catalog/catalog.py:60-68 | A non-error status with a JSON body yields that body. A transport failure, a 4xx or 5xx status, or a body that is not JSON yields `{}`. |
| `Catalog.CatalogRequest` | shcli/catalog/catalog.py:10-68 | An invalid box sends nothing and yields `{}`. A valid box sends one POST to the URL with `Authorization: Bearer <token>`. Its body is the search payload, which decodes back to the arguments; limit and cloud cover default to 10 and 20. The result is that POST's outcome under the failure policy. |
| `Catalog.CatalogRequestExample` | tests/test_catalog.py:6-20 | With a valid box and a 200 answer `{"features": []}`, one request is sent and the answer is returned unchanged. |
| `Catalog.FailedSearchYieldsNoStatistics` | shcli/catalog/catalog.py:60-99 | An invalid box, a transport failure or an error status gives an empty statistics list. |
| `Catalog.FeatureItems` | shcli/catalog/catalog.py:81-84 | Iterating `features` succeeds exactly for a list, an empty string or an empty dict. A list yields its own items and the empty ones yield nothing. Null, booleans and numbers raise TypeError; a non-empty string or dict fails with AttributeError. |
| `Catalog.ProjectFeature` | shcli/catalog/catalog.py:84-95 | A feature projects without error exactly when it is a dict whose `properties` is a dict or absent. Otherwise the error is AttributeError. |
| `Catalog.ProjectAll` | shcli/catalog/catalog.py:82-97 | The projection succeeds exactly when every feature is well formed. On success there is one record per feature, in order, and record i is feature i's projection. |
| `Catalog.Statistics` | shcli/catalog/catalog.py:72-99 | A response that is not a dict raises AttributeError. A response without `features` gives `[]`. Only TypeError and AttributeError can escape. |
| `Catalog.ExtractStatistics` | shcli/catalog/catalog.py:72-99 | The loop that appends one record per feature computes exactly `Statistics(response)`, including its errors. |
| `Catalog.StatisticsFollowFeatures` | shcli/catalog/catalog.py:84-97 | Extraction succeeds if and only if every feature is well formed. The output then has the length of `features`, record i's `id` is `features[i]["id"]`, and every `stac_version` is the response's top-level one. Each of `datetime`, `platform`, `constellation`, `gsd`, `eo:cloud_cover` and `proj:epsg` is copied from the feature's properties, or is null where the key is absent. |
| `Catalog.MissingFieldsAreNull` | shcli/catalog/catalog.py:85-94 | A missing `id`, `stac_version`, `properties` or property key gives null in the record, never an error. |
| `Catalog.NonIterableFeatures` | shcli/catalog/catalog.py:81-84 | A `features` value that is null, a boolean or a number raises TypeError. |
| `Catalog.NullPropertiesRaise` | shcli/catalog/catalog.py:85 | A feature whose `properties` is present but null raises AttributeError. |
| `Catalog.StatisticsExample` | tests/test_catalog.py:22-34 | The unit test's two features give two records with ids "1" and "2". The missing platform and stac_version are null. |
| `Cli.FileExtension` | shcli/cli.py:100-101 | The result is `.tiff` if and only if the upper-cased format is TIFF, and `.png` otherwise. |
| `Cli.FileExtensionIgnoresCase` | shcli/cli.py:100-101 | `.tiff` is chosen exactly for the case-insensitive spellings of TIFF. |
| `Cli.AppendExtension` | shcli/cli.py:103-104 | The result ends with the extension. A name already ending with it is unchanged, so the fix-up is idempotent. Any other name gets exactly the extension appended. |
| `Cli.ExtensionCheckIsCaseSensitive` | shcli/cli.py:103 | `"x.PNG"` does not end with `".png"`, so the fix-up turns it into `"x.PNG.png"`. |
| `Cli.CatalogInterval` | shcli/cli.py:146 | The interval is the start date with the start-of-day suffix, a slash, and the end date with the end-of-day suffix. These are the suffixes the process builder uses. |
| `Cli.IntervalMatchesTimeRange` | shcli/cli.py:146 | The catalog interval equals the process request's `timeRange.from`, a slash, and its `timeRange.to`. |
| `Cli.GetImages` | shcli/cli.py:77-119 | An invalid box raises ValueError before anything is built. Otherwise the file name ends with the chosen extension, and the request is exactly what `create_request_data` builds from the user's arguments with cloud cover 20 and order "leastCC". It decodes to the user's box, dates and collection, a cloud cover of 20, order "leastCC", the selected script and MIME type, and the default size. |
| `Cli.CatalogS` | shcli/cli.py:130-159 | An invalid box raises ValueError before any search is built. Otherwise the search is for `["sentinel-2-l2a"]` over the interval, with limit 10 and cloud cover 20. The statistics are those of the response, and an extraction error becomes the command's error: that same TypeError or AttributeError is returned. |

## Left out

- HTTP transport: `requests.post` is a parameter. All of shcli/process/process.py, the image download and the file write, is not part of this model.
- Authentication is not part of this model. That covers the OAuth2 token fetch in shcli/auth/user_auth.py, the `LoginModel` record, and `LoginAuth` with its compliance hook; the token is a parameter. `getimages` and `catalog-s` fetch the token before they check the box, and that ordering is not modelled.
- Credential storage (`save_login_credentials`, `read_login_credentials`, shcli/utils/file_utils.py) is file I/O on JSON and is not modelled.
- Polygon validity: shapely's check is a parameter and may answer or raise.
- The evalscripts are kept as opaque text. Their JavaScript semantics, the NDVI colour ramp and the 2.5 gain, are not modelled.
- Logging, `click.echo`/`print` output, click option parsing and the `try/except` wrappers that print errors are left out. The commands return their error instead.
- Upper: only the ASCII letters are mapped. Python's full Unicode case mapping is not modelled; for example, `"ı".upper()` is `"I"`.
- BoundingBox.Validate: coordinates are reals, so NaN and infinities, and the way the comparisons treat them, are not modelled.
- Json.Value: dicts are maps, so key order is not modelled, and neither is the layout `json.dumps` prints. Floats are exact reals.
- FeatureItems: a non-empty string or dict in `features` is reported as the AttributeError that its first element, a string, raises. The elements are not enumerated.
- ResponseJson: any status outside 400-599 counts as success. A body that is not JSON yields `{}` only with requests 2.27 or later, where the decode error is a `RequestException`; with older versions that error escapes the handler, and the model does not capture that. Redirects and the transport's own status handling are not modelled.
- GetImages: `output_file` is always a string, as the click default guarantees; the `None` case of the signature is not modelled.
