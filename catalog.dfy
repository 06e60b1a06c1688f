/**
 * The catalog search (shcli/catalog/catalog.py): the CQL2-JSON search
 * payload behind the bounding-box guard, the POST (a parameter here) with
 * its swallow-every-failure policy, and the projection of the response's
 * features into flat statistics records.
 */
module Catalog {
  import opened Wrappers
  import opened Json
  import opened BoundingBox

  const DefaultLimit: int := 10
  const DefaultCloudCover: int := 20
  const CatalogUrl: string := "https://services.sentinel-hub.com/api/v1/catalog/1.0.0/search"

  /** The CQL2-JSON expression `eo:cloud_cover <= cloudCover`. */
  function CloudCoverFilter(cloudCover: int): Value
  {
    Obj(map[
      "op" := Str("<="),
      "args" := Arr([Obj(map["property" := Str("eo:cloud_cover")]), Int(cloudCover)])
    ])
  }

  /** The body of the search request, built once the box has passed validation. */
  function SearchPayload(
    collections: seq<string>, datetime: string, bbox: seq<real>, limit: int, cloudCover: int
  ): (data: Value)
    ensures data.Obj?
    ensures data.fields.Keys == {"collections", "datetime", "bbox", "limit", "filter", "filter-lang"}
  {
    Obj(map[
      "collections" := Strs(collections),
      "datetime" := Str(datetime),
      "bbox" := Reals(bbox),
      "limit" := Int(limit),
      "filter" := CloudCoverFilter(cloudCover),
      "filter-lang" := Str("cql2-json")
    ])
  }

  /**
   * The search body carries the collections, interval, box and limit as
   * given, and filters on `eo:cloud_cover <= cloudCover` in CQL2-JSON.
   */
  lemma SearchPayloadFields(
    collections: seq<string>, datetime: string, bbox: seq<real>, limit: int, cloudCover: int)
    ensures var data := SearchPayload(collections, datetime, bbox, limit, cloudCover);
      && Found(data).Key("collections") == Found(Strs(collections))
      && Found(data).Key("datetime") == Found(Str(datetime))
      && Found(data).Key("bbox") == Found(Reals(bbox))
      && Found(data).Key("limit") == Found(Int(limit))
      && Found(data).Key("filter").Key("op") == Found(Str("<="))
      && Found(data).Key("filter").Key("args").Length() == Some(2)
      && Found(data).Key("filter").Key("args").Index(0).Key("property") == Found(Str("eo:cloud_cover"))
      && Found(data).Key("filter").Key("args").Index(1) == Found(Int(cloudCover))
      && Found(data).Key("filter-lang") == Found(Str("cql2-json"))
  {
  }

  /** The parameters a search body carries, as read back from its JSON. */
  datatype SearchParameters = SearchParameters(
    collections: seq<string>, datetime: string, bbox: seq<real>, limit: int, cloudCover: int)

  /**
   * Reads a search body back; None unless it has the shape SearchPayload
   * builds, including the cloud-cover filter in CQL2-JSON.
   */
  function ReadSearchPayload(data: Value): Option<SearchParameters>
  {
    var collections := Found(data).Key("collections");
    var collectionNames := if collections.Found? then ReadStrs(collections.value) else None;
    var bbox := Found(data).Key("bbox");
    var bboxValues := if bbox.Found? then ReadReals(bbox.value) else None;
    var datetime := Found(data).Key("datetime").AsStr();
    var limit := Found(data).Key("limit").AsInt();
    var filter := Found(data).Key("filter");
    var cloudCover := filter.Key("args").Index(1).AsInt();
    if && collectionNames.Some? && bboxValues.Some? && datetime.Some? && limit.Some? && cloudCover.Some?
       && filter == Found(CloudCoverFilter(cloudCover.value))
       && Found(data).Key("filter-lang") == Found(Str("cql2-json"))
    then Some(SearchParameters(collectionNames.value, datetime.value, bboxValues.value, limit.value, cloudCover.value))
    else None
  }

  /** Nothing is lost in building a search body: reading it back gives the parameters. */
  lemma {:induction false} SearchPayloadRoundTrip(
    collections: seq<string>, datetime: string, bbox: seq<real>, limit: int, cloudCover: int)
    ensures ReadSearchPayload(SearchPayload(collections, datetime, bbox, limit, cloudCover))
      == Some(SearchParameters(collections, datetime, bbox, limit, cloudCover))
  {
    StrsRoundTrip(collections);
    RealsRoundTrip(bbox);
    SearchPayloadFields(collections, datetime, bbox, limit, cloudCover);
  }

  /** An HTTP POST: where it goes, its headers and its JSON body. */
  datatype HttpRequest = HttpRequest(url: string, headers: map<string, string>, body: Value)

  /**
   * What the transport does with a request: a response with a status and a
   * body (None when the body is not JSON), or a connection-level failure.
   */
  datatype HttpOutcome = Received(status: int, body: Option<Value>) | TransportFailed

  /** `requests.post`, left opaque. */
  type Transport = HttpRequest -> HttpOutcome

  /** The request sent (if any) and the mapping handed back to the caller. */
  datatype Exchange = Exchange(sent: Option<HttpRequest>, response: Value)

  /** JSON content type and bearer authorisation. */
  function Headers(token: string): map<string, string>
  {
    map["Content-Type" := "application/json", "Authorization" := "Bearer " + token]
  }

  /** `raise_for_status` rejects the 4xx and 5xx statuses. */
  predicate IsErrorStatus(status: int)
  {
    400 <= status < 600
  }

  /**
   * `raise_for_status()` then `response.json()`, with every request
   * exception (transport failure, error status, undecodable body) mapped to `{}`.
   */
  function ResponseJson(outcome: HttpOutcome): (response: Value)
    ensures outcome.Received? && !IsErrorStatus(outcome.status) && outcome.body.Some? ==>
      response == outcome.body.value
    ensures outcome.TransportFailed? ==> response == Empty
    ensures outcome.Received? && (IsErrorStatus(outcome.status) || outcome.body.None?) ==> response == Empty
  {
    match outcome
    case Received(status, Some(body)) => if IsErrorStatus(status) then Empty else body
    case _ => Empty
  }

  /**
   * `catalog_request`: for an invalid box nothing is sent and `{}` comes
   * back; otherwise the search body is posted with the bearer token.
   */
  function CatalogRequest(
    isValidBox: GeometryCheck,
    post: Transport,
    token: string,
    collections: seq<string>,
    datetime: string,
    bbox: seq<real>,
    limit: int := DefaultLimit,
    cloudCover: int := DefaultCloudCover,
    url: string := CatalogUrl
  ): (x: Exchange)
    ensures !Validate(Some(bbox), isValidBox) ==> x.sent == None && x.response == Empty
    ensures Validate(Some(bbox), isValidBox) ==>
      && x.sent.Some?
      && x.sent.value.url == url
      && "Authorization" in x.sent.value.headers && x.sent.value.headers["Authorization"] == "Bearer " + token
      && x.sent.value.body == SearchPayload(collections, datetime, bbox, limit, cloudCover)
      && ReadSearchPayload(x.sent.value.body) == Some(SearchParameters(collections, datetime, bbox, limit, cloudCover))
      && x.response == ResponseJson(post(x.sent.value))
  {
    if !Validate(Some(bbox), isValidBox) then Exchange(None, Empty)
    else
      var request := HttpRequest(url, Headers(token), SearchPayload(collections, datetime, bbox, limit, cloudCover));
      SearchPayloadRoundTrip(collections, datetime, bbox, limit, cloudCover);
      Exchange(Some(request), ResponseJson(post(request)))
  }

  /** The unit test for `catalog_request`: a 200 answer with no features is passed through, after one POST. */
  lemma CatalogRequestExample(isValidBox: GeometryCheck, post: Transport)
    requires isValidBox(12.0, 47.0, 13.0, 48.0) == Checked(true)
    requires forall request :: post(request) == Received(200, Some(Obj(map["features" := Arr([])])))
    ensures var x := CatalogRequest(isValidBox, post, "token", ["collection"],
        "2022-10-01T00:00:00Z/2024-10-01T23:59:59Z", [12.0, 47.0, 13.0, 48.0]);
      x.sent.Some? && x.response == Obj(map["features" := Arr([])])
  {
  }

  /** One flattened catalog feature; a field the feature lacks is null. */
  datatype StatisticsRecord = StatisticsRecord(
    id: Value,
    stacVersion: Value,
    datetime: Value,
    platform: Value,
    constellation: Value,
    gsd: Value,
    cloudCover: Value,
    epsg: Value)

  /**
   * The elements `for feature in features` visits. A list yields its items;
   * an empty string or dict yields nothing; a non-empty string or dict yields
   * strings, on which the first `.get` raises; anything else is not iterable.
   */
  function FeatureItems(features: Value): (r: Result<seq<Value>, Exception>)
    ensures r.Ok? <==> features.Arr? || features == Str("") || features == Obj(map[])
    ensures features.Arr? ==> r == Ok(features.items)
    ensures r.Ok? && !features.Arr? ==> r.value == []
    ensures r == Err(TypeError) <==> !(features.Arr? || features.Str? || features.Obj?)
    ensures r.Err? ==> r.error == TypeError || r.error == AttributeError
  {
    match features
    case Arr(items) => Ok(items)
    case Str(s) => if s == "" then Ok([]) else Err(AttributeError)
    case Obj(d) => if d == map[] then Ok([]) else Err(AttributeError)
    case _ => Err(TypeError)
  }

  /** `feature.get("properties", {})`: the default applies only when the key is absent. */
  function Properties(feature: map<string, Value>): Value
  {
    if "properties" in feature then feature["properties"] else Empty
  }

  /** A feature that can be projected: a dict whose properties, if present, are a dict. */
  predicate WellFormedFeature(feature: Value)
  {
    feature.Obj? && Properties(feature.fields).Obj?
  }

  /** The record of one feature, or the AttributeError a `.get` on a non-dict raises. */
  function ProjectFeature(stacVersion: Value, feature: Value): (r: Result<StatisticsRecord, Exception>)
    ensures r.Ok? <==> WellFormedFeature(feature)
    ensures r.Err? ==> r.error == AttributeError
  {
    match feature
    case Obj(f) =>
      (match Properties(f)
       case Obj(p) =>
         Ok(StatisticsRecord(
           Get(f, "id"), stacVersion, Get(p, "datetime"), Get(p, "platform"),
           Get(p, "constellation"), Get(p, "gsd"), Get(p, "eo:cloud_cover"), Get(p, "proj:epsg")))
       case _ => Err(AttributeError))
    case _ => Err(AttributeError)
  }

  /**
   * The records of all features in order, stopping at the first feature
   * that cannot be projected.
   */
  function ProjectAll(stacVersion: Value, features: seq<Value>): (r: Result<seq<StatisticsRecord>, Exception>)
    ensures r.Ok? <==> forall i :: 0 <= i < |features| ==> WellFormedFeature(features[i])
    ensures r.Ok? ==> |r.value| == |features|
    ensures r.Ok? ==> forall i :: 0 <= i < |features| ==> ProjectFeature(stacVersion, features[i]) == Ok(r.value[i])
    ensures r.Err? ==> r.error == AttributeError
    decreases |features|
  {
    if features == [] then Ok([])
    else
      var last := |features| - 1;
      match ProjectAll(stacVersion, features[..last])
      case Err(e) => Err(e)
      case Ok(records) =>
        match ProjectFeature(stacVersion, features[last])
        case Err(e) => Err(e)
        case Ok(record) => Ok(records + [record])
  }

  /** `extract_statistics` as a function of the response. */
  function Statistics(response: Value): (r: Result<seq<StatisticsRecord>, Exception>)
    ensures !response.Obj? ==> r == Err(AttributeError)
    ensures response.Obj? && "features" !in response.fields ==> r == Ok([])
    ensures r.Err? ==> r.error == TypeError || r.error == AttributeError
  {
    match response
    case Obj(fields) =>
      var features := if "features" in fields then fields["features"] else Arr([]);
      (match FeatureItems(features)
       case Ok(items) => ProjectAll(Get(fields, "stac_version"), items)
       case Err(e) => Err(e))
    case _ => Err(AttributeError)
  }

  /** `extract_statistics`: one record per feature, appended in a loop. */
  method ExtractStatistics(response: Value) returns (statistics: Result<seq<StatisticsRecord>, Exception>)
    ensures statistics == Statistics(response)
  {
    if !response.Obj? {
      return Err(AttributeError);
    }
    var fields := response.fields;
    var features := FeatureItems(if "features" in fields then fields["features"] else Arr([]));
    if features.Err? {
      return Err(features.error);
    }
    var items := features.value;
    var stacVersion := Get(fields, "stac_version");
    var records: seq<StatisticsRecord> := [];
    for i := 0 to |items|
      invariant ProjectAll(stacVersion, items[..i]) == Ok(records)
    {
      var feature := items[i];
      if !feature.Obj? {
        return Err(AttributeError);
      }
      var properties := Properties(feature.fields);
      if !properties.Obj? {
        return Err(AttributeError);
      }
      var stats := StatisticsRecord(
        Get(feature.fields, "id"), stacVersion,
        Get(properties.fields, "datetime"), Get(properties.fields, "platform"),
        Get(properties.fields, "constellation"), Get(properties.fields, "gsd"),
        Get(properties.fields, "eo:cloud_cover"), Get(properties.fields, "proj:epsg"));
      assert items[..i + 1][..i] == items[..i];
      records := records + [stats];
    }
    assert items[..|items|] == items;
    return Ok(records);
  }

  /**
   * For a list of features: one record per feature, in the same order, each
   * with the feature's id and the response's top-level stac_version.
   */
  lemma {:induction false} StatisticsFollowFeatures(response: map<string, Value>, features: seq<Value>)
    requires "features" in response && response["features"] == Arr(features)
    ensures Statistics(Obj(response)).Ok? <==> forall i :: 0 <= i < |features| ==> WellFormedFeature(features[i])
    ensures var r := Statistics(Obj(response));
      r.Ok? ==>
        && |r.value| == |features|
        && forall i :: 0 <= i < |features| ==>
             && r.value[i].id == Get(features[i].fields, "id")
             && r.value[i].stacVersion == Get(response, "stac_version")
    ensures var r := Statistics(Obj(response));
      r.Ok? ==>
        forall i :: 0 <= i < |features| ==>
          && features[i].Obj? && Properties(features[i].fields).Obj?
          && var p := Properties(features[i].fields).fields;
             && r.value[i].datetime == Get(p, "datetime")
             && r.value[i].platform == Get(p, "platform")
             && r.value[i].constellation == Get(p, "constellation")
             && r.value[i].gsd == Get(p, "gsd")
             && r.value[i].cloudCover == Get(p, "eo:cloud_cover")
             && r.value[i].epsg == Get(p, "proj:epsg")
  {
    var r := Statistics(Obj(response));
    if r.Ok? {
      forall i | 0 <= i < |features|
        ensures r.value[i].id == Get(features[i].fields, "id")
        ensures r.value[i].stacVersion == Get(response, "stac_version")
        ensures features[i].Obj? && Properties(features[i].fields).Obj?
        ensures var p := Properties(features[i].fields).fields;
          && r.value[i].datetime == Get(p, "datetime")
          && r.value[i].platform == Get(p, "platform")
          && r.value[i].constellation == Get(p, "constellation")
          && r.value[i].gsd == Get(p, "gsd")
          && r.value[i].cloudCover == Get(p, "eo:cloud_cover")
          && r.value[i].epsg == Get(p, "proj:epsg")
      {
        assert ProjectFeature(Get(response, "stac_version"), features[i]) == Ok(r.value[i]);
      }
    }
  }

  /**
   * Absent data becomes null, never an error: a feature without properties
   * has null for all six property fields, and each property key it lacks
   * is null in its record.
   */
  lemma {:induction false} MissingFieldsAreNull(response: map<string, Value>, features: seq<Value>, i: nat)
    requires "features" in response && response["features"] == Arr(features)
    requires i < |features| && features[i].Obj?
    requires Statistics(Obj(response)).Ok?
    ensures var record := Statistics(Obj(response)).value[i];
      && ("id" !in features[i].fields ==> record.id == Null)
      && ("stac_version" !in response ==> record.stacVersion == Null)
      && ("properties" !in features[i].fields ==>
           && record.datetime == Null && record.platform == Null && record.constellation == Null
           && record.gsd == Null && record.cloudCover == Null && record.epsg == Null)
      && (Properties(features[i].fields).Obj? ==>
           var p := Properties(features[i].fields).fields;
           && ("datetime" !in p ==> record.datetime == Null)
           && ("platform" !in p ==> record.platform == Null)
           && ("constellation" !in p ==> record.constellation == Null)
           && ("gsd" !in p ==> record.gsd == Null)
           && ("eo:cloud_cover" !in p ==> record.cloudCover == Null)
           && ("proj:epsg" !in p ==> record.epsg == Null))
  {
    var record := Statistics(Obj(response)).value[i];
    assert ProjectFeature(Get(response, "stac_version"), features[i]) == Ok(record);
  }

  /** Features that are null, a boolean or a number cannot be iterated. */
  lemma NonIterableFeatures(response: map<string, Value>)
    requires "features" in response
    requires response["features"].Null? || response["features"].Bool? ||
             response["features"].Int? || response["features"].Real?
    ensures Statistics(Obj(response)) == Err(TypeError)
  {
  }

  /** A feature whose "properties" is present but null makes `.get` raise. */
  lemma NullPropertiesRaise(response: map<string, Value>, feature: map<string, Value>)
    requires "features" in response && response["features"] == Arr([Obj(feature)])
    requires "properties" in feature && feature["properties"] == Null
    ensures Statistics(Obj(response)) == Err(AttributeError)
  {
    assert !WellFormedFeature(Obj(feature));
  }

  /**
   * A search that failed in transport, or came back with an error status,
   * gives `{}` and therefore an empty statistics list.
   */
  lemma FailedSearchYieldsNoStatistics(
    isValidBox: GeometryCheck, post: Transport, token: string, collections: seq<string>,
    datetime: string, bbox: seq<real>, limit: int, cloudCover: int, url: string)
    requires var x := CatalogRequest(isValidBox, post, token, collections, datetime, bbox, limit, cloudCover, url);
      x.sent.None? || post(x.sent.value).TransportFailed? ||
      (post(x.sent.value).Received? && IsErrorStatus(post(x.sent.value).status))
    ensures Statistics(CatalogRequest(isValidBox, post, token, collections, datetime, bbox, limit, cloudCover, url).response) == Ok([])
  {
  }

  /** The two-feature response of the unit test for `extract_statistics`. */
  lemma StatisticsExample()
    ensures var response := Obj(map["features" := Arr([
        Obj(map["id" := Str("1"), "properties" := Obj(map["datetime" := Str("2023-01-01"), "eo:cloud_cover" := Int(10)])]),
        Obj(map["id" := Str("2"), "properties" := Obj(map["datetime" := Str("2023-01-02"), "eo:cloud_cover" := Int(20)])])
      ])]);
      var r := Statistics(response);
      && r.Ok? && |r.value| == 2
      && r.value[0].id == Str("1") && r.value[1].id == Str("2")
      && r.value[0].cloudCover == Int(10) && r.value[0].platform == Null && r.value[0].stacVersion == Null
  {
  }
}
