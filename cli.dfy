/**
 * The request-shaping rules of the two CLI commands (shcli/cli.py):
 * `getimages` (output-file extension, fixed filter values) and `catalog-s`
 * (the ISO-8601 interval and the fixed search values). Credential loading,
 * token fetch, the image download and all printing are outside the model;
 * the access token is a parameter.
 */
module Cli {
  import opened Wrappers
  import opened Json
  import opened Text
  import opened BoundingBox
  import opened QueryBuilder
  import opened Catalog

  /** Output format names (upper case) and the file extensions they call for. */
  const ExtensionMapping: map<string, string> := map["PNG" := ".png", "TIFF" := ".tiff"]

  /** `file_extensions_mapping.get(output_format.upper(), ".png")`. */
  function FileExtension(outputFormat: string): (extension: string)
    ensures extension == ".tiff" <==> Upper(outputFormat) == "TIFF"
    ensures extension == ".png" <==> Upper(outputFormat) != "TIFF"
  {
    var key := Upper(outputFormat);
    if key in ExtensionMapping then ExtensionMapping[key] else ".png"
  }

  /** The extension lookup ignores case; anything but TIFF gets ".png". */
  lemma FileExtensionIgnoresCase(outputFormat: string)
    ensures FileExtension(outputFormat) == ".tiff" <==> MatchesIgnoringCase(outputFormat, "TIFF")
    ensures FileExtension(outputFormat) == ".png" <==> !MatchesIgnoringCase(outputFormat, "TIFF")
  {
    UpperEqualsIff(outputFormat, "TIFF");
  }

  /**
   * The output-file fix-up: the extension is appended unless the name
   * already ends with it (compared case-sensitively). The result always ends
   * with the extension, so a second fix-up leaves it unchanged.
   */
  method AppendExtension(outputFile: string, extension: string) returns (fixed: string)
    ensures EndsWith(fixed, extension)
    ensures EndsWith(outputFile, extension) ==> fixed == outputFile
    ensures !EndsWith(outputFile, extension) ==> fixed == outputFile + extension
  {
    fixed := outputFile;
    if !EndsWith(fixed, extension) {
      AppendEndsWith(fixed, extension);
      fixed := fixed + extension;
    }
  }

  /** The suffix test is case-sensitive: "x.PNG" does not end with ".png", so it becomes "x.PNG.png". */
  lemma ExtensionCheckIsCaseSensitive()
    ensures !EndsWith("x.PNG", ".png")
    ensures "x.PNG" + ".png" == "x.PNG.png"
  {
    assert "x.PNG"[1..] != ".png" by {
      assert "x.PNG"[1..][1] == 'P';
    }
  }

  /** The `datetime` argument of the catalog search: the two dates as a start-of-day/end-of-day interval. */
  function CatalogInterval(startDate: string, endDate: string): (interval: string)
    ensures interval == startDate + StartOfDaySuffix + "/" + endDate + EndOfDaySuffix
  {
    startDate + "T00:00:00Z/" + endDate + "T23:59:59Z"
  }

  /**
   * The catalog interval and the process request agree on the day
   * boundaries: the interval is the request's `timeRange.from`, a slash,
   * and its `timeRange.to`.
   */
  lemma IntervalMatchesTimeRange(
    isValidBox: GeometryCheck, bbox: seq<real>, startDate: string, endDate: string,
    maxCloudCoverage: int, mosaickingOrder: string, satelliteType: string,
    evalType: string, outputFormat: string, width: Option<real>, height: Option<real>)
    requires Validate(Some(bbox), isValidBox)
    ensures var timeRange := Found(CreateRequestData(isValidBox, bbox, startDate, endDate, maxCloudCoverage,
        mosaickingOrder, satelliteType, evalType, outputFormat, width, height))
        .Key("input").Key("data").Index(0).Key("dataFilter").Key("timeRange");
      && timeRange.Key("from").AsStr().Some?
      && timeRange.Key("to").AsStr().Some?
      && CatalogInterval(startDate, endDate)
         == timeRange.Key("from").AsStr().value + "/" + timeRange.Key("to").AsStr().value
  {
    RequestDataInput(isValidBox, bbox, startDate, endDate, maxCloudCoverage,
      mosaickingOrder, satelliteType, evalType, outputFormat, width, height);
  }

  /** The values `getimages` fixes for every request. */
  const ImageMaxCloudCoverage: int := 20
  const ImageMosaickingOrder: string := "leastCC"

  /** The values `catalog-s` fixes for every search. */
  const SearchCollections: seq<string> := ["sentinel-2-l2a"]
  const SearchLimit: int := 10
  const SearchCloudCover: int := 20

  /** What `getimages` hands to the download: the fixed-up file name and the request. */
  datatype ImageJob = ImageJob(outputFile: string, requestData: Value)

  /**
   * `getimages` up to the download: an invalid box raises ValueError before
   * anything is built; otherwise the file name gets its extension and the
   * request is built with a cloud-cover ceiling of 20 and "leastCC" order.
   */
  method GetImages(
    isValidBox: GeometryCheck,
    bbox: seq<real>,
    startDate: string,
    endDate: string,
    satelliteType: string,
    outputType: string := "NDVI",
    outputFormat: string := "PNG",
    outputFile: string := "output_image.png"
  ) returns (job: Result<ImageJob, Exception>)
    ensures job.Err? <==> !Validate(Some(bbox), isValidBox)
    ensures job.Err? ==> job.error == ValueError
    ensures job.Ok? ==>
      && EndsWith(job.value.outputFile, FileExtension(outputFormat))
      && (EndsWith(outputFile, FileExtension(outputFormat)) ==> job.value.outputFile == outputFile)
      && (!EndsWith(outputFile, FileExtension(outputFormat)) ==>
            job.value.outputFile == outputFile + FileExtension(outputFormat))
      && job.value.requestData == CreateRequestData(isValidBox, bbox, startDate, endDate, 20, "leastCC",
           satelliteType, outputType, outputFormat)
      && ReadProcessRequest(job.value.requestData) == Some(ProcessParameters(
           bbox, startDate, endDate, 20, "leastCC", satelliteType,
           GetEvalscript(outputType), OutputMimeType(outputFormat), Some(DefaultWidth), Some(DefaultHeight)))
  {
    if !Validate(Some(bbox), isValidBox) {
      return Err(ValueError);
    }
    var fileExtension := FileExtension(outputFormat);
    var fixedName := AppendExtension(outputFile, fileExtension);
    var requestData := CreateRequestData(
      isValidBox, bbox, startDate, endDate, ImageMaxCloudCoverage, ImageMosaickingOrder,
      satelliteType, outputType, outputFormat);
    ProcessRequestRoundTrip(
      isValidBox, bbox, startDate, endDate, ImageMaxCloudCoverage, ImageMosaickingOrder,
      satelliteType, outputType, outputFormat, Some(DefaultWidth), Some(DefaultHeight));
    return Ok(ImageJob(fixedName, requestData));
  }

  /** What `catalog-s` prints from: the search exchange and its statistics. */
  datatype CatalogReport = CatalogReport(exchange: Exchange, statistics: seq<StatisticsRecord>)

  /**
   * `catalog-s`: an invalid box raises ValueError before any search is
   * built; otherwise the sentinel-2-l2a collection is searched over the
   * interval with limit 10 and cloud cover 20, and the response's features
   * are flattened (an extraction error surfaces as the command's error).
   */
  method CatalogS(
    isValidBox: GeometryCheck,
    post: Transport,
    token: string,
    bbox: seq<real>,
    startDate: string,
    endDate: string
  ) returns (report: Result<CatalogReport, Exception>)
    ensures report == Err(ValueError) <==> !Validate(Some(bbox), isValidBox)
    ensures report.Ok? ==>
      && report.value.exchange.sent.Some?
      && ReadSearchPayload(report.value.exchange.sent.value.body) == Some(SearchParameters(
           ["sentinel-2-l2a"], CatalogInterval(startDate, endDate), bbox, 10, 20))
      && Statistics(report.value.exchange.response) == Ok(report.value.statistics)
    ensures Validate(Some(bbox), isValidBox) ==>
      var exchange := CatalogRequest(isValidBox, post, token, ["sentinel-2-l2a"],
        CatalogInterval(startDate, endDate), bbox, 10, 20);
      && (report.Ok? ==> report.value.exchange == exchange)
      && (report.Err? <==> Statistics(exchange.response).Err?)
      && (report.Err? ==> Statistics(exchange.response) == Err(report.error))
  {
    if !Validate(Some(bbox), isValidBox) {
      return Err(ValueError);
    }
    var datetime := CatalogInterval(startDate, endDate);
    var exchange := CatalogRequest(isValidBox, post, token, SearchCollections, datetime, bbox,
      SearchLimit, SearchCloudCover);
    var statistics := ExtractStatistics(exchange.response);
    match statistics {
      case Ok(records) => report := Ok(CatalogReport(exchange, records));
      case Err(e) => report := Err(e);
    }
  }
}
