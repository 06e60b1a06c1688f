/**
 * The Process API request builder (shcli/process/query_builder.py):
 * evalscript selection, output MIME mapping and the request payload.
 */
module QueryBuilder {
  import opened Wrappers
  import opened Json
  import opened Text
  import opened BoundingBox

  /** The opening lines both evalscripts share, up to the first input band list. */
  const ScriptHeader: string := @"
    //VERSION=3
    function setup() {
      return {
        input: ["

  /** The NDVI colour-ramp evalscript, kept as opaque text. */
  const NdviScript: string := ScriptHeader + "{" + @"
          bands:[""B04"", ""B08""],
        }],
        output: {
          id: ""default"",
          bands: 3,
        }
      }
    }

    function evaluatePixel(sample) {
        let ndvi = (sample.B08 - sample.B04) / (sample.B08 + sample.B04)

        if (ndvi<-0.5) return [0.05,0.05,0.05]
        else if (ndvi<-0.2) return [0.75,0.75,0.75]
        else if (ndvi<-0.1) return [0.86,0.86,0.86]
        else if (ndvi<0) return [0.92,0.92,0.92]
        else if (ndvi<0.025) return [1,0.98,0.8]
        else if (ndvi<0.05) return [0.93,0.91,0.71]
        else if (ndvi<0.075) return [0.87,0.85,0.61]
        else if (ndvi<0.1) return [0.8,0.78,0.51]
        else if (ndvi<0.125) return [0.74,0.72,0.42]
        else if (ndvi<0.15) return [0.69,0.76,0.38]
        else if (ndvi<0.175) return [0.64,0.8,0.35]
        else if (ndvi<0.2) return [0.57,0.75,0.32]
        else if (ndvi<0.25) return [0.5,0.7,0.28]
        else if (ndvi<0.3) return [0.44,0.64,0.25]
        else if (ndvi<0.35) return [0.38,0.59,0.21]
        else if (ndvi<0.4) return [0.31,0.54,0.18]
        else if (ndvi<0.45) return [0.25,0.49,0.14]
        else if (ndvi<0.5) return [0.19,0.43,0.11]
        else if (ndvi<0.55) return [0.13,0.38,0.07]
        else if (ndvi<0.6) return [0.06,0.33,0.04]
        else return [0,0.27,0]
    }
    "

  /** The true-colour evalscript (three bands times a fixed gain), kept as opaque text. */
  const VisualScript: string := ScriptHeader + "\"" + @"B02"", ""B03"", ""B04""],
        output: {
          bands: 3,
          sampleType: ""AUTO"" // default value - scales the output values from [0,1] to [0,255].
        }
      }
    }

    function evaluatePixel(sample) {
      return [2.5 * sample.B04, 2.5 * sample.B03, 2.5 * sample.B02]
    }
    "

  /** The two scripts are different, non-empty texts. */
  lemma EvalscriptsDistinct()
    ensures NdviScript != VisualScript
    ensures |NdviScript| > 0 && |VisualScript| > 0
  {
    assert NdviScript[|ScriptHeader|] == '{';
    assert VisualScript[|ScriptHeader|] == '"';
  }

  /** The NDVI script when `evalType.upper()` is "NDVI", the visual script otherwise. */
  function GetEvalscript(evalType: string := "VISUAL"): (script: string)
    ensures script == NdviScript <==> Upper(evalType) == "NDVI"
    ensures script == VisualScript <==> Upper(evalType) != "NDVI"
  {
    EvalscriptsDistinct();
    if Upper(evalType) == "NDVI" then NdviScript else VisualScript
  }

  /** The selection is case-insensitive: "ndvi", "Ndvi", "nDvI" all pick the NDVI script. */
  lemma EvalscriptIgnoresCase(evalType: string)
    ensures GetEvalscript(evalType) == NdviScript <==> MatchesIgnoringCase(evalType, "NDVI")
    ensures GetEvalscript(evalType) == VisualScript <==> !MatchesIgnoringCase(evalType, "NDVI")
  {
    UpperEqualsIff(evalType, "NDVI");
  }

  /** Output format names (upper case) and their MIME types. */
  const FormatMapping: map<string, string> :=
    map["TIFF" := "image/tiff", "PNG" := "image/png", "JPEG" := "image/jpeg"]

  /** `format_mapping.get(output_format.upper(), "image/png")`. */
  function OutputMimeType(outputFormat: string): (mime: string)
    ensures mime == "image/tiff" <==> Upper(outputFormat) == "TIFF"
    ensures mime == "image/jpeg" <==> Upper(outputFormat) == "JPEG"
    ensures mime == "image/png" <==> Upper(outputFormat) != "TIFF" && Upper(outputFormat) != "JPEG"
  {
    var key := Upper(outputFormat);
    if key in FormatMapping then FormatMapping[key] else "image/png"
  }

  /** The MIME mapping ignores case; any unrecognised name falls back to PNG. */
  lemma OutputMimeTypeIgnoresCase(outputFormat: string)
    ensures OutputMimeType(outputFormat) == "image/tiff" <==> MatchesIgnoringCase(outputFormat, "TIFF")
    ensures OutputMimeType(outputFormat) == "image/jpeg" <==> MatchesIgnoringCase(outputFormat, "JPEG")
    ensures OutputMimeType(outputFormat) == "image/png" <==>
      !MatchesIgnoringCase(outputFormat, "TIFF") && !MatchesIgnoringCase(outputFormat, "JPEG")
  {
    UpperEqualsIff(outputFormat, "TIFF");
    UpperEqualsIff(outputFormat, "JPEG");
  }

  /** Day boundaries appended to a YYYY-MM-DD date. */
  const StartOfDaySuffix: string := "T00:00:00Z"
  const EndOfDaySuffix: string := "T23:59:59Z"

  /** The default output raster size. */
  const DefaultWidth: real := 682.987
  const DefaultHeight: real := 514.207

  /** `None` becomes JSON null. */
  function OptionalReal(x: Option<real>): Value
  {
    match x
    case Some(r) => Real(r)
    case None => Null
  }


  /**
   * `create_request_data`: `{}` for an invalid box, otherwise the nested
   * payload with one data source and one "default" response.
   */
  function CreateRequestData(
    isValidBox: GeometryCheck,
    bbox: seq<real>,
    startDate: string,
    endDate: string,
    maxCloudCoverage: int,
    mosaickingOrder: string,
    satelliteType: string,
    evalType: string := "NDVI",
    outputFormat: string := "PNG",
    width: Option<real> := Some(DefaultWidth),
    height: Option<real> := Some(DefaultHeight)
  ): (data: Value)
    ensures !Validate(Some(bbox), isValidBox) ==> data == Empty
    ensures Validate(Some(bbox), isValidBox) ==>
      data.Obj? && data.fields.Keys == {"input", "output", "evalscript"}
  {
    if !Validate(Some(bbox), isValidBox) then Empty
    else
      var startDateIso := startDate + StartOfDaySuffix;
      var endDateIso := endDate + EndOfDaySuffix;
      var evalscript := GetEvalscript(evalType);
      var outputMimeType := OutputMimeType(outputFormat);
      Obj(map[
        "input" := Obj(map[
          "bounds" := Obj(map["bbox" := Reals(bbox)]),
          "data" := Arr([
            Obj(map[
              "dataFilter" := Obj(map[
                "timeRange" := Obj(map["from" := Str(startDateIso), "to" := Str(endDateIso)]),
                "maxCloudCoverage" := Int(maxCloudCoverage),
                "mosaickingOrder" := Str(mosaickingOrder)
              ]),
              "type" := Str(satelliteType)
            ])
          ])
        ]),
        "output" := Obj(map[
          "width" := OptionalReal(width),
          "height" := OptionalReal(height),
          "responses" := Arr([
            Obj(map[
              "identifier" := Str("default"),
              "format" := Obj(map["type" := Str(outputMimeType)])
            ])
          ])
        ]),
        "evalscript" := Str(evalscript)
      ])
  }

  /**
   * The data source of a request built for a valid box: the box, the
   * day-boundary timestamps and the filter values, in a single entry.
   */
  lemma RequestDataInput(
    isValidBox: GeometryCheck, bbox: seq<real>, startDate: string, endDate: string,
    maxCloudCoverage: int, mosaickingOrder: string, satelliteType: string,
    evalType: string, outputFormat: string, width: Option<real>, height: Option<real>)
    requires Validate(Some(bbox), isValidBox)
    ensures var data := CreateRequestData(isValidBox, bbox, startDate, endDate, maxCloudCoverage,
        mosaickingOrder, satelliteType, evalType, outputFormat, width, height);
      && Found(data).Key("input").Key("bounds").Key("bbox") == Found(Reals(bbox))
      && Found(data).Key("input").Key("data").Length() == Some(1)
      && Found(data).Key("input").Key("data").Index(0).Key("dataFilter").Key("timeRange").Key("from") == Found(Str(startDate + "T00:00:00Z"))
      && Found(data).Key("input").Key("data").Index(0).Key("dataFilter").Key("timeRange").Key("to") == Found(Str(endDate + "T23:59:59Z"))
      && Found(data).Key("input").Key("data").Index(0).Key("dataFilter").Key("maxCloudCoverage") == Found(Int(maxCloudCoverage))
      && Found(data).Key("input").Key("data").Index(0).Key("dataFilter").Key("mosaickingOrder") == Found(Str(mosaickingOrder))
      && Found(data).Key("input").Key("data").Index(0).Key("type") == Found(Str(satelliteType))
  {
  }

  /**
   * The output of a request built for a valid box: the raster size, one
   * "default" response with the chosen MIME type, and the chosen evalscript.
   */
  lemma RequestDataOutput(
    isValidBox: GeometryCheck, bbox: seq<real>, startDate: string, endDate: string,
    maxCloudCoverage: int, mosaickingOrder: string, satelliteType: string,
    evalType: string, outputFormat: string, width: Option<real>, height: Option<real>)
    requires Validate(Some(bbox), isValidBox)
    ensures var data := CreateRequestData(isValidBox, bbox, startDate, endDate, maxCloudCoverage,
        mosaickingOrder, satelliteType, evalType, outputFormat, width, height);
      && Found(data).Key("output").Key("width") == Found(OptionalReal(width))
      && Found(data).Key("output").Key("height") == Found(OptionalReal(height))
      && Found(data).Key("output").Key("responses").Length() == Some(1)
      && Found(data).Key("output").Key("responses").Index(0).Key("identifier") == Found(Str("default"))
      && Found(data).Key("output").Key("responses").Index(0).Key("format").Key("type") == Found(Str(OutputMimeType(outputFormat)))
      && Found(data).Key("evalscript") == Found(Str(GetEvalscript(evalType)))
  {
  }

  /**
   * Every dict of the data source holds exactly the keys of the literal:
   * nothing is added beside the fields `RequestDataInput` pins.
   */
  lemma RequestDataInputShape(
    isValidBox: GeometryCheck, bbox: seq<real>, startDate: string, endDate: string,
    maxCloudCoverage: int, mosaickingOrder: string, satelliteType: string,
    evalType: string, outputFormat: string, width: Option<real>, height: Option<real>)
    requires Validate(Some(bbox), isValidBox)
    ensures var data := Found(CreateRequestData(isValidBox, bbox, startDate, endDate, maxCloudCoverage,
        mosaickingOrder, satelliteType, evalType, outputFormat, width, height));
      && data.Key("input").Keys() == Some({"bounds", "data"})
      && data.Key("input").Key("bounds").Keys() == Some({"bbox"})
      && data.Key("input").Key("data").Index(0).Keys() == Some({"dataFilter", "type"})
      && data.Key("input").Key("data").Index(0).Key("dataFilter").Keys()
         == Some({"timeRange", "maxCloudCoverage", "mosaickingOrder"})
      && data.Key("input").Key("data").Index(0).Key("dataFilter").Key("timeRange").Keys() == Some({"from", "to"})
  {
    var data := Found(CreateRequestData(isValidBox, bbox, startDate, endDate, maxCloudCoverage,
        mosaickingOrder, satelliteType, evalType, outputFormat, width, height));
    var timeRange := Obj(map["from" := Str(startDate + StartOfDaySuffix), "to" := Str(endDate + EndOfDaySuffix)]);
    var dataFilter := Obj(map[
      "timeRange" := timeRange,
      "maxCloudCoverage" := Int(maxCloudCoverage),
      "mosaickingOrder" := Str(mosaickingOrder)
    ]);
    var source := Obj(map["dataFilter" := dataFilter, "type" := Str(satelliteType)]);
    var bounds := Obj(map["bbox" := Reals(bbox)]);
    var input := map["bounds" := bounds, "data" := Arr([source])];
    assert data.Key("input") == Found(Obj(input));
    assert input.Keys == {"bounds", "data"};
    assert bounds.fields.Keys == {"bbox"};
    assert source.fields.Keys == {"dataFilter", "type"};
    assert dataFilter.fields.Keys == {"timeRange", "maxCloudCoverage", "mosaickingOrder"};
    assert timeRange.fields.Keys == {"from", "to"};
  }

  /**
   * Every dict of the output section holds exactly the keys of the literal:
   * nothing is added beside the fields `RequestDataOutput` pins.
   */
  lemma RequestDataOutputShape(
    isValidBox: GeometryCheck, bbox: seq<real>, startDate: string, endDate: string,
    maxCloudCoverage: int, mosaickingOrder: string, satelliteType: string,
    evalType: string, outputFormat: string, width: Option<real>, height: Option<real>)
    requires Validate(Some(bbox), isValidBox)
    ensures var data := Found(CreateRequestData(isValidBox, bbox, startDate, endDate, maxCloudCoverage,
        mosaickingOrder, satelliteType, evalType, outputFormat, width, height));
      && data.Key("output").Keys() == Some({"width", "height", "responses"})
      && data.Key("output").Key("responses").Index(0).Keys() == Some({"identifier", "format"})
      && data.Key("output").Key("responses").Index(0).Key("format").Keys() == Some({"type"})
  {
    var data := Found(CreateRequestData(isValidBox, bbox, startDate, endDate, maxCloudCoverage,
        mosaickingOrder, satelliteType, evalType, outputFormat, width, height));
    var format := Obj(map["type" := Str(OutputMimeType(outputFormat))]);
    var response := Obj(map["identifier" := Str("default"), "format" := format]);
    var output := map[
      "width" := OptionalReal(width),
      "height" := OptionalReal(height),
      "responses" := Arr([response])
    ];
    assert data.Key("output") == Found(Obj(output));
    assert format.fields.Keys == {"type"};
    assert response.fields.Keys == {"identifier", "format"};
    assert output.Keys == {"width", "height", "responses"};
    assert data.Key("output").Keys() == Some({"width", "height", "responses"});
    assert data.Key("output").Key("responses").Index(0) == Found(response);
    assert data.Key("output").Key("responses").Index(0).Key("format") == Found(format);
  }

  /** The unit test for `create_request_data`: the cloud-cover ceiling of 20 lands in the data filter. */
  lemma RequestDataExample(isValidBox: GeometryCheck)
    requires isValidBox(12.0, 47.0, 13.0, 48.0) == Checked(true)
    ensures var data := CreateRequestData(isValidBox, [12.0, 47.0, 13.0, 48.0], "2022-01-01", "2022-12-31",
        20, "leastCC", "sentinel-2-l2a", "NDVI");
      && data.Obj? && "input" in data.fields && "output" in data.fields
      && Found(data).Key("input").Key("data").Index(0).Key("dataFilter").Key("maxCloudCoverage") == Found(Int(20))
  {
    RequestDataInput(isValidBox, [12.0, 47.0, 13.0, 48.0], "2022-01-01", "2022-12-31",
      20, "leastCC", "sentinel-2-l2a", "NDVI", "PNG", Some(DefaultWidth), Some(DefaultHeight));
  }

  /** The parameters a process request carries, as read back from its JSON. */
  datatype ProcessParameters = ProcessParameters(
    bbox: seq<real>,
    startDate: string,
    endDate: string,
    maxCloudCoverage: int,
    mosaickingOrder: string,
    satelliteType: string,
    evalscript: string,
    mimeType: string,
    width: Option<real>,
    height: Option<real>)

  /** A width or height: a float, or null for None. */
  function ReadOptionalReal(l: Lookup): Option<Option<real>>
  {
    match l
    case Found(Null) => Some(None)
    case Found(Real(r)) => Some(Some(r))
    case _ => None
  }

  /** What `input` says: the box, the two dates and the data filter. */
  datatype InputSection = InputSection(
    bbox: seq<real>, startDate: string, endDate: string,
    maxCloudCoverage: int, mosaickingOrder: string, satelliteType: string)

  /** What `output` and `evalscript` say: the size, the MIME type and the script. */
  datatype OutputSection = OutputSection(
    evalscript: string, mimeType: string, width: Option<real>, height: Option<real>)

  /** Reads `input` back, stripping the day-boundary suffixes off the timestamps. */
  function ReadInputSection(data: Value): Option<InputSection>
  {
    var source := Found(data).Key("input").Key("data").Index(0);
    var filter := source.Key("dataFilter");
    var bbox := Found(data).Key("input").Key("bounds").Key("bbox");
    var bboxValues := if bbox.Found? then ReadReals(bbox.value) else None;
    var from := filter.Key("timeRange").Key("from").AsStr();
    var to := filter.Key("timeRange").Key("to").AsStr();
    var startDate := if from.Some? then DropSuffix(from.value, StartOfDaySuffix) else None;
    var endDate := if to.Some? then DropSuffix(to.value, EndOfDaySuffix) else None;
    var maxCloudCoverage := filter.Key("maxCloudCoverage").AsInt();
    var mosaickingOrder := filter.Key("mosaickingOrder").AsStr();
    var satelliteType := source.Key("type").AsStr();
    if && bboxValues.Some? && startDate.Some? && endDate.Some? && maxCloudCoverage.Some?
       && mosaickingOrder.Some? && satelliteType.Some?
    then
      Some(InputSection(bboxValues.value, startDate.value, endDate.value, maxCloudCoverage.value,
        mosaickingOrder.value, satelliteType.value))
    else None
  }

  /** Reads `output` and `evalscript` back. */
  function ReadOutputSection(data: Value): Option<OutputSection>
  {
    var evalscript := Found(data).Key("evalscript").AsStr();
    var mimeType := Found(data).Key("output").Key("responses").Index(0).Key("format").Key("type").AsStr();
    var width := ReadOptionalReal(Found(data).Key("output").Key("width"));
    var height := ReadOptionalReal(Found(data).Key("output").Key("height"));
    if evalscript.Some? && mimeType.Some? && width.Some? && height.Some?
    then Some(OutputSection(evalscript.value, mimeType.value, width.value, height.value))
    else None
  }

  /**
   * Reads a process request back into its parameters; None when the JSON
   * does not have the shape CreateRequestData builds.
   */
  function ReadProcessRequest(data: Value): Option<ProcessParameters>
  {
    match (ReadInputSection(data), ReadOutputSection(data))
    case (Some(i), Some(o)) =>
      Some(ProcessParameters(i.bbox, i.startDate, i.endDate, i.maxCloudCoverage, i.mosaickingOrder,
        i.satelliteType, o.evalscript, o.mimeType, o.width, o.height))
    case _ => None
  }

  lemma {:induction false} InputSectionRoundTrip(
    isValidBox: GeometryCheck, bbox: seq<real>, startDate: string, endDate: string,
    maxCloudCoverage: int, mosaickingOrder: string, satelliteType: string,
    evalType: string, outputFormat: string, width: Option<real>, height: Option<real>)
    requires Validate(Some(bbox), isValidBox)
    ensures ReadInputSection(CreateRequestData(isValidBox, bbox, startDate, endDate, maxCloudCoverage,
        mosaickingOrder, satelliteType, evalType, outputFormat, width, height))
      == Some(InputSection(bbox, startDate, endDate, maxCloudCoverage, mosaickingOrder, satelliteType))
  {
    RequestDataInput(isValidBox, bbox, startDate, endDate, maxCloudCoverage,
      mosaickingOrder, satelliteType, evalType, outputFormat, width, height);
    RealsRoundTrip(bbox);
    DropSuffixOfAppend(startDate, StartOfDaySuffix);
    DropSuffixOfAppend(endDate, EndOfDaySuffix);
  }

  lemma {:induction false} OutputSectionRoundTrip(
    isValidBox: GeometryCheck, bbox: seq<real>, startDate: string, endDate: string,
    maxCloudCoverage: int, mosaickingOrder: string, satelliteType: string,
    evalType: string, outputFormat: string, width: Option<real>, height: Option<real>)
    requires Validate(Some(bbox), isValidBox)
    ensures ReadOutputSection(CreateRequestData(isValidBox, bbox, startDate, endDate, maxCloudCoverage,
        mosaickingOrder, satelliteType, evalType, outputFormat, width, height))
      == Some(OutputSection(GetEvalscript(evalType), OutputMimeType(outputFormat), width, height))
  {
    RequestDataOutput(isValidBox, bbox, startDate, endDate, maxCloudCoverage,
      mosaickingOrder, satelliteType, evalType, outputFormat, width, height);
  }

  /**
   * Nothing is lost in building a request for a valid box: reading it back
   * gives the box, the two dates, the filter values and the size that went
   * in, with the evalscript and MIME type the selectors chose.
   */
  lemma {:induction false} ProcessRequestRoundTrip(
    isValidBox: GeometryCheck, bbox: seq<real>, startDate: string, endDate: string,
    maxCloudCoverage: int, mosaickingOrder: string, satelliteType: string,
    evalType: string, outputFormat: string, width: Option<real>, height: Option<real>)
    requires Validate(Some(bbox), isValidBox)
    ensures ReadProcessRequest(CreateRequestData(isValidBox, bbox, startDate, endDate, maxCloudCoverage,
        mosaickingOrder, satelliteType, evalType, outputFormat, width, height))
      == Some(ProcessParameters(bbox, startDate, endDate, maxCloudCoverage, mosaickingOrder,
        satelliteType, GetEvalscript(evalType), OutputMimeType(outputFormat), width, height))
  {
    InputSectionRoundTrip(isValidBox, bbox, startDate, endDate, maxCloudCoverage,
      mosaickingOrder, satelliteType, evalType, outputFormat, width, height);
    OutputSectionRoundTrip(isValidBox, bbox, startDate, endDate, maxCloudCoverage,
      mosaickingOrder, satelliteType, evalType, outputFormat, width, height);
  }

  /** The empty mapping returned for an invalid box carries no request. */
  lemma EmptyRequestCarriesNothing()
    ensures ReadProcessRequest(Empty) == None
  {
  }
}
