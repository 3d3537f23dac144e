/**
 * The exporter factory: resolves an option array against its required keys and defaults, then
 * dispatches on direction and type to the reader or writer it builds. The readers and writers
 * themselves are not modelled; a `Product` records which class is built and what it receives.
 */
module Exporter {
  import opened Base

  /** A value of the option array. */
  datatype OptValue =
    | Text(s: string)
    | Flag(b: bool)
    | Null
    | TypeTable(types: map<string, Option<string>>)   // per-column cell types, parsed by `convert`

  type Options = map<string, OptValue>

  /** The reader or writer the factory constructs, with its constructor arguments in order. */
  datatype Product =
    | CsvSource(filename: OptValue, delimiter: OptValue, enclosure: OptValue, escape: OptValue, headers: OptValue)
    | XmlSource(filename: OptValue)
    | XmlExcelSource(filename: OptValue, headers: OptValue)
    | CsvWriter(filename: OptValue, delimiter: OptValue, enclosure: OptValue, escape: OptValue, headers: OptValue)
    | XmlWriter(filename: OptValue, mainElement: OptValue, childElement: OptValue)
    | XmlExcelWriter(filename: OptValue, headers: OptValue, columnsType: OptValue)
    | JsonWriter(filename: OptValue)
    | XlsWriter(filename: OptValue, headers: OptValue)
  {
    predicate IsSource() { CsvSource? || XmlSource? || XmlExcelSource? }
  }

  const Required: set<string> := {"type", "direction", "filename"}

  function Defaults(): Options
  {
    map[
      "headers" := Flag(true),
      "delimiter" := Text(","),
      "enclosure" := Text("\""),
      "escape" := Text("\\"),
      "main_element" := Text("datas"),
      "child_element" := Text("data"),
      "columns_type" := Null
    ]
  }

  /** The option names the resolver knows: the required ones and those with a default. */
  function Known(): set<string>
  {
    Required + Defaults().Keys
  }

  /** Options after resolution: every required and every defaulted key is present. */
  predicate Resolved(o: Options)
  {
    Required <= o.Keys && Defaults().Keys <= o.Keys
  }

  /** The option resolver: an unknown key is refused first, then the required keys must be given;
      the caller's values win over the defaults. */
  function Resolve(given: Options): (r: Result<Options>)
    ensures r.Failure? <==> !(given.Keys <= Known()) || !(Required <= given.Keys)
    ensures !(given.Keys <= Known()) ==> r == Failure(InvalidArgument(UndefinedOptions(given.Keys - Known())))
    ensures given.Keys <= Known() && !(Required <= given.Keys) ==>
              r == Failure(InvalidArgument(MissingOptions(Required - given.Keys)))
    ensures r.Success? ==> Resolved(r.value) && r.value.Keys == Known()
    ensures r.Success? ==> forall k :: k in given ==> r.value[k] == given[k]
    ensures r.Success? ==> forall k :: k in Defaults() && k !in given ==> r.value[k] == Defaults()[k]
  {
    if !(given.Keys <= Known()) then Failure(InvalidArgument(UndefinedOptions(given.Keys - Known())))
    else if !(Required <= given.Keys) then Failure(InvalidArgument(MissingOptions(Required - given.Keys)))
    else Success(Defaults() + given)
  }

  /** A `switch` case label matched by PHP's loose `==`: a string matches itself, and boolean true
      matches every label used here (all are non-empty and non-numeric). */
  predicate Matches(v: OptValue, caseLabel: string)
  {
    v == Text(caseLabel) || v == Flag(true)
  }

  /** `createSource`: the reader class chosen by `type`, built from the resolved options. */
  function CreateSource(o: Options): (r: Result<Product>)
    requires Resolved(o)
    ensures r.Success? <==> o["type"] in {Text("csv"), Text("xml"), Text("excel"), Flag(true)}
    ensures Matches(o["type"], "csv") ==>
              r == Success(CsvSource(o["filename"], o["delimiter"], o["enclosure"], o["escape"], o["headers"]))
    ensures o["type"] == Text("xml") ==> r == Success(XmlSource(o["filename"]))
    ensures o["type"] == Text("excel") ==> r == Success(XmlExcelSource(o["filename"], o["headers"]))
    ensures r.Success? ==> r.value.IsSource() && r.value.filename == o["filename"]
    ensures r.Failure? ==> r.error == InvalidArgument(UnknownSourceType)
  {
    var t := o["type"];
    if Matches(t, "csv") then
      Success(CsvSource(o["filename"], o["delimiter"], o["enclosure"], o["escape"], o["headers"]))
    else if Matches(t, "xml") then Success(XmlSource(o["filename"]))
    else if Matches(t, "excel") then Success(XmlExcelSource(o["filename"], o["headers"]))
    else Failure(InvalidArgument(UnknownSourceType))
  }

  /** `createWriter`: the writer class chosen by `type`, built from the resolved options. */
  function CreateWriter(o: Options): (r: Result<Product>)
    requires Resolved(o)
    ensures r.Success? <==>
              o["type"] in {Text("csv"), Text("xml"), Text("excel"), Text("json"), Text("xls"), Flag(true)}
    ensures Matches(o["type"], "csv") ==>
              r == Success(CsvWriter(o["filename"], o["delimiter"], o["enclosure"], o["escape"], o["headers"]))
    ensures o["type"] == Text("xml") ==>
              r == Success(XmlWriter(o["filename"], o["main_element"], o["child_element"]))
    ensures o["type"] == Text("excel") ==>
              r == Success(XmlExcelWriter(o["filename"], o["headers"], o["columns_type"]))
    ensures o["type"] == Text("json") ==> r == Success(JsonWriter(o["filename"]))
    ensures o["type"] == Text("xls") ==> r == Success(XlsWriter(o["filename"], o["headers"]))
    ensures r.Success? ==> !r.value.IsSource() && r.value.filename == o["filename"]
    ensures r.Failure? ==> r.error == InvalidArgument(UnknownWriterType)
  {
    var t := o["type"];
    if Matches(t, "csv") then
      Success(CsvWriter(o["filename"], o["delimiter"], o["enclosure"], o["escape"], o["headers"]))
    else if Matches(t, "xml") then Success(XmlWriter(o["filename"], o["main_element"], o["child_element"]))
    else if Matches(t, "excel") then Success(XmlExcelWriter(o["filename"], o["headers"], o["columns_type"]))
    else if Matches(t, "json") then Success(JsonWriter(o["filename"]))
    else if Matches(t, "xls") then Success(XlsWriter(o["filename"], o["headers"]))
    else Failure(InvalidArgument(UnknownWriterType))
  }

  /** `Factory::create`: resolve, then build a source for "in" and a writer for "out". */
  function Create(given: Options): (r: Result<Product>)
    ensures Resolve(given).Failure? ==> r == Failure(Resolve(given).error)
    ensures Resolve(given).Success? && Matches(given["direction"], "in") ==> r == CreateSource(Resolve(given).value)
    ensures Resolve(given).Success? && given["direction"] == Text("out") ==> r == CreateWriter(Resolve(given).value)
    ensures Resolve(given).Success? && given["direction"] !in {Text("in"), Text("out"), Flag(true)} ==>
              r == Failure(InvalidArgument(UnknownDirection))
    ensures r.Success? ==> (r.value.IsSource() <==> Matches(given["direction"], "in"))
    ensures r.Success? ==> r.value.filename == given["filename"]
  {
    var o :- Resolve(given);
    if Matches(o["direction"], "in") then CreateSource(o)
    else if Matches(o["direction"], "out") then CreateWriter(o)
    else Failure(InvalidArgument(UnknownDirection))
  }

  /** PHP's loose `switch` takes boolean true for the first case of each switch: such a type
      builds the CSV reader or writer, and such a direction builds a reader. */
  lemma TrueMatchesFirstCase(given: Options)
    requires Required <= given.Keys <= Known() && given["type"] == Flag(true)
    ensures Matches(given["direction"], "in") ==> Create(given).Success? && Create(given).value.CsvSource?
    ensures given["direction"] == Text("out") ==> Create(given).Success? && Create(given).value.CsvWriter?
  {
  }

  /** JSON and XLS have writers only: asking for them as an input fails with the source error. */
  lemma WriterOnlyTypes(given: Options, t: string)
    requires Required <= given.Keys <= Known() && given["type"] == Text(t) && t in {"json", "xls"}
    ensures given["direction"] == Text("in") ==> Create(given) == Failure(InvalidArgument(UnknownSourceType))
    ensures given["direction"] == Text("out") ==> Create(given).Success?
  {
  }

  /** A CSV source built from the three required keys gets the default CSV settings, in order. */
  lemma CsvSourceDefaults(file: string)
    ensures Create(map["type" := Text("csv"), "filename" := Text(file), "direction" := Text("in")])
         == Success(CsvSource(Text(file), Text(","), Text("\""), Text("\\"), Flag(true)))
  {
    var given := map["type" := Text("csv"), "filename" := Text(file), "direction" := Text("in")];
    assert given.Keys <= Known() && Required <= given.Keys;
    var o := Defaults() + given;
    assert Resolve(given) == Success(o);
    assert o["type"] == Text("csv") && o["direction"] == Text("in") && o["filename"] == Text(file);
    assert o["delimiter"] == Text(",") && o["enclosure"] == Text("\"") && o["escape"] == Text("\\");
    assert o["headers"] == Flag(true);
  }
}
