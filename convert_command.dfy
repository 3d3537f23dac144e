/**
 * Decision logic of the `convert` command: inferring the input and output types, the ordered
 * checks that precede the export, and the parsing of the --excel-column-types option.
 * File-system facts and file extensions are inputs; the export itself is not modelled.
 */
module ConvertCommand {
  import opened Base
  import opened Exporter

  /**
   * The type used for one side of a conversion: an explicit option is taken as it is; otherwise
   * the file extension, except that `xml` (plain XML or Excel XML) is refused as ambiguous.
   * `show` applies the same rule to its input.
   */
  function InferType(option: Option<string>, extension: string, ambiguous: Cause): (r: Result<string>)
    ensures option.Some? ==> r == Success(option.value)
    ensures option.None? && extension == "xml" ==> r == Failure(InvalidArgument(ambiguous))
    ensures option.None? && extension != "xml" ==> r == Success(extension)
  {
    match option
    case Some(t) => Success(t)
    case None => if extension == "xml" then Failure(InvalidArgument(ambiguous)) else Success(extension)
  }

  // ----- --excel-column-types -----

  /** PHP `explode(d, s)`: the pieces between occurrences of `d`; no `d` gives `[s]`. */
  function Split(s: string, d: char): (parts: seq<string>)
    ensures |parts| >= 1
    decreases |s|
  {
    if |s| == 0 then [""]
    else
      var rest := Split(s[1..], d);
      if s[0] == d then [""] + rest else [[s[0]] + rest[0]] + rest[1..]
  }

  /** PHP `implode(d, parts)`. */
  function Join(parts: seq<string>, d: char): string
    requires |parts| >= 1
    decreases |parts|
  {
    if |parts| == 1 then parts[0] else parts[0] + [d] + Join(parts[1..], d)
  }

  /** Splitting loses nothing: joining the pieces back gives the original string. */
  lemma {:induction false} SplitJoin(s: string, d: char)
    ensures Join(Split(s, d), d) == s
    decreases |s|
  {
    if |s| > 0 {
      SplitJoin(s[1..], d);
      var rest := Split(s[1..], d);
      if s[0] == d {
        assert Split(s, d) == [""] + rest;
        assert ([""] + rest)[1..] == rest;
        assert Join([""] + rest, d) == "" + [d] + Join(rest, d);
      } else {
        var parts := [[s[0]] + rest[0]] + rest[1..];
        assert Split(s, d) == parts;
        if |rest| == 1 {
          assert Join(parts, d) == [s[0]] + rest[0];
        } else {
          assert parts[1..] == rest[1..];
          assert Join(parts, d) == [s[0]] + rest[0] + [d] + Join(rest[1..], d);
        }
      }
    }
  }

  /** No piece contains the delimiter, and there is one piece more than there are delimiters. */
  lemma {:induction false} SplitPieces(s: string, d: char)
    ensures forall p :: p in Split(s, d) ==> d !in p
    ensures |Split(s, d)| == multiset(s)[d] + 1
    ensures |Split(s, d)| == 1 <==> d !in s
    decreases |s|
  {
    if |s| > 0 {
      SplitPieces(s[1..], d);
      assert s == [s[0]] + s[1..];
      assert multiset(s) == multiset([s[0]]) + multiset(s[1..]);
      var rest := Split(s[1..], d);
      if s[0] != d {
        assert forall p :: p in rest[1..] ==> p in rest;
      }
    }
  }

  /** One comma-separated piece `column:type`; fields after the second are ignored and a
      piece without `:` names its column with no type (PHP `list()` reads null). */
  function ColumnOf(piece: string): string
  {
    Split(piece, ':')[0]
  }

  function TypeOf(piece: string): Option<string>
  {
    var fields := Split(piece, ':');
    if |fields| >= 2 then Some(fields[1]) else None
  }

  /** The column-to-type table built from the pieces in order; a later piece for the same column
      overwrites an earlier one. */
  function ColumnTypeTable(pieces: seq<string>): map<string, Option<string>>
    decreases |pieces|
  {
    if pieces == [] then map[]
    else
      var last := pieces[|pieces| - 1];
      ColumnTypeTable(pieces[..|pieces| - 1])[ColumnOf(last) := TypeOf(last)]
  }

  /** The table's keys are exactly the column parts of the pieces. */
  lemma {:induction false} ColumnTypeTableKeys(pieces: seq<string>)
    ensures ColumnTypeTable(pieces).Keys == set p | p in pieces :: ColumnOf(p)
    decreases |pieces|
  {
    if pieces != [] {
      var init := pieces[..|pieces| - 1];
      ColumnTypeTableKeys(init);
      assert pieces == init + [pieces[|pieces| - 1]];
      assert forall p :: p in pieces <==> p in init || p == pieces[|pieces| - 1];
    }
  }

  /** Each column gets the type of the LAST piece that names it. */
  lemma {:induction false} ColumnTypeTableLastWins(pieces: seq<string>, i: nat)
    requires i < |pieces|
    requires forall j :: i < j < |pieces| ==> ColumnOf(pieces[j]) != ColumnOf(pieces[i])
    ensures ColumnOf(pieces[i]) in ColumnTypeTable(pieces)
    ensures ColumnTypeTable(pieces)[ColumnOf(pieces[i])] == TypeOf(pieces[i])
    decreases |pieces|
  {
    if i < |pieces| - 1 {
      var init := pieces[..|pieces| - 1];
      assert forall j :: i < j < |init| ==> init[j] == pieces[j];
      ColumnTypeTableLastWins(init, i);
    }
  }

  /** What --excel-column-types resolves to: nothing, one type for every column, or a table. */
  datatype ColumnTypes = Unset | Uniform(t: string) | PerColumn(types: map<string, Option<string>>)

  function ColumnTypesValue(c: ColumnTypes): OptValue
  {
    match c
    case Unset => Null
    case Uniform(t) => Text(t)
    case PerColumn(m) => TypeTable(m)
  }

  /** The specification of `parseColumnTypes`. */
  function ParsedColumnTypes(option: Option<string>): ColumnTypes
  {
    match option
    case None => Unset
    case Some(s) => if ':' in s || ',' in s then PerColumn(ColumnTypeTable(Split(s, ','))) else Uniform(s)
  }

  /** `parseColumnTypes`: fills the table with one assignment per comma-separated piece. */
  method ParseColumnTypes(option: Option<string>) returns (r: ColumnTypes)
    ensures r == ParsedColumnTypes(option)
    ensures option.None? <==> r.Unset?
    ensures r.Uniform? ==> option == Some(r.t) && ':' !in r.t && ',' !in r.t
    ensures r.PerColumn? ==> r.types.Keys == set p | p in Split(option.value, ',') :: ColumnOf(p)
  {
    if option.None? {
      return Unset;
    }
    var s := option.value;
    if !(':' in s || ',' in s) {
      return Uniform(s);
    }
    var definitions := Split(s, ',');
    var table: map<string, Option<string>> := map[];
    for i := 0 to |definitions|
      invariant table == ColumnTypeTable(definitions[..i])
    {
      var col := definitions[i];
      assert definitions[..i + 1][..i] == definitions[..i];
      table := table[ColumnOf(col) := TypeOf(col)];
    }
    assert definitions[..|definitions|] == definitions;
    ColumnTypeTableKeys(definitions);
    r := PerColumn(table);
  }

  // ----- execute -----

  /** The command line and file-system facts `execute` consults. */
  datatype Arguments = Arguments(
    input: string, output: string,
    inOption: Option<string>, outOption: Option<string>,
    inputExtension: string, outputExtension: string,      // what getFileExtension returns
    inputIsFile: bool, outputIsFile: bool, outputDirWritable: bool,
    inHeaders: OptValue, inDelimiter: OptValue, inEnclosure: OptValue, inEscape: OptValue,
    outHeaders: OptValue, outDelimiter: OptValue, outEnclosure: OptValue, outEscape: OptValue,
    xmlMain: OptValue, xmlChild: OptValue, excelColumnTypes: Option<string>)

  datatype Plan = Plan(source: Product, writer: Product)

  function SourceOptions(a: Arguments, inType: string): Options
  {
    map["type" := Text(inType), "filename" := Text(a.input),
        "headers" := a.inHeaders, "delimiter" := a.inDelimiter, "enclosure" := a.inEnclosure,
        "escape" := a.inEscape, "main_element" := a.xmlMain, "child_element" := a.xmlChild,
        "direction" := Text("in")]
  }

  function WriterOptions(a: Arguments, outType: string): Options
  {
    map["type" := Text(outType), "filename" := Text(a.output),
        "headers" := a.outHeaders, "delimiter" := a.outDelimiter, "enclosure" := a.outEnclosure,
        "escape" := a.outEscape, "main_element" := a.xmlMain, "child_element" := a.xmlChild,
        "columns_type" := ColumnTypesValue(ParsedColumnTypes(a.excelColumnTypes)),
        "direction" := Text("out")]
  }

  /** `execute` up to the export: type inference, then the file checks in order, then the factory. */
  function Execute(a: Arguments): (r: Result<Plan>)
    // type errors come first, whatever the files are
    ensures a.inOption.None? && a.inputExtension == "xml" ==> r == Failure(InvalidArgument(AmbiguousInputType))
    ensures !(a.inOption.None? && a.inputExtension == "xml") && a.outOption.None? && a.outputExtension == "xml" ==>
              r == Failure(InvalidArgument(AmbiguousOutputType))
    // then the file checks, each a runtime error, in this order
    ensures r == Failure(Runtime(InputFileMissing)) <==> TypesInferred(a) && !a.inputIsFile
    ensures r == Failure(Runtime(OutputFileExists)) <==> TypesInferred(a) && a.inputIsFile && a.outputIsFile
    ensures r == Failure(Runtime(OutputNotWritable)) <==>
              TypesInferred(a) && a.inputIsFile && !a.outputIsFile && !a.outputDirWritable
    // a plan is made only when every check passed, from a source and a writer
    ensures r.Success? ==> ChecksPass(a)
    // then the factory, source first: its refusal is reported as it stands
    ensures ChecksPass(a) && Create(SourceOptions(a, InType(a))).Failure? ==>
              r == Failure(Create(SourceOptions(a, InType(a))).error)
    ensures ChecksPass(a) && Create(SourceOptions(a, InType(a))).Success?
            && Create(WriterOptions(a, OutType(a))).Failure? ==>
              r == Failure(Create(WriterOptions(a, OutType(a))).error)
    ensures r.Success? ==> r.value.source.IsSource() && !r.value.writer.IsSource()
    // the plan holds what the factory builds from the inferred types and the command's options
    ensures r.Success? ==>
              Create(SourceOptions(a, InType(a))) == Success(r.value.source)
              && Create(WriterOptions(a, OutType(a))) == Success(r.value.writer)
  {
    var inType :- InferType(a.inOption, a.inputExtension, AmbiguousInputType);
    var outType :- InferType(a.outOption, a.outputExtension, AmbiguousOutputType);
    if !a.inputIsFile then Failure(Runtime(InputFileMissing))
    else if a.outputIsFile then Failure(Runtime(OutputFileExists))
    else if !a.outputDirWritable then Failure(Runtime(OutputNotWritable))
    else
      var source :- Create(SourceOptions(a, inType));
      var writer :- Create(WriterOptions(a, outType));
      Success(Plan(source, writer))
  }

  /** Neither type is ambiguous. */
  predicate TypesInferred(a: Arguments)
  {
    !(a.inOption.None? && a.inputExtension == "xml") && !(a.outOption.None? && a.outputExtension == "xml")
  }

  /** Every check before the factory calls passed. */
  predicate ChecksPass(a: Arguments)
  {
    TypesInferred(a) && a.inputIsFile && !a.outputIsFile && a.outputDirWritable
  }

  /** The type each side ends up with once inference succeeded. */
  function InType(a: Arguments): string
  {
    if a.inOption.Some? then a.inOption.value else a.inputExtension
  }

  function OutType(a: Arguments): string
  {
    if a.outOption.Some? then a.outOption.value else a.outputExtension
  }

  /** What `execute` hands the factory for the input, key by key. */
  lemma SourceOptionsFields(a: Arguments, inType: string)
    ensures SourceOptions(a, inType).Keys <= Known() && Required <= SourceOptions(a, inType).Keys
    ensures SourceOptions(a, inType)["type"] == Text(inType)
    ensures SourceOptions(a, inType)["direction"] == Text("in")
    ensures SourceOptions(a, inType)["filename"] == Text(a.input)
    ensures SourceOptions(a, inType)["headers"] == a.inHeaders
    ensures SourceOptions(a, inType)["delimiter"] == a.inDelimiter
    ensures SourceOptions(a, inType)["enclosure"] == a.inEnclosure
    ensures SourceOptions(a, inType)["escape"] == a.inEscape
  {
  }

  /** What `execute` hands the factory for the output, key by key. */
  lemma WriterOptionsFields(a: Arguments, outType: string)
    ensures WriterOptions(a, outType).Keys <= Known() && Required <= WriterOptions(a, outType).Keys
    ensures WriterOptions(a, outType)["type"] == Text(outType)
    ensures WriterOptions(a, outType)["direction"] == Text("out")
    ensures WriterOptions(a, outType)["filename"] == Text(a.output)
    ensures WriterOptions(a, outType)["headers"] == a.outHeaders
    ensures WriterOptions(a, outType)["delimiter"] == a.outDelimiter
    ensures WriterOptions(a, outType)["enclosure"] == a.outEnclosure
    ensures WriterOptions(a, outType)["escape"] == a.outEscape
    ensures WriterOptions(a, outType)["main_element"] == a.xmlMain
    ensures WriterOptions(a, outType)["child_element"] == a.xmlChild
    ensures WriterOptions(a, outType)["columns_type"] == ColumnTypesValue(ParsedColumnTypes(a.excelColumnTypes))
  {
  }

  /** The source options are all known to the factory, so only the type can make it fail; each
      type gets its reader with the command's --in-* options. */
  lemma SourceBuilt(a: Arguments, inType: string)
    ensures Create(SourceOptions(a, inType)).Success? <==> inType in {"csv", "xml", "excel"}
    ensures inType == "csv" ==>
              Create(SourceOptions(a, inType))
              == Success(CsvSource(Text(a.input), a.inDelimiter, a.inEnclosure, a.inEscape, a.inHeaders))
    ensures inType == "xml" ==>
              Create(SourceOptions(a, inType)) == Success(XmlSource(Text(a.input)))
    ensures inType == "excel" ==>
              Create(SourceOptions(a, inType)) == Success(XmlExcelSource(Text(a.input), a.inHeaders))
  {
    var given := SourceOptions(a, inType);
    SourceOptionsFields(a, inType);
    var o := Resolve(given).value;
    assert o["type"] == Text(inType) && o["direction"] == Text("in") && o["filename"] == Text(a.input);
    assert o["headers"] == a.inHeaders && o["delimiter"] == a.inDelimiter;
    assert o["enclosure"] == a.inEnclosure && o["escape"] == a.inEscape;
    assert Create(given) == CreateSource(o);
  }

  /** Likewise for the writer options: each type gets its writer with the --out-* and --xml-*
      options, and the Excel writer gets the parsed --excel-column-types. */
  lemma WriterBuilt(a: Arguments, outType: string)
    ensures Create(WriterOptions(a, outType)).Success? <==> outType in {"csv", "xml", "excel", "json", "xls"}
    ensures outType == "csv" ==>
              Create(WriterOptions(a, outType))
              == Success(CsvWriter(Text(a.output), a.outDelimiter, a.outEnclosure, a.outEscape, a.outHeaders))
    ensures outType == "xml" ==>
              Create(WriterOptions(a, outType)) == Success(XmlWriter(Text(a.output), a.xmlMain, a.xmlChild))
    ensures outType == "excel" ==>
              Create(WriterOptions(a, outType))
              == Success(XmlExcelWriter(Text(a.output), a.outHeaders, ColumnTypesValue(ParsedColumnTypes(a.excelColumnTypes))))
    ensures outType == "json" ==>
              Create(WriterOptions(a, outType)) == Success(JsonWriter(Text(a.output)))
    ensures outType == "xls" ==>
              Create(WriterOptions(a, outType)) == Success(XlsWriter(Text(a.output), a.outHeaders))
  {
    var given := WriterOptions(a, outType);
    WriterOptionsFields(a, outType);
    var o := Resolve(given).value;
    assert o["type"] == Text(outType) && o["direction"] == Text("out") && o["filename"] == Text(a.output);
    assert o["headers"] == a.outHeaders && o["delimiter"] == a.outDelimiter;
    assert o["enclosure"] == a.outEnclosure && o["escape"] == a.outEscape;
    assert o["main_element"] == a.xmlMain && o["child_element"] == a.xmlChild;
    assert o["columns_type"] == ColumnTypesValue(ParsedColumnTypes(a.excelColumnTypes));
    assert Create(given) == CreateWriter(o);
  }

  /** A plan is made exactly when every check passes and both types are ones the factory builds. */
  lemma ExecuteSucceeds(a: Arguments)
    ensures Execute(a).Success? <==>
              TypesInferred(a) && a.inputIsFile && !a.outputIsFile && a.outputDirWritable
              && InType(a) in {"csv", "xml", "excel"} && OutType(a) in {"csv", "xml", "excel", "json", "xls"}
  {
    SourceBuilt(a, InType(a));
    WriterBuilt(a, OutType(a));
  }

  /** An explicit --in or --out makes the file's extension irrelevant. */
  lemma ExplicitTypesIgnoreExtensions(a: Arguments, inExt: string, outExt: string)
    requires a.inOption.Some? && a.outOption.Some?
    ensures Execute(a.(inputExtension := inExt, outputExtension := outExt)) == Execute(a)
  {
  }

  /** A missing `foobar.csv.xml` is reported as an ambiguous type, not as a missing file. */
  lemma AmbiguityBeforeFileChecks(a: Arguments)
    requires a.inOption.None? && a.inputExtension == "xml" && !a.inputIsFile
    ensures Execute(a).Failure? && Execute(a).error.InvalidArgument?
  {
  }
}
