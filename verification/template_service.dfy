/** TemplateService: renders templates with a context map, caching each
    template after its first load, and loads CSV files as row maps. The
    classpath is a value holding the resources by path; the Velocity engine's
    merge of a template with a context is a function parameter. */
module TemplateService {
  import opened Wrappers
  import opened Strings
  import Csv

  /** A template as the engine loaded it. */
  datatype Template = Template(source: string)

  /** An Object in a context map. */
  datatype Value =
    | Str(text: string)
    | Number(n: int)
    | Boolean(b: bool)
    | Null
    | List(items: seq<Value>)
    | Object(members: map<string, Value>)

  type Context = map<string, Value>

  /** The exceptions the service throws: TemplateException with its cause,
      and IllegalArgumentException for malformed argument lists. */
  datatype TemplateError =
    | TemplatePathEmpty
    | TemplateNotFound(path: string)
    | MergeFailed
    | RenderFailed(path: string, cause: TemplateError)
    | DataPathEmpty
    | DataFileNotFound(dataPath: string)
    | DataParseFailed(dataPath: string)
    | RenderWithDataFailed(templatePath: Option<string>, cause: TemplateError)
    | OddArgumentCount             // IllegalArgumentException
    | NonStringKey                 // IllegalArgumentException
    | CsvPathEmpty
    | CsvNotFound(csvPath: string)
    | CsvEmpty(csvPath: string)
    | RowIndexOutOfBounds(rowIndex: int, rowCount: int)

  /** The resources on the classpath: templates, JSON data files (None:
      not a JSON object) and CSV files, given as their lines. */
  datatype Classpath = Classpath(templates: map<string, Template>, dataFiles: map<string, Option<Context>>,
                                 csvFiles: map<string, seq<string>>)

  /** The engine's template.merge: the output, or None when it throws. */
  type Merge = (Template, Context) -> Option<string>

  /** path == null || path.trim().isEmpty() */
  predicate BlankPath(path: Option<string>)
  {
    path.None? || Trim(path.value) == ""
  }

  // ------------------------------------------------------------------
  // The template cache

  datatype Lookup = Lookup(template: Result<Template, TemplateError>, cache: map<string, Template>)

  /** templateCache.computeIfAbsent(path, load): a cached template is reused;
      otherwise it is loaded and cached, and a load that throws caches
      nothing. */
  function ComputeIfAbsent(cache: map<string, Template>, path: string, classpath: Classpath): Lookup
  {
    if path in cache then Lookup(Success(cache[path]), cache)
    else if path in classpath.templates then
      Lookup(Success(classpath.templates[path]), cache[path := classpath.templates[path]])
    else Lookup(Failure(TemplateNotFound(path)), cache)
  }

  /** A template loaded once is served from the cache from then on, even if
      the classpath changes: the path is loaded at most once. */
  lemma LoadedAtMostOnce(cache: map<string, Template>, path: string, cp1: Classpath, cp2: Classpath)
    requires ComputeIfAbsent(cache, path, cp1).template.Success?
    ensures var first := ComputeIfAbsent(cache, path, cp1);
      ComputeIfAbsent(first.cache, path, cp2) == first
  {
  }

  /** The cache only ever gains the requested path, and only on success. */
  lemma ComputeIfAbsentFrame(cache: map<string, Template>, path: string, classpath: Classpath)
    ensures var lookup := ComputeIfAbsent(cache, path, classpath);
      && (lookup.template.Failure? ==> lookup.cache == cache)
      && (lookup.template.Success? ==> lookup.cache == cache[path := lookup.template.value])
      && lookup.cache.Keys <= cache.Keys + {path}
  {
  }

  // ------------------------------------------------------------------
  // Contexts

  /** createVelocityContext: a copy of the map; a null map gives an empty context. */
  function VelocityContext(context: Option<Context>): Context
  {
    if context.None? then map[] else context.value
  }

  /** Every key position (even index) holds a String. */
  predicate KeysAreStrings(args: seq<Value>)
  {
    forall j :: 0 <= j < |args| && j % 2 == 0 ==> args[j].Str?
  }

  /** The map built pairwise, a later key overwriting an earlier one. */
  function Pairs(args: seq<Value>): Context
    requires |args| % 2 == 0 && KeysAreStrings(args)
    decreases |args|
  {
    if |args| == 0 then map[]
    else
      var init := args[..|args| - 2];
      assert forall j :: 0 <= j < |init| ==> init[j] == args[j];
      Pairs(init)[args[|args| - 2].text := args[|args| - 1]]
  }

  /** The context the varargs render methods build from their arguments. */
  function ContextOf(args: seq<Value>): Result<Context, TemplateError>
  {
    if |args| % 2 != 0 then Failure(OddArgumentCount)
    else if !KeysAreStrings(args) then Failure(NonStringKey)
    else Success(Pairs(args))
  }

  /** The key/value loop of the varargs render methods. */
  method BuildContext(args: seq<Value>) returns (context: Result<Context, TemplateError>)
    ensures context == ContextOf(args)
  {
    if |args| % 2 != 0 {
      return Failure(OddArgumentCount);
    }
    var contextMap: Context := map[];
    var i := 0;
    while i < |args|
      invariant 0 <= i <= |args| && i % 2 == 0
      invariant KeysAreStrings(args[..i])
      invariant contextMap == Pairs(args[..i])
      decreases |args| - i
    {
      if !args[i].Str? {
        return Failure(NonStringKey);
      }
      assert args[..i + 2][..i] == args[..i];
      contextMap := contextMap[args[i].text := args[i + 1]];
      i := i + 2;
    }
    assert args[..i] == args;
    return Success(contextMap);
  }

  /** The arguments are accepted exactly when they come in pairs whose keys
      are Strings. */
  lemma ContextOfAccepts(args: seq<Value>)
    ensures ContextOf(args).Success? <==> |args| % 2 == 0 && forall j :: 0 <= j < |args| && j % 2 == 0 ==> args[j].Str?
    ensures |args| % 2 != 0 ==> ContextOf(args) == Failure(OddArgumentCount)
  {
  }

  /** The keys of the built map are the keys given. */
  lemma {:induction false} PairsKeys(args: seq<Value>)
    requires |args| % 2 == 0 && KeysAreStrings(args)
    ensures Pairs(args).Keys == set j | 0 <= j < |args| && j % 2 == 0 :: args[j].text
    decreases |args|
  {
    if |args| > 0 {
      var init := args[..|args| - 2];
      assert forall j :: 0 <= j < |init| ==> init[j] == args[j];
      PairsKeys(init);
      var n := |args|;
      assert (set j | 0 <= j < n && j % 2 == 0 :: args[j].text)
          == (set j | 0 <= j < n - 2 && j % 2 == 0 :: args[j].text) + {args[n - 2].text};
    }
  }

  /** A key maps to the value after its last occurrence. */
  lemma {:induction false} PairsLaterWins(args: seq<Value>, j: nat)
    requires |args| % 2 == 0 && KeysAreStrings(args)
    requires j < |args| && j % 2 == 0
    requires forall i :: j < i < |args| && i % 2 == 0 ==> args[i] != args[j]
    ensures args[j].text in Pairs(args) && Pairs(args)[args[j].text] == args[j + 1]
    decreases |args|
  {
    var n := |args|;
    var init := args[..n - 2];
    assert forall i :: 0 <= i < |init| ==> init[i] == args[i];
    if j < n - 2 {
      PairsLaterWins(init, j);
      assert args[n - 2] != args[j];
    }
  }

  /** The data-file context overridden by the additional context; a null
      additional context adds nothing. */
  function MergeContext(data: Context, additional: Option<Context>): (merged: Context)
    ensures merged.Keys == data.Keys + (if additional.Some? then additional.value.Keys else {})
    ensures forall k :: k in merged ==>
      merged[k] == if additional.Some? && k in additional.value then additional.value[k] else data[k]
  {
    if additional.None? then data else data + additional.value
  }

  // ------------------------------------------------------------------
  // Rendering, as functions of the cache

  datatype Rendering = Rendering(result: Result<string, TemplateError>, cache: map<string, Template>)

  /** render(String templatePath, Map context). */
  function RenderSpec(cache: map<string, Template>, templatePath: Option<string>, context: Option<Context>,
                      classpath: Classpath, merge: Merge): Rendering
  {
    if BlankPath(templatePath) then Rendering(Failure(TemplatePathEmpty), cache)
    else
      var path := templatePath.value;
      var lookup := ComputeIfAbsent(cache, path, classpath);
      match lookup.template
      case Failure(e) => Rendering(Failure(RenderFailed(path, e)), lookup.cache)
      case Success(template) =>
        match merge(template, VelocityContext(context))
        case None => Rendering(Failure(RenderFailed(path, MergeFailed)), lookup.cache)
        case Some(output) => Rendering(Success(output), lookup.cache)
  }

  /** render(String templatePath, Object... context). */
  function RenderArgsSpec(cache: map<string, Template>, templatePath: Option<string>, args: seq<Value>,
                          classpath: Classpath, merge: Merge): Rendering
  {
    match ContextOf(args)
    case Failure(e) => Rendering(Failure(e), cache)
    case Success(context) => RenderSpec(cache, templatePath, Some(context), classpath, merge)
  }

  /** render(String templatePath, String dataFilePath, Map additionalContext). */
  function RenderWithDataSpec(cache: map<string, Template>, templatePath: Option<string>, dataFilePath: Option<string>,
                              additional: Option<Context>, classpath: Classpath, merge: Merge): Rendering
  {
    if BlankPath(dataFilePath) then Rendering(Failure(DataPathEmpty), cache)
    else
      var dataPath := dataFilePath.value;
      if dataPath !in classpath.dataFiles then
        Rendering(Failure(RenderWithDataFailed(templatePath, DataFileNotFound(dataPath))), cache)
      else match classpath.dataFiles[dataPath]
        case None => Rendering(Failure(DataParseFailed(dataPath)), cache)
        case Some(data) =>
          var inner := RenderSpec(cache, templatePath, Some(MergeContext(data, additional)), classpath, merge);
          match inner.result
          case Failure(e) => Rendering(Failure(RenderWithDataFailed(templatePath, e)), inner.cache)
          case Success(_) => inner
  }

  /** render(String templatePath, String dataFilePath, Object... additionalContext). */
  function RenderWithDataArgsSpec(cache: map<string, Template>, templatePath: Option<string>,
                                  dataFilePath: Option<string>, args: seq<Value>,
                                  classpath: Classpath, merge: Merge): Rendering
  {
    match ContextOf(args)
    case Failure(e) => Rendering(Failure(e), cache)
    case Success(context) => RenderWithDataSpec(cache, templatePath, dataFilePath, Some(context), classpath, merge)
  }

  // ------------------------------------------------------------------
  // CSV loading, as functions of the classpath

  /** The checks loadCsvAsList makes, then parseCsv. */
  function LoadCsvRows(csvFilePath: Option<string>, classpath: Classpath): Result<seq<map<string, string>>, TemplateError>
  {
    if BlankPath(csvFilePath) then Failure(CsvPathEmpty)
    else if csvFilePath.value !in classpath.csvFiles then Failure(CsvNotFound(csvFilePath.value))
    else Success(Csv.ParseCsvSpec(classpath.csvFiles[csvFilePath.value]))
  }

  /** loadCsvAsMap(String csvFilePath, int rowIndex). */
  function LoadCsvAsMapSpec(csvFilePath: Option<string>, rowIndex: int, classpath: Classpath)
    : Result<map<string, string>, TemplateError>
  {
    match LoadCsvRows(csvFilePath, classpath)
    case Failure(e) => Failure(e)
    case Success(rows) =>
      if |rows| == 0 then Failure(CsvEmpty(csvFilePath.value))
      else if rowIndex < 0 || rowIndex >= |rows| then Failure(RowIndexOutOfBounds(rowIndex, |rows|))
      else Success(rows[rowIndex])
  }

  // ------------------------------------------------------------------
  // The service

  class TemplateService {
    var templateCache: map<string, Template>

    constructor ()
      ensures templateCache == map[]
    {
      templateCache := map[];
    }

    /** getTemplate(path). */
    method GetTemplate(path: string, classpath: Classpath) returns (template: Result<Template, TemplateError>)
      modifies this
      ensures Lookup(template, templateCache) == ComputeIfAbsent(old(templateCache), path, classpath)
    {
      if path in templateCache {
        return Success(templateCache[path]);
      }
      if path !in classpath.templates {
        return Failure(TemplateNotFound(path));
      }
      var loaded := classpath.templates[path];
      templateCache := templateCache[path := loaded];
      template := Success(loaded);
    }

    /** render(String templatePath, Map context). */
    method Render(templatePath: Option<string>, context: Option<Context>, classpath: Classpath, merge: Merge)
      returns (result: Result<string, TemplateError>)
      modifies this
      ensures Rendering(result, templateCache) == RenderSpec(old(templateCache), templatePath, context, classpath, merge)
    {
      if templatePath.None? || Trim(templatePath.value) == "" {
        return Failure(TemplatePathEmpty);
      }
      var template := GetTemplate(templatePath.value, classpath);
      if template.Failure? {
        return Failure(RenderFailed(templatePath.value, template.error));
      }
      var velocityContext := VelocityContext(context);
      var output := merge(template.value, velocityContext);
      if output.None? {
        return Failure(RenderFailed(templatePath.value, MergeFailed));
      }
      result := Success(output.value);
    }

    /** render(String templatePath, Object... context). */
    method RenderArgs(templatePath: Option<string>, args: seq<Value>, classpath: Classpath, merge: Merge)
      returns (result: Result<string, TemplateError>)
      modifies this
      ensures Rendering(result, templateCache) == RenderArgsSpec(old(templateCache), templatePath, args, classpath, merge)
    {
      var context := BuildContext(args);
      if context.Failure? {
        return Failure(context.error);
      }
      result := Render(templatePath, Some(context.value), classpath, merge);
    }

    /** render(String templatePath, String dataFilePath, Map additionalContext). */
    method RenderWithData(templatePath: Option<string>, dataFilePath: Option<string>, additional: Option<Context>,
                          classpath: Classpath, merge: Merge)
      returns (result: Result<string, TemplateError>)
      modifies this
      ensures Rendering(result, templateCache)
              == RenderWithDataSpec(old(templateCache), templatePath, dataFilePath, additional, classpath, merge)
    {
      if dataFilePath.None? || Trim(dataFilePath.value) == "" {
        return Failure(DataPathEmpty);
      }
      var dataPath := dataFilePath.value;
      if dataPath !in classpath.dataFiles {
        return Failure(RenderWithDataFailed(templatePath, DataFileNotFound(dataPath)));
      }
      var parsed := classpath.dataFiles[dataPath];
      if parsed.None? {
        return Failure(DataParseFailed(dataPath));
      }
      var mergedContext := MergeContext(parsed.value, additional);
      result := Render(templatePath, Some(mergedContext), classpath, merge);
      if result.Failure? {
        result := Failure(RenderWithDataFailed(templatePath, result.error));
      }
    }

    /** render(String templatePath, String dataFilePath, Object... additionalContext). */
    method RenderWithDataArgs(templatePath: Option<string>, dataFilePath: Option<string>, args: seq<Value>,
                              classpath: Classpath, merge: Merge)
      returns (result: Result<string, TemplateError>)
      modifies this
      ensures Rendering(result, templateCache)
              == RenderWithDataArgsSpec(old(templateCache), templatePath, dataFilePath, args, classpath, merge)
    {
      var context := BuildContext(args);
      if context.Failure? {
        return Failure(context.error);
      }
      result := RenderWithData(templatePath, dataFilePath, Some(context.value), classpath, merge);
    }

    /** clearCache(): every template is reloaded on next use. */
    method ClearCache()
      modifies this
      ensures templateCache == map[]
    {
      templateCache := map[];
    }

    /** clearCache(templatePath): removes that template only. */
    method ClearCachePath(templatePath: string)
      modifies this
      ensures templateCache == old(templateCache) - {templatePath}
    {
      templateCache := templateCache - {templatePath};
    }

    /** getCacheSize(): the number of cached templates. */
    method GetCacheSize() returns (size: nat)
      ensures size == |templateCache.Keys|
    {
      size := |templateCache.Keys|;
    }

    /** loadCsvAsList(csvFilePath). */
    method LoadCsvAsList(csvFilePath: Option<string>, classpath: Classpath)
      returns (rows: Result<seq<map<string, string>>, TemplateError>)
      ensures rows == LoadCsvRows(csvFilePath, classpath)
    {
      if csvFilePath.None? || Trim(csvFilePath.value) == "" {
        return Failure(CsvPathEmpty);
      }
      if csvFilePath.value !in classpath.csvFiles {
        return Failure(CsvNotFound(csvFilePath.value));
      }
      var allRows := Csv.ParseCsv(classpath.csvFiles[csvFilePath.value]);
      rows := Success(allRows);
    }

    /** loadCsvAsMap(csvFilePath, rowIndex). */
    method LoadCsvAsMap(csvFilePath: Option<string>, rowIndex: int, classpath: Classpath)
      returns (row: Result<map<string, string>, TemplateError>)
      ensures row == LoadCsvAsMapSpec(csvFilePath, rowIndex, classpath)
    {
      var allRows := LoadCsvAsList(csvFilePath, classpath);
      if allRows.Failure? {
        return Failure(allRows.error);
      }
      if |allRows.value| == 0 {
        return Failure(CsvEmpty(csvFilePath.value));
      }
      if rowIndex < 0 || rowIndex >= |allRows.value| {
        return Failure(RowIndexOutOfBounds(rowIndex, |allRows.value|));
      }
      row := Success(allRows.value[rowIndex]);
    }

    /** loadCsvAsMap(csvFilePath): the first data row. */
    method LoadCsvAsMapFirst(csvFilePath: Option<string>, classpath: Classpath)
      returns (row: Result<map<string, string>, TemplateError>)
      ensures row == LoadCsvAsMapSpec(csvFilePath, 0, classpath)
    {
      row := LoadCsvAsMap(csvFilePath, 0, classpath);
    }
  }

  // ------------------------------------------------------------------
  // Properties

  /** A blank template path is rejected before the cache is touched. */
  lemma BlankTemplatePathRejected(cache: map<string, Template>, templatePath: Option<string>, context: Option<Context>,
                                  classpath: Classpath, merge: Merge)
    requires templatePath.None? || IsBlank(templatePath.value)
    ensures RenderSpec(cache, templatePath, context, classpath, merge) == Rendering(Failure(TemplatePathEmpty), cache)
  {
    if templatePath.Some? {
      TrimProperties(templatePath.value);
    }
  }

  /** A render that fails in the engine still leaves the loaded template
      cached, while a template that cannot be loaded is not cached. */
  lemma FailedMergeKeepsTemplate(cache: map<string, Template>, path: string, context: Option<Context>,
                                 classpath: Classpath, merge: Merge)
    requires !BlankPath(Some(path))
    ensures var rendering := RenderSpec(cache, Some(path), context, classpath, merge);
      && (path in cache || path in classpath.templates <==> path in rendering.cache)
      && rendering.cache.Keys <= cache.Keys + {path}
      && (rendering.result.Failure? && path !in cache && path !in classpath.templates ==>
            rendering.result == Failure(RenderFailed(path, TemplateNotFound(path))))
  {
  }

  /** The engine sees the caller's context exactly, or an empty one for null. */
  lemma RenderUsesContext(cache: map<string, Template>, path: string, context: Option<Context>,
                          classpath: Classpath, merge: Merge)
    requires !BlankPath(Some(path)) && path in cache
    ensures RenderSpec(cache, Some(path), context, classpath, merge).result
            == match merge(cache[path], if context.Some? then context.value else map[])
               case Some(output) => Success(output)
               case None => Failure(RenderFailed(path, MergeFailed))
  {
  }

  /** The argument checks come first: an odd argument list fails with
      IllegalArgumentException whatever the paths, and leaves the cache. */
  lemma OddArgumentsRejectedFirst(cache: map<string, Template>, templatePath: Option<string>,
                                  dataFilePath: Option<string>, args: seq<Value>, classpath: Classpath, merge: Merge)
    requires |args| % 2 == 1
    ensures RenderArgsSpec(cache, templatePath, args, classpath, merge) == Rendering(Failure(OddArgumentCount), cache)
    ensures RenderWithDataArgsSpec(cache, templatePath, dataFilePath, args, classpath, merge)
            == Rendering(Failure(OddArgumentCount), cache)
  {
  }

  /** A blank data-file path is rejected before the template path is looked at. */
  lemma BlankDataPathRejected(cache: map<string, Template>, templatePath: Option<string>, dataFilePath: Option<string>,
                              additional: Option<Context>, classpath: Classpath, merge: Merge)
    requires dataFilePath.None? || IsBlank(dataFilePath.value)
    ensures RenderWithDataSpec(cache, templatePath, dataFilePath, additional, classpath, merge)
            == Rendering(Failure(DataPathEmpty), cache)
  {
    if dataFilePath.Some? {
      TrimProperties(dataFilePath.value);
    }
  }

  /** With a parsed data file, rendering with data is rendering with the
      data overridden by the additional context, errors wrapped. */
  lemma RenderWithDataIsMergedRender(cache: map<string, Template>, templatePath: Option<string>, dataPath: string,
                                     additional: Option<Context>, classpath: Classpath, merge: Merge)
    requires !BlankPath(Some(dataPath))
    requires dataPath in classpath.dataFiles && classpath.dataFiles[dataPath].Some?
    ensures var data := classpath.dataFiles[dataPath].value;
      var plain := RenderSpec(cache, templatePath, Some(MergeContext(data, additional)), classpath, merge);
      var rendering := RenderWithDataSpec(cache, templatePath, Some(dataPath), additional, classpath, merge);
      && rendering.cache == plain.cache
      && (plain.result.Success? ==> rendering.result == plain.result)
      && (plain.result.Failure? ==> rendering.result == Failure(RenderWithDataFailed(templatePath, plain.result.error)))
  {
  }

  /** loadCsvAsMap succeeds exactly for an index within the rows
      loadCsvAsList returns, and then gives that row. */
  lemma CsvMapIsListElement(csvFilePath: Option<string>, rowIndex: int, classpath: Classpath)
    ensures var rows := LoadCsvRows(csvFilePath, classpath);
      LoadCsvAsMapSpec(csvFilePath, rowIndex, classpath).Success? <==>
        rows.Success? && 0 <= rowIndex < |rows.value|
    ensures var rows := LoadCsvRows(csvFilePath, classpath);
      rows.Success? && 0 <= rowIndex < |rows.value| ==>
        LoadCsvAsMapSpec(csvFilePath, rowIndex, classpath) == Success(rows.value[rowIndex])
  {
  }

  /** The rejections of loadCsvAsMap, in the order the source makes them. */
  lemma CsvMapRejections(csvFilePath: Option<string>, rowIndex: int, classpath: Classpath)
    ensures BlankPath(csvFilePath) ==> LoadCsvAsMapSpec(csvFilePath, rowIndex, classpath) == Failure(CsvPathEmpty)
    ensures !BlankPath(csvFilePath) && csvFilePath.value in classpath.csvFiles &&
            Csv.ParseCsvSpec(classpath.csvFiles[csvFilePath.value]) == [] ==>
              LoadCsvAsMapSpec(csvFilePath, rowIndex, classpath) == Failure(CsvEmpty(csvFilePath.value))
    ensures var rows := LoadCsvRows(csvFilePath, classpath);
      rows.Success? && |rows.value| > 0 && (rowIndex < 0 || rowIndex >= |rows.value|) ==>
        LoadCsvAsMapSpec(csvFilePath, rowIndex, classpath) == Failure(RowIndexOutOfBounds(rowIndex, |rows.value|))
  {
  }

  /** A template rendered twice is loaded once: the second render finds it
      cached, the cache holds one entry, and clearing the path makes the
      next render load it again. */
  method RenderTwiceLoadsOnce(classpath: Classpath, merge: Merge)
    returns (first: Result<string, TemplateError>, second: Result<string, TemplateError>,
             sizeAfterTwo: nat, sizeAfterClear: nat)
    requires "t.vm" in classpath.templates
    ensures sizeAfterTwo == 1 && sizeAfterClear == 0
    ensures first == second
  {
    var service := new TemplateService();
    var context := Some(map["name" := Str("Ada")]);
    first := service.Render(Some("t.vm"), context, classpath, merge);
    second := service.Render(Some("t.vm"), context, classpath, merge);
    assert service.templateCache.Keys == {"t.vm"};
    sizeAfterTwo := service.GetCacheSize();
    service.ClearCachePath("t.vm");
    sizeAfterClear := service.GetCacheSize();
  }
}
