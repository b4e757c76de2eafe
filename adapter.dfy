/** What one call of the transform does to one file record, as values: the
    ordered dispatch checks, the options the compiler is given, the renamed
    path, the rewritten source map and the single callback it answers with. */
module Adapter {
  import opened Wrappers
  import opened Paths

  const ScssExt: string := ".scss"
  const StreamingMessage: string := "Streaming is not supported."

  /** The payload of a file record: `null`, a buffer of bytes, or a stream. */
  datatype Contents = Null | Buffer(bytes: seq<bv8>) | Stream

  /** A source map as the compiler produces it, already parsed. */
  datatype SourceMap = SourceMap(file: string, sources: seq<string>, names: seq<string>, mappings: string)

  /** A file record: its path, its base directory, its payload, and the map
      attached by an earlier stage (present means `chunk.sourceMap` is truthy). */
  datatype File = File(path: string, base: string, contents: Contents, sourceMap: Option<SourceMap>)

  /** The `sourceMap` option: never set, `false`, or the path of the input. */
  datatype MapSetting = Unset | Off | At(path: string)

  /** The caller's options object: the two fields the transform writes and
      everything else the caller passed, which it only hands on. */
  datatype CompileOptions = CompileOptions(sourceMap: MapSetting, file: Option<string>, others: map<string, string>)

  /** What the compiler returns: the CSS and perhaps a map. */
  datatype Rendered = Rendered(css: seq<bv8>, generatedMap: Option<SourceMap>)

  /** The compiler: given the options, CSS and a map, or the message it threw. */
  type Compiler = CompileOptions -> Result<Rendered, string>

  /** `path.relative(from, to)`. */
  type Relative = (string, string) -> string

  /** The error handed to the callback: its message and the file it names. */
  datatype PluginError = PluginError(message: string, fileName: Option<string>)

  /** How the call ends: the chunk is passed on, nothing is passed on, an error
      is passed on, reading the length of null contents throws, or the
      callback is never called. */
  datatype Reply = Forward | Skip | Fail(error: PluginError) | ThrowsOnNull | NoReply

  /** Which branch of the transform a file takes. */
  datatype Decision = PassThrough | Drop | Compile | Unsupported | NullRead | Unanswered

  /** A partial: a base name that starts with `_`. */
  predicate IsPartial(p: string)
  {
    var b := Base(p);
    |b| > 0 && b[0] == '_'
  }

  /** `chunk._contents.length === 0`: only a buffer has a length; reading it
      on a stream gives `undefined`. Null contents never get here. */
  predicate IsEmpty(c: Contents)
    requires !c.Null?
  {
    c.Buffer? && |c.bytes| == 0
  }

  /** The chain of early returns, in the order the transform tests them. The
      extension test comes first; the null test is reached only through
      `_contents.length`, which throws on null, so `isNull()` never decides;
      the last `else if` has no `else`. */
  function Classify(f: File): (d: Decision)
    ensures d == PassThrough <==> Extname(f.path) != ScssExt
    ensures d == NullRead <==> Extname(f.path) == ScssExt && f.contents.Null?
    ensures d == Drop <==>
      Extname(f.path) == ScssExt && !f.contents.Null? && (f.contents == Buffer([]) || IsPartial(f.path))
    ensures d == Compile <==>
      Extname(f.path) == ScssExt && f.contents.Buffer? && |f.contents.bytes| > 0 && !IsPartial(f.path)
    ensures d == Unsupported <==> Extname(f.path) == ScssExt && f.contents.Stream? && !IsPartial(f.path)
    ensures d != Unanswered
  {
    if Extname(f.path) != ScssExt then PassThrough
    else if f.contents.Null? then NullRead
    else if IsEmpty(f.contents) then Drop
    else if IsPartial(f.path) then Drop
    else if f.contents.Buffer? then Compile
    else if f.contents.Stream? then Unsupported
    else Unanswered
  }

  /** The options after the transform writes its two fields: `sourceMap` is
      the input path when the file carries a map and `false` otherwise;
      `file` is the input path unless that is empty. */
  function InjectOptions(o: CompileOptions, f: File): (r: CompileOptions)
    ensures r.others == o.others
    ensures r.sourceMap == At(f.path) <==> f.sourceMap.Some?
    ensures f.sourceMap.None? ==> r.sourceMap == Off
    ensures f.path != "" ==> r.file == Some(f.path)
    ensures f.path == "" ==> r.file == o.file
  {
    o.(sourceMap := if f.sourceMap.Some? then At(f.path) else Off,
       file := if f.path != "" then Some(f.path) else o.file)
  }

  /** `sources.map(s => path.relative(base, s))`. */
  function RewriteSources(base: string, sources: seq<string>, relative: Relative): (r: seq<string>)
    ensures |r| == |sources|
    ensures forall i :: 0 <= i < |r| ==> r[i] == relative(base, sources[i])
  {
    if sources == [] then []
    else [relative(base, sources[0])] + RewriteSources(base, sources[1..], relative)
  }

  /** The map with `file` set to the output's relative path and every source
      made relative to the base directory. */
  function RewriteMap(m: SourceMap, file: string, base: string, relative: Relative): (r: SourceMap)
    ensures r.file == file && r.names == m.names && r.mappings == m.mappings
    ensures |r.sources| == |m.sources|
    ensures forall i :: 0 <= i < |r.sources| ==> r.sources[i] == relative(base, m.sources[i])
  {
    m.(file := file, sources := RewriteSources(base, m.sources, relative))
  }

  /** Everything one call produces: the reply, the file record and the
      options object as they are afterwards, and the map handed to
      `applySourceMap`, if any. */
  datatype Outcome = Outcome(reply: Reply, file: File, options: CompileOptions, applied: Option<SourceMap>)

  /** One call of the transform on file `f` with options `o`. */
  function Step(f: File, o: CompileOptions, render: Compiler, relative: Relative): Outcome
  {
    match Classify(f)
    case PassThrough => Outcome(Forward, f, o, None)
    case NullRead => Outcome(ThrowsOnNull, f, o, None)
    case Drop => Outcome(Skip, f, o, None)
    case Unsupported => Outcome(Fail(PluginError(StreamingMessage, None)), f, o, None)
    case Unanswered => Outcome(NoReply, f, o, None)
    case Compile => CompileStep(f, o, render, relative)
  }

  /** The buffer branch: write the options, rename, then compile. */
  function CompileStep(f: File, o: CompileOptions, render: Compiler, relative: Relative): (out: Outcome)
    ensures out.options == InjectOptions(o, f)
    ensures out.file.base == f.base && out.file.sourceMap == f.sourceMap
    ensures out.reply == Forward || out.reply.Fail?
  {
    var o' := InjectOptions(o, f);
    Finish(f.(path := WithCssExtension(f.path)), o', render(o'), relative)
  }

  /** What follows the compiler call for the renamed file: take the CSS and
      rewrite the map, or wrap the compiler's error. */
  function Finish(renamed: File, o: CompileOptions, result: Result<Rendered, string>, relative: Relative): (out: Outcome)
    ensures out.options == o
    ensures out.file.path == renamed.path && out.file.base == renamed.base && out.file.sourceMap == renamed.sourceMap
    ensures result.Err? ==>
      out == Outcome(Fail(PluginError(result.error, Some(relative(renamed.base, renamed.path)))), renamed, o, None)
    ensures result.Ok? ==> out.reply == Forward && out.file.contents == Buffer(result.value.css)
    ensures out.applied.Some? <==> result.Ok? && result.value.generatedMap.Some? && renamed.sourceMap.Some?
  {
    var rel := relative(renamed.base, renamed.path);
    match result
    case Err(message) => Outcome(Fail(PluginError(message, Some(rel))), renamed, o, None)
    case Ok(rendered) =>
      var applied :=
        if rendered.generatedMap.Some? && renamed.sourceMap.Some?
        then Some(RewriteMap(rendered.generatedMap.value, rel, renamed.base, relative))
        else None;
      Outcome(Forward, renamed.(contents := Buffer(rendered.css)), o, applied)
  }

  /** A file whose extension is not ".scss" is passed on as it is, whatever
      its contents, and the options are not touched. */
  lemma NonScssForwardedUnchanged(f: File, o: CompileOptions, render: Compiler, relative: Relative)
    requires Extname(f.path) != ScssExt
    ensures Step(f, o, render, relative) == Outcome(Forward, f, o, None)
  {
  }

  /** A ".scss" file with an empty buffer is dropped without an error. */
  lemma EmptyBufferDropped(f: File, o: CompileOptions, render: Compiler, relative: Relative)
    requires Extname(f.path) == ScssExt && f.contents == Buffer([])
    ensures Step(f, o, render, relative) == Outcome(Skip, f, o, None)
  {
  }

  /** A ".scss" partial with a buffer or a stream is dropped without an error
      and without touching the options. */
  lemma PartialDropped(f: File, o: CompileOptions, render: Compiler, relative: Relative)
    requires Extname(f.path) == ScssExt && !f.contents.Null? && IsPartial(f.path)
    ensures Step(f, o, render, relative) == Outcome(Skip, f, o, None)
  {
  }

  /** A ".scss" file with null contents makes the transform throw: the null
      test sits behind a read of the length of the contents. */
  lemma NullScssThrows(f: File, o: CompileOptions, render: Compiler, relative: Relative)
    requires Extname(f.path) == ScssExt && f.contents.Null?
    ensures Step(f, o, render, relative) == Outcome(ThrowsOnNull, f, o, None)
  {
  }

  /** A ".scss" stream that is not a partial is refused with the streaming
      error and is not passed on. */
  lemma StreamRefused(f: File, o: CompileOptions, render: Compiler, relative: Relative)
    requires Extname(f.path) == ScssExt && f.contents.Stream? && !IsPartial(f.path)
    ensures Step(f, o, render, relative) == Outcome(Fail(PluginError(StreamingMessage, None)), f, o, None)
  {
  }

  /** Every call answers: the branch without a callback is never taken, and
      only a compiled file changes the file record or the options. */
  lemma AlwaysAnswers(f: File, o: CompileOptions, render: Compiler, relative: Relative)
    ensures Step(f, o, render, relative).reply != NoReply
    ensures Classify(f) != Compile ==> Step(f, o, render, relative).file == f
    ensures Classify(f) != Compile ==> Step(f, o, render, relative).options == o
    ensures Classify(f) != Compile ==> Step(f, o, render, relative).applied == None
  {
  }

  /** A compiled file is renamed before the compiler runs, so whatever the
      compiler does the new path keeps the directory and the stem and ends in
      ".css"; its base directory does not change. */
  lemma CompiledFileRenamed(f: File, o: CompileOptions, render: Compiler, relative: Relative)
    requires Extname(f.path) == ScssExt && f.contents.Buffer? && f.contents.bytes != [] && !IsPartial(f.path)
    ensures var out := Step(f, o, render, relative);
      && out.file.base == f.base
      && Dir(out.file.path) == Dir(f.path)
      && Base(f.path) == Stem(f.path) + ScssExt
      && Base(out.file.path) == Stem(f.path) + ".css"
      && Extname(out.file.path) == ".css"
  {
    assert Classify(f) == Compile;
    var out := Step(f, o, render, relative);
    assert out.file.path == WithCssExtension(f.path) && out.file.base == f.base;
    RenamedPath(f.path);
  }

  /** The compiler sees `sourceMap` set to the input path exactly when the
      file carries a map, `file` set to the input path, and the caller's other
      options unchanged; the object keeps these values afterwards. */
  lemma OptionsWritten(f: File, o: CompileOptions, render: Compiler, relative: Relative)
    requires Extname(f.path) == ScssExt && f.contents.Buffer? && f.contents.bytes != [] && !IsPartial(f.path)
    ensures var out := Step(f, o, render, relative);
      && out.options.sourceMap == (if f.sourceMap.Some? then At(f.path) else Off)
      && out.options.file == Some(f.path)
      && out.options.others == o.others
  {
    assert Classify(f) == Compile;
    assert f.path != "";
    assert Step(f, o, render, relative).options == InjectOptions(o, f);
  }

  /** On success the file is passed on with the compiler's CSS as contents. */
  lemma CompileSucceeds(f: File, o: CompileOptions, render: Compiler, relative: Relative, rendered: Rendered)
    requires Classify(f) == Compile && render(InjectOptions(o, f)) == Ok(rendered)
    ensures var out := Step(f, o, render, relative);
      && out.reply == Forward
      && out.file == File(WithCssExtension(f.path), f.base, Buffer(rendered.css), f.sourceMap)
  {
  }

  /** On a compiler error nothing is passed on: the error carries the
      compiler's message and the relative path of the renamed file, the
      contents are left as they were, and no map is applied. */
  lemma CompileFails(f: File, o: CompileOptions, render: Compiler, relative: Relative, message: string)
    requires Classify(f) == Compile && render(InjectOptions(o, f)) == Err(message)
    ensures var out := Step(f, o, render, relative);
      && out.reply == Fail(PluginError(message, Some(relative(f.base, WithCssExtension(f.path)))))
      && out.file == f.(path := WithCssExtension(f.path))
      && out.applied == None
  {
  }

  /** A map is handed over exactly when the file compiled, the compiler
      returned a map and the file carries one; it then names the renamed
      file, relative to the base, and keeps its sources in order, each made
      relative to the base, and everything else the compiler wrote. */
  lemma MapRewritten(f: File, o: CompileOptions, render: Compiler, relative: Relative)
    ensures var out := Step(f, o, render, relative);
      out.applied.Some? <==>
        && Classify(f) == Compile
        && render(InjectOptions(o, f)).Ok?
        && render(InjectOptions(o, f)).value.generatedMap.Some?
        && f.sourceMap.Some?
    ensures var out := Step(f, o, render, relative);
      out.applied.Some? ==>
        var m := render(InjectOptions(o, f)).value.generatedMap.value;
        var m' := out.applied.value;
        && m'.file == relative(f.base, WithCssExtension(f.path))
        && |m'.sources| == |m.sources|
        && (forall i :: 0 <= i < |m.sources| ==> m'.sources[i] == relative(f.base, m.sources[i]))
        && m'.names == m.names && m'.mappings == m.mappings
  {
  }

  /** The options object the caller shares between files carries nothing
      from one compiled file to the next: what the transform does with a
      file does not depend on the `sourceMap` and `file` values left by
      earlier calls. */
  lemma NothingCarriedOver(f: File, o1: CompileOptions, o2: CompileOptions, render: Compiler, relative: Relative)
    requires Classify(f) == Compile && o1.others == o2.others
    ensures Step(f, o1, render, relative) == Step(f, o2, render, relative)
  {
    assert f.path != "";
    assert InjectOptions(o1, f) == InjectOptions(o2, f);
  }

  /** The output of a successful compile, fed to the transform again, is
      passed on untouched: its extension is ".css". */
  lemma OutputPassesThrough(f: File, o: CompileOptions, render: Compiler, relative: Relative,
                            o2: CompileOptions, render2: Compiler, relative2: Relative)
    requires Classify(f) == Compile
    ensures var out := Step(f, o, render, relative).file;
      Step(out, o2, render2, relative2) == Outcome(Forward, out, o2, None)
  {
    var out := Step(f, o, render, relative).file;
    assert out.path == WithCssExtension(f.path);
    RenamedPath(f.path);
    assert |Extname(out.path)| != |ScssExt|;
    NonScssForwardedUnchanged(out, o2, render2, relative2);
  }
}
