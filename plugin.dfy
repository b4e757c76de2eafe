/** The plugin as objects: the file record and the caller's options object are
    updated in place, and the transform stage holds on to the options object
    it was created with, so every file it sees writes into the same one. */
module Plugin {
  import opened Wrappers
  import opened Paths
  import opened Adapter

  /** A file record travelling down the pipeline. */
  class Chunk {
    var path: string
    var base: string
    var contents: Contents
    var sourceMap: Option<SourceMap>

    constructor (f: File)
      ensures Value() == f
    {
      path, base, contents, sourceMap := f.path, f.base, f.contents, f.sourceMap;
    }

    function Value(): File
      reads this
    {
      File(path, base, contents, sourceMap)
    }
  }

  /** The options object the caller hands to the plugin factory. */
  class Options {
    var sourceMap: MapSetting
    var file: Option<string>
    var others: map<string, string>

    constructor (o: CompileOptions)
      ensures Value() == o
    {
      sourceMap, file, others := o.sourceMap, o.file, o.others;
    }

    function Value(): CompileOptions
      reads this
    {
      CompileOptions(sourceMap, file, others)
    }
  }

  /** The transform stage the plugin factory returns. */
  class ScssTransform {
    const options: Options

    /** The factory keeps the caller's object itself, not a copy. */
    constructor (options: Options)
      ensures this.options == options
    {
      this.options := options;
    }

    /** One call of `transform(chunk, encoding, callback)`: the reply is the
        one callback made, `applied` the map handed to `applySourceMap`. */
    method Transform(chunk: Chunk, render: Compiler, relative: Relative) returns (reply: Reply, applied: Option<SourceMap>)
      modifies chunk, options
      ensures var out := Step(old(chunk.Value()), old(options.Value()), render, relative);
        && reply == out.reply
        && applied == out.applied
        && chunk.Value() == out.file
        && options.Value() == out.options
    {
      if Extname(chunk.path) != ScssExt {
        return Forward, None;
      }
      // `chunk._contents.length` is read before `chunk.isNull()`.
      if chunk.contents.Null? {
        return ThrowsOnNull, None;
      }
      if IsEmpty(chunk.contents) {
        return Skip, None;
      }
      if IsPartial(chunk.path) {
        return Skip, None;
      }
      if chunk.contents.Buffer? {
        assert Classify(old(chunk.Value())) == Compile;
        reply, applied := CompileBuffer(chunk, render, relative);
      } else if chunk.contents.Stream? {
        reply, applied := Fail(PluginError(StreamingMessage, None)), None;
      } else {
        reply, applied := NoReply, None;
      }
    }

    /** The buffer branch: write the two options, rename, compile. */
    method CompileBuffer(chunk: Chunk, render: Compiler, relative: Relative) returns (reply: Reply, applied: Option<SourceMap>)
      modifies chunk, options
      ensures var out := CompileStep(old(chunk.Value()), old(options.Value()), render, relative);
        && reply == out.reply
        && applied == out.applied
        && chunk.Value() == out.file
        && options.Value() == out.options
    {
      ghost var f := chunk.Value();
      ghost var o := options.Value();
      var input := chunk.path;
      options.sourceMap := if chunk.sourceMap.Some? then At(input) else Off;
      if input != "" {
        options.file := Some(input);
      }
      assert options.Value() == InjectOptions(o, f);
      chunk.path := WithCssExtension(input);
      assert chunk.Value() == f.(path := WithCssExtension(f.path));
      var result := render(options.Value());
      reply, applied := TakeResult(chunk, result, relative);
    }

    /** The `try` block after `renderSync` and its `catch`: on success the CSS
        replaces the contents and, when both sides have a map, the compiler's
        map is rewritten and handed on; on failure the error names the
        renamed file. */
    method TakeResult(chunk: Chunk, result: Result<Rendered, string>, relative: Relative) returns (reply: Reply, applied: Option<SourceMap>)
      modifies chunk
      ensures var out := Finish(old(chunk.Value()), options.Value(), result, relative);
        && reply == out.reply
        && applied == out.applied
        && chunk.Value() == out.file
    {
      applied := None;
      match result
      case Err(message) =>
        reply := Fail(PluginError(message, Some(relative(chunk.base, chunk.path))));
      case Ok(rendered) =>
        chunk.contents := Buffer(rendered.css);
        if rendered.generatedMap.Some? && chunk.sourceMap.Some? {
          var parsed := rendered.generatedMap.value;
          parsed := parsed.(file := relative(chunk.base, chunk.path));
          parsed := parsed.(sources := RewriteSources(chunk.base, parsed.sources, relative));
          applied := Some(parsed);
        }
        reply := Forward;
    }
  }
}
