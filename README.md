# gulp-dart-scss: the per-file transform, modelled in Dafny

The plugin is a Node object-mode `Transform` stream. For every vinyl file
record it receives, its `transform` function decides what to do by a chain
of early returns. A file whose extension is not `.scss` is passed on as it
is. An empty `.scss` buffer is dropped. A `.scss` partial (base name starting
with `_`) is dropped. A `.scss` buffer is compiled. A `.scss` stream is
refused with "Streaming is not supported.". To compile, the transform writes
`sourceMap` and `file` into the caller's options object, which every file
shares. It renames the file to `.css` before the compiler runs. Then it either
replaces the contents with the CSS, and rewrites and hands on the source map
when the file asked for one, or it reports the compiler's message against the
renamed file.

The model has four modules:

- `Wrappers` (wrappers.dfy): `Option` and `Result`.
- `Paths` (paths.dfy): `extname`, `basename`, `dirname` and `join` of Node's
  POSIX `path` module, on strings, and the lemmas that the `.css` renaming
  keeps the directory and the stem.
- `Adapter` (adapter.dfy): the file record, the options, the compiler and
  `path.relative` as values and function parameters. `Classify` is the chain
  of checks. `Step` is the whole effect of one call: the callback it makes,
  the file record and options afterwards, and the map handed to
  `applySourceMap`. The lemmas state each branch's promise.
- `Plugin` (plugin.dfy): the same call on objects. `Chunk` and `Options` are
  classes whose fields the transform assigns. `ScssTransform` keeps the
  caller's options object itself, so every file writes into the same one.
  `ScssTransform.Transform` is proved to leave exactly the state `Step`
  describes.

The order of the checks decides what happens to unusual files:

- The extension check comes first, so a file with null contents is passed on
  only when it is not `.scss`.
- For a `.scss` file, `chunk._contents.length` is read before
  `chunk.isNull()`. Reading `.length` of `null` throws a `TypeError`, so the
  `isNull()` half of that guard never decides anything. The model makes this
  an explicit outcome, `ThrowsOnNull` (decision `NullRead`), and does not
  exclude it by a precondition.
- The final `else if (chunk.isStream())` has no `else`. The model keeps that
  branch as `Unanswered`/`NoReply`, and `Classify` and `AlwaysAnswers` prove
  that no file reaches it.
- A compiler error is passed to the callback as a `PluginError` naming the
  renamed file.

The transform adds no `data` field, so unless the caller supplied one, the
compiler reads the file named by `options.file`. The bytes of the chunk's
buffer never reach it. A `data` option from the caller travels in `others`.
The model captures this: a `Compiler` is a function of the `CompileOptions`
alone, and those include `others`.

## Model

| member | source | states |
|---|---|---|
| `Paths.Base` | index.js:24 | the base name has no separator and is a suffix of the path (exactly which suffix is `SplitAtLastSeparator`) |
| `Paths.SplitAtLastSeparator` | index.js:33-36 | without a separator the base name is the whole path and the directory "."; with one, the base name is everything after the last separator, and the directory is everything before it, or "/" when that separator is the first character |
| `Paths.Dir` | index.js:34 | the directory is never empty, and is "." for a path without a separator (its value otherwise is `SplitAtLastSeparator`) |
| `Paths.ExtStart` | index.js:14 | an extension, when found, starts at a `.` that is not the first character and after which no `.` follows, and the name is not ".."; no extension is found exactly when the name is ".." or has no `.` after its first character |
| `Paths.Extname` | index.js:14 | `path.extname`: the base name from the start `ExtStart` finds, or "" (its properties are `StemThenExtension` and `CssNameParts`) |
| `Paths.Basename` | index.js:35 | `path.basename(p, ext)`: the base name with a proper suffix `ext` removed (related to `Stem` by `StemIsBasenameWithoutExtname`) |
| `Paths.Stem` | index.js:35 | the base name without its extension (its properties are `StemThenExtension` and `StemIsBasenameWithoutExtname`) |
| `Paths.Join` | index.js:33-36 | `path.join(dir, name)` for one file name (inverted by `Dir` and `Base` in `DirAndBaseOfJoin`) |
| `Paths.WithCssExtension` | index.js:33-36 | the renamed path: the directory joined with the stem plus ".css" (its properties are `RenamedPath`) |
| `Paths.StemThenExtension` | index.js:14 | a base name with an extension is its non-empty, separator-free stem followed by that extension, which starts with its only `.` |
| `Paths.StemIsBasenameWithoutExtname` | index.js:35 | the stem is exactly `basename(p, extname(p))` |
| `Paths.DirAndBaseOfJoin` | index.js:33-36 | joining a directory with one file name gives back that directory and that name |
| `Paths.CssNameParts` | index.js:35 | a stem followed by ".css" has extension ".css" and gives back the same stem |
| `Paths.RenamedPath` | index.js:33-36 | for a ".scss" path the renamed path keeps the directory and the stem, has base name stem + ".css" and extension ".css" |
| `Adapter.IsPartial` | index.js:24 | a partial is a file whose base name starts with `_` (used by `Classify` and `PartialDropped`) |
| `Adapter.IsEmpty` | index.js:19 | `_contents.length === 0` holds only for an empty buffer (used by `Classify` and `EmptyBufferDropped`) |
| `Adapter.Classify` | index.js:14-63 | each decision holds exactly when its condition does: pass-through when the extension is not ".scss"; the null read for a ".scss" file with null contents; drop for a non-null ".scss" file that is an empty buffer or a partial; compile for a non-empty, non-partial ".scss" buffer; refuse for a non-partial ".scss" stream; the branch without a callback is never taken |
| `Adapter.InjectOptions` | index.js:29-30 | `sourceMap` is the input path exactly when the file carries a map and `false` otherwise; `file` is the input path unless that is empty, when the old value stays; every other option is kept |
| `Adapter.RewriteSources` | index.js:45-47 | the rewritten sources keep the length and the order of the originals, entry i being `relative(base, sources[i])` |
| `Adapter.RewriteMap` | index.js:44-47 | the map's `file` is the given relative path, its sources keep length and order with each made relative to the base, and its names and mappings are kept |
| `Adapter.Step` | index.js:12-64 | one call of the transform: the reference definition that `Transform` is proved against (its properties are the lemmas below) |
| `Adapter.CompileStep` | index.js:28-40 | the buffer branch leaves the options `InjectOptions` gives, keeps the base and the map, and either passes the file on or fails |
| `Adapter.Finish` | index.js:38-57 | after the compiler call the options are untouched and the path, base and map of the renamed file are kept; an error becomes a `PluginError` with the compiler's message and the renamed file's relative path, with nothing else changed; a success passes the file on with the compiler's CSS as contents; a map is handed on exactly when the compiler produced one and the file carries one |
| `Adapter.NonScssForwardedUnchanged` | index.js:14-16 | a file without the ".scss" extension is passed on unchanged whatever its contents, options untouched, no map applied |
| `Adapter.EmptyBufferDropped` | index.js:19-21 | a ".scss" file with an empty buffer is dropped with no error and nothing changed |
| `Adapter.PartialDropped` | index.js:24-26 | a ".scss" partial with a buffer or a stream is dropped with no error and options untouched |
| `Adapter.NullScssThrows` | index.js:19 | a ".scss" file with null contents makes the call throw, with nothing changed |
| `Adapter.StreamRefused` | index.js:59-62 | a non-partial ".scss" stream gets the "Streaming is not supported." error and is not passed on |
| `Adapter.AlwaysAnswers` | index.js:28-63 | every call makes a callback, and only a compiled file changes the file record or the options or applies a map |
| `Adapter.CompiledFileRenamed` | index.js:33-36 | for a non-empty, non-partial ".scss" buffer, whether the compiler succeeds or fails, the file's new path keeps the directory and stem and has extension ".css", and the base is unchanged |
| `Adapter.OptionsWritten` | index.js:29-30 | for a non-empty, non-partial ".scss" buffer, the options get `sourceMap` = the original path when the file carries a map and `false` otherwise, `file` = the original path, and other options unchanged |
| `Adapter.CompileSucceeds` | index.js:38-51 | on success the renamed file is passed on with the compiler's CSS as contents |
| `Adapter.CompileFails` | index.js:52-57 | on a compiler error nothing is passed on; the error carries the compiler's message and the renamed file's relative path; contents stay and no map is applied |
| `Adapter.MapRewritten` | index.js:42-48 | a map is applied exactly when the compile succeeded with a map and the file carries one; it names the renamed file relative to the base, keeps its sources' length and order with each made relative to the base, and keeps the rest |
| `Adapter.NothingCarriedOver` | index.js:29-30 | what a compiled file yields does not depend on the `sourceMap`/`file` values earlier calls left in the shared options |
| `Adapter.OutputPassesThrough` | index.js:14-36 | a compiled output fed to the transform again is passed on unchanged |
| `Plugin.Chunk.constructor` | index.js:12 | a chunk object whose fields hold the given file record |
| `Plugin.Options.constructor` | index.js:9 | an options object whose fields hold the given options |
| `Plugin.ScssTransform.constructor` | index.js:9-11 | the stage keeps the caller's options object itself, not a copy |
| `Plugin.ScssTransform.Transform` | index.js:12-64 | the reply, the map handed on, the file record and the shared options object afterwards are exactly those `Step` gives for their values before the call |
| `Plugin.ScssTransform.CompileBuffer` | index.js:28-40 | the buffer branch leaves the reply, map, file record and options that `CompileStep` gives: options written, path renamed, then the compiler's result taken |
| `Plugin.ScssTransform.TakeResult` | index.js:38-57 | after the compiler call the reply, the map handed on and the file record are those `Finish` gives for the compiler's result, and the options are not written |

## Left out

- The `sass` compiler (`renderSync`) is a function parameter from options to
  CSS and map, or to an error message. Nothing is assumed about what it
  computes.
- `path.relative` is a function parameter. `chunk.relative` is that function
  applied to the base and the renamed path.
- `applySourceMap` merges into an existing map chain. That is outside the
  model: the model returns the rewritten map handed to it and leaves the
  record's own map as it was.
- `JSON.parse` of the map and `Buffer.from` of the CSS are left out. The
  compiler's result is the parsed map and the CSS as bytes.
- Stream plumbing is left out: object mode, the unused `encoding` argument,
  and the callback protocol. One call yields one `Reply` value. The thrown
  `TypeError` is an outcome value, not a propagated exception.
- `PluginError` formatting and the plugin-name tag are left out. An error is
  its message and its file name.
- Node's `path.join` normalisation is only partly modelled. The model drops a
  "." directory and does not double the root. It does not collapse repeated
  separators or "." and ".." segments, and it treats trailing separators as
  part of the base name, where Node strips them.
- Basename: strips a suffix only when it is a non-empty proper suffix of the
  base name. Node also returns the whole base name when the suffix equals it;
  the one difference is a whole path equal to the suffix, for which Node
  returns "". The transform only passes the path's own extension, which is
  never the whole base name.
- Base: its own contract says only that the result is a separator-free suffix
  of the path; the lemma `SplitAtLastSeparator` states which suffix. As a
  function contract that fact would enter every proof that mentions the
  renamed path and put those proofs over the solver's resource limit.
- Dir: its own contract gives its value only for a path without a separator;
  the lemma `SplitAtLastSeparator` gives the rest, for the same reason as
  `Base`.
- Step, Extname, Stem, Join, WithCssExtension, IsPartial, IsEmpty: these carry
  no contract of their own. They are the reference definitions; what they
  promise is stated by the lemmas named in their rows.
- A throw inside the `try` after `renderSync` (in `Buffer.from`, `JSON.parse`,
  `map.sources.map` or `applySourceMap`, index.js:40-48) is caught and becomes
  a `PluginError`, after the contents were already replaced. The model's
  success branch cannot fail this way.
- The truthiness of `chunk.sourceMap` is modelled as the record carrying a map
  (`Some`). The options' `sourceMap` field is modelled as unset,
  `false` or a path; a caller may pass any other value (such as `true`),
  which the model cannot represent. This does not matter: every compiled file
  overwrites the field before the compiler reads it (`NothingCarriedOver`).
  Other options are modelled as an opaque string map that is handed on
  unchanged.
