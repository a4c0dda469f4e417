# Note creation and alias listing of zk, modelled in Dafny

This project models two parts of the zk note-taking tool.

**Note creation** (`core/note/create.go`, module `Note`). `Create` loads the
directory's filename template and, when a body template path is configured,
locates and loads the body template (otherwise the null renderer is used).
`create` then builds the render context: the explicit title or the
directory's default title, the initial content, the directory name, the extra
fields, the date and the environment. `genPath` searches for a free path in
at most 50 attempts. Each attempt draws a fresh identifier, renders the
filename template, appends the extension, joins the result onto the
directory path and asks the validator whether the path is free. A render
error or a failed check ends the search at once. A free path is accepted,
and the context receives its filename and stem. After 50 taken candidates
the search reports `ErrNoteExists` with the last name and path. The body is
rendered with the finalized context, and the file is written only after all
of this succeeded. Errors after the filename template load are wrapped as
"new note".

The search exists twice here, as the source's counted loop, `GenPathLoop`,
and as the recursive function `GenPath` (with `Attempts` and the
single-attempt `TryAttempt`) that `create` and `Create` use. The method is
proved equal to the function. `GenPathCharacterized` then states what a run
is without recursion: between 1 and 50 identifiers are drawn, every attempt
but the last found its candidate taken, and the last attempt decides the
outcome (`LastAttemptDecides`).

Collaborators are parameters:
- the filename and body templates are functions from a context to text or
  an error;
- the identifier generator is `genId`, the identifier of the i-th call;
- the path validator is a function from a path to "free", "taken" or an
  error;
- `filepath.Join`, `filepath.Base` and `paths.FilenameStem` are a `PathOps`
  record inside the loop, and `Create` supplies the definitions of module
  `Paths`;
- the template loader and `LocateTemplate` are function fields;
- the file system is a value: its files, the paths whose existence check
  fails and the paths that cannot be written. `Create` returns the new file
  system beside its result.

**Alias listing** (`internal/cli/cmd/config.go`, module `AliasConfig`).
`AliasList.Run` expands the whitespace literals of the header, footer and
delimiter in place. For the `json` and `jsonl` formats it refuses a
non-empty header and a footer or delimiter other than a newline, in that
order. For `json` it then sets the delimiter to `,`, the header to `[` and
the footer to `]` plus a newline; for `jsonl` it sets the footer to a
newline. With aliases, it hands the pager the header, the `key=value` items
joined by the delimiter, and the footer. With none, it reports the "Found"
notice unless quiet. `aliasTemplate` maps a format to its item template.

The model keeps these details as the code has them:
- An explicit empty title is kept. The title falls back to the default only
  when no title was given (`opt.String.OrString`).
- The error from loading the filename template is returned unwrapped
  (core/note/create.go:50-53). It is the one error of `Create` without the
  "new note" prefix.
- The name carried by `ErrNoteExists` is the directory name joined with the
  last filename including its extension (core/note/create.go:159, 172).
- With no body template, the body is whatever `templ.NullRenderer` renders.
  Its code is not part of this model. It is modelled as always rendering the
  empty text, so a note created without a body template is empty. It is not
  the request's content.

One observation about the `jsonl` branch: once the checks pass, the footer is
already a newline, so setting it to a newline again changes nothing.
`AliasList.Run` states the resulting header, footer and delimiter for
`jsonl`.

## Model

| member | source | states |
|---|---|---|
| `Paths.Join` | core/note/create.go:160 | `filepath.Join` of two elements: an empty element is dropped, otherwise one separator joins them (`BaseOfJoin` states its base name) |
| `Paths.Base` | core/note/create.go:165 | `filepath.Base`: the last element after trailing separators are trimmed, "." for "" and "/" for separators only (`BaseIsOneElement`, `BaseOfJoin`) |
| `Paths.Ext` | core/note/create.go:166 | `filepath.Ext`: the suffix from the last dot of the last element (`ExtIsDottedSuffix`, `ExtOfDotted`) |
| `Paths.FilenameStem` | core/note/create.go:166 | `paths.FilenameStem`: the base name without its extension (`NoteFileNames`) |
| `Paths.TrimmedPrefix` | core/note/create.go:165 | trimming for `filepath.Base` removes only trailing separators and leaves no separator last |
| `Paths.LastElementIsFinalSegment` | core/note/create.go:165 | the last element is the separator-free suffix after the last separator |
| `Paths.BaseIsOneElement` | core/note/create.go:165 | a base name is never empty and is "/" or separator-free |
| `Paths.ExtIsDottedSuffix` | core/note/create.go:166 | an extension is a suffix of the path that starts with its only dot and holds no separator; it is empty exactly when the last element of the path has no dot |
| `Paths.BaseOfJoin` | core/note/create.go:160-165 | joining a non-empty separator-free name onto any directory gives that name back as the base name |
| `Paths.ExtOfDotted` | core/note/create.go:159-166 | "name.ext" with a dot-free, separator-free ext has extension ".ext" |
| `Paths.NoteFileNames` | core/note/create.go:159-166 | for a separator-free rendered name and a plain extension, the accepted path's Filename is "name.ext" and its FilenameStem is the rendered name |
| `Note.OrString` | core/note/create.go:122 | `opt.String.OrString`: a present option, even an empty one, is kept; an absent one becomes the alternative (`InitialContext` states the resulting title) |
| `Note.Unwrap` | core/note/create.go:122-123 | `opt.String.Unwrap`: the value of a present option, "" for an absent one |
| `Note.NullRenderer` | core/note/create.go:55 | the body renderer used without a body template renders every context to the empty text |
| `Note.Exists` | core/note/create.go:87 | `paths.Exists`: a path whose check fails gives a "stat" error, otherwise whether a file exists there (`ValidatePath` states its use) |
| `Note.NoteExistsMessageNamesPath` | core/note/create.go:30-39 | two `ErrNoteExists` messages are equal only when their paths are equal |
| `Note.ValidatePath` | core/note/create.go:86-89 | a path is free exactly when its existence check succeeds and finds nothing; when the check fails, its own error is returned |
| `Note.WriteString` | core/note/create.go:78-81 | a write either fails and changes nothing, or stores the content at the path and changes nothing else |
| `Note.InitialContext` | core/note/create.go:121-128 | title is the explicit title if given, else the default title; content is the given content or ""; directory name, extra fields, date and environment are copied; ID, Filename and FilenameStem start empty |
| `Note.TryAttempt` | core/note/create.go:152-168 | one attempt: a render error of the filename template is a render failure; otherwise the candidate is the directory path joined with the rendered name, "." and the extension, and the validator's error, "free" or "taken" on that candidate decides the attempt |
| `Note.Attempts` | core/note/create.go:151-174 | a run continued from attempt i ends with at least i and at most 50 identifiers drawn, and never with none (the lemmas below say which outcome each run has) |
| `Note.GenPath` | core/note/create.go:143-175 | `genPath`, the definition `create` uses: between 1 and 50 identifiers are drawn |
| `Note.NoteExistsMessage` | core/note/create.go:37-39 | the message of `ErrNoteExists` is its path followed by ": note already exists" |
| `Note.AttemptsTakenBeforeLast` | core/note/create.go:151-169 | every attempt before the last one of a run found its candidate taken |
| `Note.AttemptsLastDecides` | core/note/create.go:151-174 | the last attempt decides the outcome: its render error, its check error, its free path with Filename and FilenameStem set, or after all 50 attempts its taken candidate as `ErrNoteExists` |
| `Note.GenPathCharacterized` | core/note/create.go:143-175 | `genPath` draws between 1 and 50 identifiers, each attempt but the last was taken, and the last attempt decides the outcome |
| `Note.AcceptedPathIsFree` | core/note/create.go:161-167 | an accepted path is one the validator reported free; only Filename, FilenameStem and ID differ from the base context, and the first two are Base and FilenameStem of the path |
| `Note.ConstantCandidateExhausts` | core/note/create.go:151-174 | a filename template that ignores the identifier and yields a taken path makes `genPath` spend all 50 attempts and report that name and path |
| `Note.FirstRenderErrorStops` | core/note/create.go:154-157 | a render error on the first identifier ends `genPath` after one draw, whatever the validator would answer |
| `Note.GenPathLoop` | core/note/create.go:143-175 | the in-place loop gives the same outcome and number of draws as `GenPath`, accepts only a path the validator reported free, and calls the validator once per draw except on an attempt whose filename fails to render |
| `Note.CreateWithDeps` | core/note/create.go:117-141 | a failed `genPath` gives its error and the body template is not used; after an accepted path, a body-render error is returned as is and a rendered body gives the note at the accepted path; a created note's path is one the validator reported free |
| `Note.CreatedNoteBody` | core/note/create.go:130-140 | the body is what the body template rendered from the finalized context: the initial context with a drawn ID and the Filename and FilenameStem of the accepted path |
| `Note.CreateStopsOnGenFailure` | core/note/create.go:130-133 | when `genPath` fails, `create` returns its error and the body template is never consulted |
| `Note.ResolveBodyTemplate` | core/note/create.go:55-65 | no body template path means a renderer of the empty text; an unlocatable path gives the wrapped "<path>: cannot find template"; otherwise the result is the `LoadFile` renderer of the located file, or its error wrapped as "new note" |
| `Note.Create` | core/note/create.go:43-84 | a filename-template load error is returned unwrapped; a body-template resolution error is returned as resolved; a `create` error is returned wrapped as "new note" with no write; after `create` succeeds, the file is written with `create`'s body at `create`'s path and that path is returned, or the write error is returned wrapped with the file system unchanged; a success adds exactly one file, where nothing existed |
| `Note.CreateTemplateNotFound` | core/note/create.go:56-60 | a body template that cannot be located gives the wrapped "<path>: cannot find template" error and no write |
| `Note.CreateWithoutBodyTemplate` | core/note/create.go:55-83 | without a body template the written file is empty |
| `Note.CreateFirstAttempt` | core/note/create.go:43-84 | when the filename and body templates load, the file system is empty and the first identifier renders a separator-free name (with a dot-free, separator-free extension), dir/name.ext is accepted on the first attempt; the body template sees that identifier, filename "name.ext" and stem "name"; its text is written there, or its error is returned wrapped with no write |
| `Note.CreateReportsExistingNote` | core/note/create.go:67-76 | when both templates load and every identifier renders the same name, whose file exists and can be checked, `Create` fails with the wrapped `ErrNoteExists` carrying dir name/filename and that path, and writes nothing |
| `AliasConfig.JoinAppend` | internal/cli/cmd/config.go:62-71 | joining two non-empty runs of items puts exactly one delimiter between them |
| `AliasConfig.JoinLength` | internal/cli/cmd/config.go:62-71 | a listing of n items is as long as the items together plus n-1 delimiters |
| `AliasConfig.AliasList.WriteAliases` | internal/cli/cmd/config.go:58-76 | the pager receives the header, the `key=value` items with the delimiter between them and never before the first, then the footer |
| `AliasConfig.AliasList.Run` | internal/cli/cmd/config.go:25-85 | the three options are whitespace-expanded; JSON formats refuse a header, then a non-newline footer, then a non-newline delimiter; `json` sets `,` `[` `]\n`; `jsonl` leaves "", newline, newline; other formats keep the expanded values; with aliases the listing and the pager's result are returned; without, the notice appears unless quiet |
| `AliasConfig.AliasList.AliasTemplate` | internal/cli/cmd/config.go:87-104 | an empty format and `full` map to `{{name}} ({{note-count}})`; `json` and `jsonl` map to `{{json .}}`; `name` maps to `{{name}}`; any other format is whitespace-expanded |

## Left out

- The handlebars template engine and `templ.Loader`: foreign code. Renderers and loaders are arbitrary functions.
- `templ.NullRenderer`'s code is not part of this model. It is taken to render the empty text.
- `rand.NewIDGenerator` and its ID options: randomness. The identifiers are the function `genId` of the call index, which is exact because a fresh generator serves each note.
- `os.Env()` and `date.Provider`: process state and the clock. Both are parameters, and the date is an opaque integer.
- `Paths.Join`: Go's final `filepath.Clean` pass (dropping `.` and `..` elements and doubled separators) and Windows separators are not modelled.
- `paths.Exists`, `paths.WriteString` and `LocateTemplate`: file-system I/O. They are modelled by the file-system value and a function field; directory creation and partial writes are not modelled.
- The check-then-write race between `validatePath` and `WriteString`: concurrency, outside this sequential model.
- `Note.GenPathLoop` does not return the context on its error paths, because `create` never reads it there.
- `errors.Wrapperf` message formatting: only the "new note" tag and the wrapped cause are kept.
- In `AliasList.Run`: `container.Paginate` is reduced to receiving the listing and returning the given pager error. Whether a failing pager still runs the writer is not modelled.
- `fmt.Fprintf` to stderr and `strings.Pluralize`: I/O and text formatting. The notice is reduced to the alias count it reports.
- Go's map iteration order is unspecified, so the aliases arrive as a sequence in whatever order the map yields them. Distinct keys are not required.
- `strings.ExpandWhitespaceLiterals` is not part of this model. It is the parameter `expand`.
- The command-line flag parsing and the defaults coming from struct tags (`Config`, the `default:\n` tags) are left out: CLI glue.
