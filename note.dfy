/**
 * Creation of a new note (core/note/create.go): the render context given to
 * the templates, the bounded search for a free filename, the body rendering
 * and the top-level `Create`, which resolves the templates and writes the
 * file.
 *
 * The template engine, the identifier generator, the template locator and
 * the file system are collaborators; each is a parameter here.
 */
module Note {
  import opened Wrappers
  import Paths

  /** Number of candidate filenames tried before the note is reported as existing. */
  const MaxAttempts: nat := 50

  /** Contextual prefix that `Create` wraps around the errors it reports. */
  const WrapContext: string := "new note"

  /** Errors that reach the caller of `Create`. */
  datatype Error =
      /** An error raised by a collaborator: the template engine, the loader, or a formatted message. */
    | Failure(message: string)
      /** A file-system error on `path` during operation `op` ("stat", "open"). */
    | PathError(op: string, path: string)
      /** `ErrNoteExists`: every candidate filename was already taken. */
    | NoteExists(name: string, path: string)
      /** `errors.Wrapperf(context)` applied to `cause`. */
    | Wrapped(context: string, cause: Error)

  function Wrap(e: Error): Error
  {
    Wrapped(WrapContext, e)
  }

  /** `ErrNoteExists.Error()`. */
  function NoteExistsMessage(e: Error): (m: string)
    requires e.NoteExists?
    ensures |m| == |e.path| + |": note already exists"|
    ensures m[..|e.path|] == e.path && m[|e.path|..] == ": note already exists"
  {
    e.path + ": note already exists"
  }

  /** The message of an `ErrNoteExists` identifies the path it carries. */
  lemma NoteExistsMessageNamesPath(a: Error, b: Error)
    requires a.NoteExists? && b.NoteExists?
    requires NoteExistsMessage(a) == NoteExistsMessage(b)
    ensures a.path == b.path
  {
    assert |a.path| == |b.path|;
  }

  /** A `time.Time`; the model only passes it through to the templates. */
  type Instant = int

  /** `renderContext`: the placeholder values the filename and body templates may use. */
  datatype Context = Context(
    id: string,
    title: string,
    content: string,
    dir: string,
    filename: string,
    filenameStem: string,
    extra: map<string, string>,
    now: Instant,
    env: map<string, string>)

  /** `templ.Renderer`: renders a context to text, or fails. */
  type Renderer = Context -> Result<string, Error>

  /** `templ.NullRenderer`, the body renderer used when no body template is configured: always the empty text. */
  function NullRenderer(c: Context): Result<string, Error>
  {
    Ok("")
  }

  /** `opt.String.OrString`: the option itself when present, otherwise `alt`. */
  function OrString(o: Option<string>, alt: string): Option<string>
  {
    if o.Some? then o else Some(alt)
  }

  /** `opt.String.Unwrap`: the value, or "" when absent. */
  function Unwrap(o: Option<string>): string
  {
    if o.Some? then o.value else ""
  }

  /** The note part of a directory's configuration (`zk.NoteConfig`); ID options are the generator's concern. */
  datatype NoteConfig = NoteConfig(
    filenameTemplate: string,
    extension: string,
    bodyTemplatePath: Option<string>,
    defaultTitle: string)

  /** `zk.GroupConfig`: the configuration that applies to a directory. */
  datatype GroupConfig = GroupConfig(note: NoteConfig, extra: map<string, string>)

  /** `zk.Dir`: the parent directory of the new note, with its name relative to the notebook and its path. */
  datatype Dir = Dir(name: string, path: string, config: GroupConfig)

  /** `zk.Config`, reduced to `LocateTemplate`, which finds a template file in the template search locations. */
  datatype Config = Config(locateTemplate: string -> Option<string>)

  /** `CreateOpts`. */
  datatype CreateOpts = CreateOpts(config: Config, dir: Dir, title: Option<string>, content: Option<string>)

  /** `createdNote`: the accepted path and the rendered body. */
  datatype CreatedNote = CreatedNote(path: string, content: string)

  /**
   * The path functions `genPath` uses: `filepath.Join`, `filepath.Base` and
   * `paths.FilenameStem`. `Create` supplies the ones of module Paths.
   */
  datatype PathOps = PathOps(join: (string, string) -> string, base: string -> string, stem: string -> string)

  function StandardPaths(): PathOps
  {
    PathOps(Paths.Join, Paths.Base, Paths.FilenameStem)
  }

  /**
   * `createDeps`, with the path functions made explicit. `genId(i)` is the
   * identifier the generator gives on its i-th call (counting from 0); a
   * fresh generator is made for each note.
   */
  datatype CreateDeps = CreateDeps(
    filenameTemplate: Renderer,
    bodyTemplate: Renderer,
    genId: nat -> string,
    validatePath: string -> Result<bool, Error>,
    now: Instant,
    paths: PathOps)

  /** `templ.Loader`: `Load` parses a template given inline, `LoadFile` one read from a file. */
  datatype Loader = Loader(
    load: string -> Result<Renderer, Error>,
    loadFile: string -> Result<Renderer, Error>)

  /**
   * The file system as the note creation sees it: the existing files and
   * their contents, the paths whose existence cannot be checked, and the
   * paths that cannot be written.
   */
  datatype FileSystem = FileSystem(files: map<string, string>, unreadable: set<string>, unwritable: set<string>)

  /** A result together with the file system after the operation that produced it. */
  datatype Effect<+T> = Effect(result: Result<T, Error>, fs: FileSystem)

  /** `paths.Exists`. */
  function Exists(fs: FileSystem, path: string): Result<bool, Error>
  {
    if path in fs.unreadable then Err(PathError("stat", path)) else Ok(path in fs.files)
  }

  /** `validatePath`: a path is free when nothing exists there; a failed existence check is an error. */
  function ValidatePath(fs: FileSystem, path: string): (r: Result<bool, Error>)
    ensures r.Err? <==> path in fs.unreadable
    ensures r.Err? ==> r.error == Exists(fs, path).error
    ensures r == Ok(true) <==> path !in fs.unreadable && path !in fs.files
  {
    match Exists(fs, path)
    case Err(e) => Err(e)
    case Ok(present) => Ok(!present)
  }

  /** `paths.WriteString`: stores `content` at `path`, unless that path cannot be written. */
  function WriteString(fs: FileSystem, path: string, content: string): (r: Effect<()>)
    ensures r.result.Err? ==> r.fs == fs
    ensures r.result.Ok? ==> r.fs == fs.(files := fs.files[path := content])
  {
    if path in fs.unwritable then Effect(Err(PathError("open", path)), fs)
    else Effect(Ok(()), fs.(files := fs.files[path := content]))
  }

  // ---------------------------------------------------------------------
  // Render context

  /** `create`'s initial context: title and content resolved, no identifier and no filename yet. */
  function InitialContext(opts: CreateOpts, now: Instant, env: map<string, string>): (c: Context)
    ensures c.title == if opts.title.Some? then opts.title.value else opts.dir.config.note.defaultTitle
    ensures c.content == if opts.content.Some? then opts.content.value else ""
    ensures c.dir == opts.dir.name && c.extra == opts.dir.config.extra
    ensures c.now == now && c.env == env
    ensures c.id == "" && c.filename == "" && c.filenameStem == ""
  {
    Context(
      id := "",
      title := Unwrap(OrString(opts.title, opts.dir.config.note.defaultTitle)),
      content := Unwrap(opts.content),
      dir := opts.dir.name,
      filename := "",
      filenameStem := "",
      extra := opts.dir.config.extra,
      now := now,
      env := env)
  }

  // ---------------------------------------------------------------------
  // Filename generation

  /** The context the filename template sees on attempt `i`: the base context with the i-th identifier. */
  function AttemptContext(ctx: Context, deps: CreateDeps, i: nat): Context
  {
    ctx.(id := deps.genId(i))
  }

  /** The context of an accepted attempt: the filename and stem of the accepted path filled in. */
  function Finalize(c: Context, paths: PathOps, path: string): Context
  {
    c.(filename := paths.base(path), filenameStem := paths.stem(path))
  }

  /** What a single attempt of the filename loop observes. */
  datatype Trial =
    | RenderFailure(error: Error)
    | CheckFailure(path: string, error: Error)
    | Free(filename: string, path: string)
    | Taken(filename: string, path: string)

  /** Attempt `i`: draw the i-th identifier, render the filename, add the extension, join it to the directory, check it. */
  function TryAttempt(ctx: Context, dir: Dir, deps: CreateDeps, i: nat): (t: Trial)
    ensures var rendered := deps.filenameTemplate(AttemptContext(ctx, deps, i));
      && (t.RenderFailure? <==> rendered.Err?)
      && (t.RenderFailure? ==> t.error == rendered.error)
      && (!t.RenderFailure? ==> t.path == deps.paths.join(dir.path, rendered.value + "." + dir.config.note.extension))
      && (t.Free? || t.Taken? ==> t.filename == rendered.value + "." + dir.config.note.extension)
    ensures t.CheckFailure? <==> !t.RenderFailure? && deps.validatePath(t.path).Err?
    ensures t.CheckFailure? ==> deps.validatePath(t.path) == Err(t.error)
    ensures t.Free? <==> !t.RenderFailure? && deps.validatePath(t.path) == Ok(true)
    ensures t.Taken? <==> !t.RenderFailure? && deps.validatePath(t.path) == Ok(false)
  {
    match deps.filenameTemplate(AttemptContext(ctx, deps, i))
    case Err(e) => RenderFailure(e)
    case Ok(rendered) =>
      var filename := rendered + "." + dir.config.note.extension;
      var path := deps.paths.join(dir.path, filename);
      match deps.validatePath(path)
      case Err(e) => CheckFailure(path, e)
      case Ok(free) => if free then Free(filename, path) else Taken(filename, path)
  }

  /** How the filename loop ends. */
  datatype GenOutcome =
    | Accepted(path: string, context: Context)
    | RenderFailed(error: Error)
    | CheckFailed(error: Error)
    | Exhausted(name: string, path: string)

  /** The outcome of the loop and the number of identifiers it drew. */
  datatype GenRun = GenRun(outcome: GenOutcome, draws: nat)

  /** The error `genPath` returns for an outcome other than acceptance. */
  function GenError(o: GenOutcome): Error
    requires !o.Accepted?
  {
    match o
    case RenderFailed(e) => e
    case CheckFailed(e) => e
    case Exhausted(name, path) => NoteExists(name, path)
  }

  /**
   * The loop from attempt `i` on, where `filename` and `path` are the
   * candidate of the previous attempt (reported once the budget is spent).
   */
  function Attempts(ctx: Context, dir: Dir, deps: CreateDeps, i: nat, filename: string, path: string): (r: GenRun)
    requires i <= MaxAttempts
    ensures i <= r.draws <= MaxAttempts && 0 < r.draws
    decreases MaxAttempts - i
  {
    if i == MaxAttempts then GenRun(Exhausted(deps.paths.join(dir.name, filename), path), i)
    else
      match TryAttempt(ctx, dir, deps, i)
      case RenderFailure(e) => GenRun(RenderFailed(e), i + 1)
      case CheckFailure(_, e) => GenRun(CheckFailed(e), i + 1)
      case Free(_, p) => GenRun(Accepted(p, Finalize(AttemptContext(ctx, deps, i), deps.paths, p)), i + 1)
      case Taken(f, p) => Attempts(ctx, dir, deps, i + 1, f, p)
  }

  /** `genPath` as a value: the search for a free path, from an immutable base context. */
  function GenPath(ctx: Context, dir: Dir, deps: CreateDeps): (r: GenRun)
    ensures 1 <= r.draws <= MaxAttempts
  {
    Attempts(ctx, dir, deps, 0, "", "")
  }

  /** One step of the loop: what attempt `i` observes decides the rest of the run. */
  lemma AttemptsStep(ctx: Context, dir: Dir, deps: CreateDeps, i: nat, filename: string, path: string)
    requires i < MaxAttempts
    ensures var t := TryAttempt(ctx, dir, deps, i);
      var r := Attempts(ctx, dir, deps, i, filename, path);
      && (t.RenderFailure? ==> r == GenRun(RenderFailed(t.error), i + 1))
      && (t.CheckFailure? ==> r == GenRun(CheckFailed(t.error), i + 1))
      && (t.Free? ==> r == GenRun(Accepted(t.path, Finalize(AttemptContext(ctx, deps, i), deps.paths, t.path)), i + 1))
      && (t.Taken? ==> r == Attempts(ctx, dir, deps, i + 1, t.filename, t.path))
  {
  }

  /**
   * The outcome of a run is the one its last attempt calls for: that
   * attempt's render error or check error, its free path with the
   * finalized context, or, after the whole budget, its taken candidate.
   */
  predicate LastAttemptDecides(ctx: Context, dir: Dir, deps: CreateDeps, r: GenRun)
    requires 1 <= r.draws
  {
    var last := TryAttempt(ctx, dir, deps, r.draws - 1);
    match r.outcome
    case Accepted(p, c) => last.Free? && p == last.path && c == Finalize(AttemptContext(ctx, deps, r.draws - 1), deps.paths, p)
    case RenderFailed(e) => last == RenderFailure(e)
    case CheckFailed(e) => last.CheckFailure? && last.error == e
    case Exhausted(n, p) => r.draws == MaxAttempts && last.Taken? && n == deps.paths.join(dir.name, last.filename) && p == last.path
  }

  /** From attempt `i` on, every attempt before the last one of the run found its candidate taken. */
  lemma {:induction false} AttemptsTakenBeforeLast(ctx: Context, dir: Dir, deps: CreateDeps, i: nat, filename: string, path: string)
    requires i <= MaxAttempts
    ensures var r := Attempts(ctx, dir, deps, i, filename, path);
      forall j :: i <= j < r.draws - 1 ==> TryAttempt(ctx, dir, deps, j).Taken?
    decreases MaxAttempts - i
  {
    if i < MaxAttempts {
      AttemptsStep(ctx, dir, deps, i, filename, path);
      var t := TryAttempt(ctx, dir, deps, i);
      if t.Taken? {
        AttemptsTakenBeforeLast(ctx, dir, deps, i + 1, t.filename, t.path);
      }
    }
  }

  /** From attempt `i` on, the last attempt of the run decides its outcome. */
  lemma {:induction false} AttemptsLastDecides(ctx: Context, dir: Dir, deps: CreateDeps, i: nat, filename: string, path: string)
    requires i <= MaxAttempts
    requires i == MaxAttempts ==> i > 0 && TryAttempt(ctx, dir, deps, i - 1) == Taken(filename, path)
    ensures LastAttemptDecides(ctx, dir, deps, Attempts(ctx, dir, deps, i, filename, path))
    decreases MaxAttempts - i
  {
    if i < MaxAttempts {
      AttemptsStep(ctx, dir, deps, i, filename, path);
      var t := TryAttempt(ctx, dir, deps, i);
      if t.Taken? {
        AttemptsLastDecides(ctx, dir, deps, i + 1, t.filename, t.path);
      }
    }
  }

  /**
   * `genPath` draws between 1 and 50 identifiers; every attempt but the last
   * found its candidate taken, and the last attempt gives the outcome:
   * a render error or a failed check is returned as is, a free path is
   * accepted with its filename and stem set, and after 50 taken candidates
   * the last one is reported as `ErrNoteExists`.
   */
  lemma GenPathCharacterized(ctx: Context, dir: Dir, deps: CreateDeps)
    ensures var r := GenPath(ctx, dir, deps);
      && 1 <= r.draws <= MaxAttempts
      && (forall j :: 0 <= j < r.draws - 1 ==> TryAttempt(ctx, dir, deps, j).Taken?)
      && LastAttemptDecides(ctx, dir, deps, r)
  {
    AttemptsTakenBeforeLast(ctx, dir, deps, 0, "", "");
    AttemptsLastDecides(ctx, dir, deps, 0, "", "");
  }

  /** An accepted path is one the validator reported free, and the context carries its base name and stem. */
  lemma AcceptedPathIsFree(ctx: Context, dir: Dir, deps: CreateDeps, path: string, final: Context)
    requires GenPath(ctx, dir, deps).outcome == Accepted(path, final)
    ensures deps.validatePath(path) == Ok(true)
    ensures final.filename == deps.paths.base(path) && final.filenameStem == deps.paths.stem(path)
    ensures final.(id := ctx.id, filename := ctx.filename, filenameStem := ctx.filenameStem) == ctx
  {
    GenPathCharacterized(ctx, dir, deps);
  }

  /**
   * When the filename template ignores the identifier and its one candidate
   * is taken, the loop spends all 50 attempts and reports that candidate.
   */
  lemma ConstantCandidateExhausts(ctx: Context, dir: Dir, deps: CreateDeps, rendered: string)
    requires forall i: nat :: deps.filenameTemplate(AttemptContext(ctx, deps, i)) == Ok(rendered)
    requires deps.validatePath(deps.paths.join(dir.path, rendered + "." + dir.config.note.extension)) == Ok(false)
    ensures var filename := rendered + "." + dir.config.note.extension;
      GenPath(ctx, dir, deps) == GenRun(Exhausted(deps.paths.join(dir.name, filename), deps.paths.join(dir.path, filename)), MaxAttempts)
  {
    GenPathCharacterized(ctx, dir, deps);
    var r := GenPath(ctx, dir, deps);
    assert deps.filenameTemplate(AttemptContext(ctx, deps, r.draws - 1)) == Ok(rendered);
  }

  /**
   * A filename template that fails on the first identifier stops the loop
   * at once, whatever the validator would have said.
   */
  lemma FirstRenderErrorStops(ctx: Context, dir: Dir, deps: CreateDeps, e: Error, validate: string -> Result<bool, Error>)
    requires deps.filenameTemplate(AttemptContext(ctx, deps, 0)) == Err(e)
    ensures GenPath(ctx, dir, deps) == GenRun(RenderFailed(e), 1)
    ensures GenPath(ctx, dir, deps.(validatePath := validate)) == GenRun(RenderFailed(e), 1)
  {
  }

  /**
   * `genPath` (core/note/create.go:143-175): the counted loop that reassigns
   * the context's identifier, the filename and the path on each attempt.
   * `draws` counts the identifiers drawn and `checks` the calls to the
   * validator: one per drawn identifier, except on an attempt whose
   * filename fails to render.
   */
  method GenPathLoop(ctx: Context, dir: Dir, deps: CreateDeps)
    returns (outcome: GenOutcome, ghost draws: nat, ghost checks: nat)
    ensures GenPath(ctx, dir, deps) == GenRun(outcome, draws)
    ensures outcome.Accepted? ==> deps.validatePath(outcome.path) == Ok(true)
    ensures checks == if outcome.RenderFailed? then draws - 1 else draws
  {
    var context := ctx;
    var filename := "";
    var path := "";
    checks := 0;
    for i := 0 to MaxAttempts
      invariant i == 0 ==> context == ctx
      invariant i > 0 ==> context == AttemptContext(ctx, deps, i - 1)
      invariant Attempts(ctx, dir, deps, 0, "", "") == Attempts(ctx, dir, deps, i, filename, path)
      invariant checks == i
    {
      context := context.(id := deps.genId(i));
      assert context == AttemptContext(ctx, deps, i);
      ghost var trial := TryAttempt(ctx, dir, deps, i);
      AttemptsStep(ctx, dir, deps, i, filename, path);
      var rendered := deps.filenameTemplate(context);
      if rendered.Err? {
        assert trial == RenderFailure(rendered.error);
        outcome, draws := RenderFailed(rendered.error), i + 1;
        return;
      }
      filename := rendered.value + "." + dir.config.note.extension;
      path := deps.paths.join(dir.path, filename);
      var valid := deps.validatePath(path);
      checks := checks + 1;
      if valid.Err? {
        assert trial == CheckFailure(path, valid.error);
        outcome, draws := CheckFailed(valid.error), i + 1;
        return;
      } else if valid.value {
        assert trial == Free(filename, path);
        context := context.(filename := deps.paths.base(path), filenameStem := deps.paths.stem(path));
        outcome, draws := Accepted(path, context), i + 1;
        return;
      }
      assert trial == Taken(filename, path);
    }
    outcome, draws := Exhausted(deps.paths.join(dir.name, filename), path), MaxAttempts;
  }

  // ---------------------------------------------------------------------
  // Note assembly

  /**
   * `create`: build the context, find a free path, then render the body
   * with the finalized context. Errors are propagated unchanged: a failed
   * search gives its error and the body template is not used; after an
   * accepted path, a body-render error is returned as is, and a rendered
   * body makes the note at the accepted path.
   */
  function CreateWithDeps(opts: CreateOpts, deps: CreateDeps, env: map<string, string>): (r: Result<CreatedNote, Error>)
    ensures r.Ok? ==> deps.validatePath(r.value.path) == Ok(true)
    ensures var run := GenPath(InitialContext(opts, deps.now, env), opts.dir, deps);
      && (!run.outcome.Accepted? ==> r == Err(GenError(run.outcome)))
      && (run.outcome.Accepted? && deps.bodyTemplate(run.outcome.context).Err? ==>
            r == Err(deps.bodyTemplate(run.outcome.context).error))
      && (run.outcome.Accepted? && deps.bodyTemplate(run.outcome.context).Ok? ==>
            r == Ok(CreatedNote(run.outcome.path, deps.bodyTemplate(run.outcome.context).value)))
  {
    var context := InitialContext(opts, deps.now, env);
    var run := GenPath(context, opts.dir, deps);
    match run.outcome
    case Accepted(path, final) =>
      AcceptedPathIsFree(context, opts.dir, deps, path, final);
      (match deps.bodyTemplate(final)
       case Err(e) => Err(e)
       case Ok(content) => Ok(CreatedNote(path, content)))
    case _ => Err(GenError(run.outcome))
  }

  /**
   * A created note's body is what the body template rendered from the
   * finalized context: the initial context with one of the drawn
   * identifiers and the filename and stem of the accepted path.
   */
  lemma CreatedNoteBody(opts: CreateOpts, deps: CreateDeps, env: map<string, string>, note: CreatedNote)
    requires CreateWithDeps(opts, deps, env) == Ok(note)
    ensures var k := GenPath(InitialContext(opts, deps.now, env), opts.dir, deps).draws - 1;
      var final := Finalize(AttemptContext(InitialContext(opts, deps.now, env), deps, k), deps.paths, note.path);
      && 0 <= k < MaxAttempts
      && deps.bodyTemplate(final) == Ok(note.content)
      && final.filename == deps.paths.base(note.path) && final.filenameStem == deps.paths.stem(note.path)
      && TryAttempt(InitialContext(opts, deps.now, env), opts.dir, deps, k).Free?
      && TryAttempt(InitialContext(opts, deps.now, env), opts.dir, deps, k).path == note.path
  {
    var ctx := InitialContext(opts, deps.now, env);
    GenPathCharacterized(ctx, opts.dir, deps);
    var run := GenPath(ctx, opts.dir, deps);
    var k := run.draws - 1;
  }

  /**
   * When the filename loop fails, `create` reports its error and the body
   * template is never consulted: any other body template gives the same result.
   */
  lemma CreateStopsOnGenFailure(opts: CreateOpts, deps: CreateDeps, env: map<string, string>, body: Renderer, failure: GenOutcome)
    requires GenPath(InitialContext(opts, deps.now, env), opts.dir, deps).outcome == failure
    requires !failure.Accepted?
    ensures CreateWithDeps(opts, deps, env) == Err(GenError(failure))
    ensures CreateWithDeps(opts, deps.(bodyTemplate := body), env) == CreateWithDeps(opts, deps, env)
  {
    var deps' := deps.(bodyTemplate := body);
    var ctx := InitialContext(opts, deps.now, env);
    AttemptsAgreeWithoutBody(ctx, opts.dir, deps, body, 0, "", "");
  }

  /** The filename loop does not depend on the body template. */
  lemma {:induction false} AttemptsAgreeWithoutBody(ctx: Context, dir: Dir, deps: CreateDeps, body: Renderer, i: nat, filename: string, path: string)
    requires i <= MaxAttempts
    ensures Attempts(ctx, dir, deps.(bodyTemplate := body), i, filename, path) == Attempts(ctx, dir, deps, i, filename, path)
    decreases MaxAttempts - i
  {
    var deps' := deps.(bodyTemplate := body);
    if i < MaxAttempts {
      assert AttemptContext(ctx, deps', i) == AttemptContext(ctx, deps, i);
      assert TryAttempt(ctx, dir, deps', i) == TryAttempt(ctx, dir, deps, i);
      match TryAttempt(ctx, dir, deps, i)
      case Taken(f, p) => AttemptsAgreeWithoutBody(ctx, dir, deps, body, i + 1, f, p);
      case _ =>
    }
  }

  /**
   * The body renderer `Create` uses: `NullRenderer` when no body template
   * path is configured, otherwise the located and loaded template file. A
   * path that cannot be located is "cannot find template"; a load error is
   * returned wrapped.
   */
  function ResolveBodyTemplate(opts: CreateOpts, loader: Loader): (r: Result<Renderer, Error>)
    ensures Unwrap(opts.dir.config.note.bodyTemplatePath) == "" ==> r.Ok? && forall c :: r.value(c) == Ok("")
    ensures r.Err? ==> r.error.Wrapped? && r.error.context == WrapContext
    ensures var t := Unwrap(opts.dir.config.note.bodyTemplatePath);
      var located := opts.config.locateTemplate(t);
      && (t != "" && located.None? ==> r == Err(Wrap(Failure(t + ": cannot find template"))))
      && (t != "" && located.Some? && loader.loadFile(located.value).Err? ==>
            r == Err(Wrap(loader.loadFile(located.value).error)))
      && (t != "" && located.Some? && loader.loadFile(located.value).Ok? ==>
            r == Ok(loader.loadFile(located.value).value))
  {
    var templatePath := Unwrap(opts.dir.config.note.bodyTemplatePath);
    if templatePath == "" then Ok(NullRenderer)
    else
      match opts.config.locateTemplate(templatePath)
      case None => Err(Wrap(Failure(templatePath + ": cannot find template")))
      case Some(absPath) =>
        match loader.loadFile(absPath)
        case Err(e) => Err(Wrap(e))
        case Ok(template) => Ok(template)
  }

  /** The dependencies `Create` hands to `create`: its templates, the identifiers, the file-system check, the date. */
  function Deps(filenameTemplate: Renderer, bodyTemplate: Renderer, fs: FileSystem, ids: nat -> string, now: Instant): CreateDeps
  {
    CreateDeps(filenameTemplate, bodyTemplate, ids, p => ValidatePath(fs, p), now, StandardPaths())
  }

  /**
   * `Create`: resolve both templates, create the note in memory, and only
   * then write it. A failure leaves the file system as it was; a success
   * adds one file at a path where nothing existed. Every error except a
   * failure to load the filename template is wrapped as "new note".
   */
  function Create(opts: CreateOpts, loader: Loader, fs: FileSystem, ids: nat -> string, now: Instant, env: map<string, string>): (r: Effect<string>)
    ensures r.result.Err? ==> r.fs == fs
    ensures r.result.Ok? ==> var p := r.result.value;
      && p !in fs.files && p !in fs.unreadable && p !in fs.unwritable
      && p in r.fs.files && r.fs == fs.(files := fs.files[p := r.fs.files[p]])
    ensures loader.load(opts.dir.config.note.filenameTemplate).Err? ==>
      r.result == Err(loader.load(opts.dir.config.note.filenameTemplate).error)
    ensures loader.load(opts.dir.config.note.filenameTemplate).Ok? && r.result.Err? ==>
      r.result.error.Wrapped? && r.result.error.context == WrapContext
    ensures var ft := loader.load(opts.dir.config.note.filenameTemplate);
      var bt := ResolveBodyTemplate(opts, loader);
      ft.Ok? && bt.Err? ==> r == Effect(Err(bt.error), fs)
    ensures var ft := loader.load(opts.dir.config.note.filenameTemplate);
      var bt := ResolveBodyTemplate(opts, loader);
      ft.Ok? && bt.Ok? ==>
        var c := CreateWithDeps(opts, Deps(ft.value, bt.value, fs, ids, now), env);
        && (c.Err? ==> r == Effect(Err(Wrap(c.error)), fs))
        && (c.Ok? && c.value.path in fs.unwritable ==>
              r == Effect(Err(Wrap(PathError("open", c.value.path))), fs))
        && (c.Ok? && c.value.path !in fs.unwritable ==>
              r == Effect(Ok(c.value.path), fs.(files := fs.files[c.value.path := c.value.content])))
  {
    match loader.load(opts.dir.config.note.filenameTemplate)
    case Err(e) => Effect(Err(e), fs)
    case Ok(filenameTemplate) =>
      match ResolveBodyTemplate(opts, loader)
      case Err(e) => Effect(Err(e), fs)
      case Ok(bodyTemplate) =>
        match CreateWithDeps(opts, Deps(filenameTemplate, bodyTemplate, fs, ids, now), env)
        case Err(e) => Effect(Err(Wrap(e)), fs)
        case Ok(note) =>
          var written := WriteString(fs, note.path, note.content);
          if written.result.Err? then Effect(Err(Wrap(written.result.error)), written.fs)
          else Effect(Ok(note.path), written.fs)
  }

  /** A configured body template that cannot be located stops `Create` with "cannot find template", before any write. */
  lemma CreateTemplateNotFound(opts: CreateOpts, loader: Loader, fs: FileSystem, ids: nat -> string, now: Instant, env: map<string, string>)
    requires loader.load(opts.dir.config.note.filenameTemplate).Ok?
    requires Unwrap(opts.dir.config.note.bodyTemplatePath) != ""
    requires opts.config.locateTemplate(Unwrap(opts.dir.config.note.bodyTemplatePath)).None?
    ensures var templatePath := Unwrap(opts.dir.config.note.bodyTemplatePath);
      Create(opts, loader, fs, ids, now, env) == Effect(Err(Wrap(Failure(templatePath + ": cannot find template"))), fs)
  {
  }

  /** Without a body template, a created note's file holds the empty text. */
  lemma CreateWithoutBodyTemplate(opts: CreateOpts, loader: Loader, fs: FileSystem, ids: nat -> string, now: Instant, env: map<string, string>)
    requires Unwrap(opts.dir.config.note.bodyTemplatePath) == ""
    ensures var r := Create(opts, loader, fs, ids, now, env);
      r.result.Ok? ==> r.fs.files == fs.files[r.result.value := ""]
  {
  }

  /**
   * With an empty directory and a filename template that renders a plain
   * name from the first identifier, `Create` accepts dir/name.ext on the
   * first attempt. The body template sees the first identifier, the
   * filename "name.ext" and the stem "name"; what it renders is written
   * there, and a body-render error is returned wrapped, with no write.
   */
  lemma CreateFirstAttempt(opts: CreateOpts, loader: Loader, fs: FileSystem, ids: nat -> string, now: Instant, env: map<string, string>, name: string)
    requires loader.load(opts.dir.config.note.filenameTemplate).Ok?
    requires ResolveBodyTemplate(opts, loader).Ok?
    requires loader.load(opts.dir.config.note.filenameTemplate).value(InitialContext(opts, now, env).(id := ids(0))) == Ok(name)
    requires Paths.Separator !in name
    requires '.' !in opts.dir.config.note.extension && Paths.Separator !in opts.dir.config.note.extension
    requires fs.files == map[] && fs.unreadable == {} && fs.unwritable == {}
    ensures var filename := name + "." + opts.dir.config.note.extension;
      var path := Paths.Join(opts.dir.path, filename);
      var final := InitialContext(opts, now, env).(id := ids(0), filename := filename, filenameStem := name);
      var body := ResolveBodyTemplate(opts, loader).value(final);
      var r := Create(opts, loader, fs, ids, now, env);
      && (body.Ok? ==> r == Effect(Ok(path), fs.(files := map[path := body.value])))
      && (body.Err? ==> r == Effect(Err(Wrap(body.error)), fs))
  {
    var filename := name + "." + opts.dir.config.note.extension;
    var path := Paths.Join(opts.dir.path, filename);
    Paths.NoteFileNames(opts.dir.path, name, opts.dir.config.note.extension);
    var deps := Deps(loader.load(opts.dir.config.note.filenameTemplate).value, ResolveBodyTemplate(opts, loader).value, fs, ids, now);
    var ctx := InitialContext(opts, now, env);
    assert AttemptContext(ctx, deps, 0) == ctx.(id := ids(0));
    assert TryAttempt(ctx, opts.dir, deps, 0) == Free(filename, path);
    assert GenPath(ctx, opts.dir, deps).outcome == Accepted(path, ctx.(id := ids(0), filename := filename, filenameStem := name));
  }

  /**
   * When both templates load, every identifier renders to the same name and
   * that file already exists and can be checked, `Create` fails after 50
   * attempts with a wrapped `ErrNoteExists` naming the file, and writes nothing.
   */
  lemma CreateReportsExistingNote(opts: CreateOpts, loader: Loader, fs: FileSystem, ids: nat -> string, now: Instant, env: map<string, string>, name: string)
    requires loader.load(opts.dir.config.note.filenameTemplate).Ok?
    requires ResolveBodyTemplate(opts, loader).Ok?
    requires forall i: nat :: loader.load(opts.dir.config.note.filenameTemplate).value(InitialContext(opts, now, env).(id := ids(i))) == Ok(name)
    requires var path := Paths.Join(opts.dir.path, name + "." + opts.dir.config.note.extension);
      path in fs.files && path !in fs.unreadable
    ensures var filename := name + "." + opts.dir.config.note.extension;
      Create(opts, loader, fs, ids, now, env)
        == Effect(Err(Wrap(NoteExists(Paths.Join(opts.dir.name, filename), Paths.Join(opts.dir.path, filename)))), fs)
  {
    var deps := Deps(loader.load(opts.dir.config.note.filenameTemplate).value, ResolveBodyTemplate(opts, loader).value, fs, ids, now);
    var ctx := InitialContext(opts, now, env);
    forall i: nat ensures deps.filenameTemplate(AttemptContext(ctx, deps, i)) == Ok(name) {
      assert AttemptContext(ctx, deps, i) == ctx.(id := ids(i));
    }
    ConstantCandidateExhausts(ctx, opts.dir, deps, name);
  }
}
