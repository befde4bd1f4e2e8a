/** The router's credential file and its cache (`services/anila-core-router/main.py`).

    Reading and `stat` of the file are one step.  The file is changed by others between
    steps; content never changes without the modification time changing.  */
module RouterCredential {
  import opened Basics
  import opened PythonText

  datatype Source = FromFile | FileMissing | FileError | NoSource

  /** What the path shows: no path configured, nothing there, something that is not a
      regular file, or a regular file that may refuse to be read. */
  datatype File = NoPath | Absent | NotRegular | Regular(content: string, mtime: nat, readable: bool)

  datatype Cache = Cache(token: string, source: Source, mtime: Option<nat>, published: Option<string>)

  const EMPTY := Cache("", NoSource, None, None)

  /** `_load_service_token` */
  function Load(f: File): (string, Source) {
    match f
    case NoPath => ("", NoSource)
    case Absent => ("", FileMissing)
    case NotRegular => ("", FileError)
    case Regular(content, _, readable) =>
      if !readable || Strip(content) == "" then ("", FileError) else (Strip(content), FromFile)
  }

  /** `_remember_file_mtime` */
  function Mtime(f: File): Option<nat> {
    if f.Regular? then Some(f.mtime) else None
  }

  /** `_publish_service_token` */
  function Published(token: string, source: Source, f: File): Cache {
    Cache(token, source, Mtime(f), if token == "" then None else Some(token))
  }

  /** The early return of `_reload_service_token`. */
  predicate Skips(c: Cache, f: File, force: bool) {
    !force && !c.source.FileError? && !c.source.FileMissing? && f.Regular? && c.mtime == Some(f.mtime)
  }

  function Reload(c: Cache, f: File, force: bool): Cache {
    if Skips(c, f, force) then c
    else
      var (token, source) := Load(f);
      if token == c.token && source == c.source then c.(mtime := Mtime(f)) else Published(token, source, f)
  }

  /** The module globals and the functions that update them. */
  class Globals {
    var serviceToken: string
    var tokenSource: Source
    var fileMtime: Option<nat>
    var setting: Option<string>

    constructor ()
      ensures State() == EMPTY
    {
      serviceToken, tokenSource, fileMtime, setting := "", NoSource, None, None;
    }

    function State(): Cache
      reads this
    {
      Cache(serviceToken, tokenSource, fileMtime, setting)
    }

    method LoadServiceToken(f: File) returns (token: string, source: Source)
      ensures (token, source) == Load(f)
    {
      match f
      case NoPath => return "", NoSource;
      case Absent => return "", FileMissing;
      case NotRegular => return "", FileError;
      case Regular(content, _, readable) =>
        if !readable {
          return "", FileError;
        }
        token := Strip(content);
        if token == "" {
          return "", FileError;
        }
        return token, FromFile;
    }

    method RememberFileMtime(f: File)
      modifies this`fileMtime
      ensures State() == old(State()).(mtime := Mtime(f))
    {
      fileMtime := if f.Regular? then Some(f.mtime) else None;
    }

    method PublishServiceToken(token: string, source: Source, f: File)
      modifies this
      ensures State() == Published(token, source, f)
    {
      serviceToken := token;
      tokenSource := source;
      setting := if token == "" then None else Some(token);
      RememberFileMtime(f);
    }

    method ReloadServiceToken(f: File, force: bool)
      modifies this
      ensures State() == Reload(old(State()), f, force)
    {
      if !force && f != NoPath && tokenSource != FileError && tokenSource != FileMissing {
        if f.Regular? && fileMtime == Some(f.mtime) {
          return;
        }
      }
      var token, source := LoadServiceToken(f);
      if token == serviceToken && source == tokenSource {
        RememberFileMtime(f);
        return;
      }
      PublishServiceToken(token, source, f);
    }
  }

  /** What loading gives for each state of the file: a token exactly from a readable regular
      file with something other than whitespace in it, and that without the whitespace around. */
  lemma LoadIs(f: File)
    ensures var (token, source) := Load(f);
            && (source.NoSource? <==> f.NoPath?) && (source.FileMissing? <==> f.Absent?)
            && (source.FromFile? <==> f.Regular? && f.readable && !AllSpace(f.content))
            && (source.FromFile? <==> token != "")
            && (source.FromFile? ==> StripsTo(f.content, token))
  {
    if f.Regular? {
      StripIs(f.content);
      StripBlankIff(f.content);
    }
  }

  // ---------------------------------------------------------------- runs

  /** `versions` is history: the content each modification time stood for. */
  datatype State = State(file: File, versions: map<nat, string>, cache: Cache)

  datatype Event = FileChanges(to: File) | Reloads(force: bool)

  function Apply(s: State, e: Event): State {
    match e
    case Reloads(force) => s.(cache := Reload(s.cache, s.file, force))
    case FileChanges(to) =>
      if !to.Regular? then s.(file := to)
      else if to.mtime in s.versions && s.versions[to.mtime] != to.content then s
      else s.(file := to, versions := s.versions[to.mtime := to.content])
  }

  function Run(s: State, es: seq<Event>): State
    decreases |es|
  {
    if es == [] then s else Run(Apply(s, es[0]), es[1..])
  }

  /** Start-up: `_initialise_token_source` publishes what it loads. */
  function Start(f: File): State {
    State(f, if f.Regular? then map[f.mtime := f.content] else map[], Published(Load(f).0, Load(f).1, f))
  }

  ghost predicate Inv(s: State) {
    var c := s.cache;
    && (s.file.Regular? ==> s.file.mtime in s.versions && s.versions[s.file.mtime] == s.file.content)
    && (c.source.FromFile? <==> c.token != "")
    && (c.source.FromFile? ==> c.mtime.Some? && c.mtime.value in s.versions && c.token == Strip(s.versions[c.mtime.value]))
    && c.published == (if c.token == "" then None else Some(c.token))
  }

  lemma InvApply(s: State, e: Event)
    requires Inv(s)
    ensures Inv(Apply(s, e))
  {
  }

  lemma {:induction false} InvRun(s: State, es: seq<Event>)
    requires Inv(s)
    ensures Inv(Run(s, es))
    decreases |es|
  {
    if es != [] {
      InvApply(s, es[0]);
      InvRun(Apply(s, es[0]), es[1..]);
    }
  }

  /** In every run: the source is `file` iff there is a token; such a token is the stripped
      content of the version with the remembered modification time; and the setting that
      other code reads agrees with it. */
  lemma TokenIsAVersionOfTheFile(f: File, es: seq<Event>)
    ensures var s := Run(Start(f), es);
            var c := s.cache;
            && (c.source.FromFile? <==> c.token != "")
            && (c.token != "" ==> c.mtime.Some? && c.mtime.value in s.versions && StripsTo(s.versions[c.mtime.value], c.token))
            && c.published == (if c.token == "" then None else Some(c.token))
  {
    InvRun(Start(f), es);
    var s := Run(Start(f), es);
    if s.cache.token != "" { StripIs(s.versions[s.cache.mtime.value]); }
  }

  /** When a reload brings the cache up to what the file says: always, except that a token
      already read from the file is kept while the same version has become unreadable. */
  lemma ReloadRefinesIff(f: File, es: seq<Event>, force: bool)
    ensures var s := Run(Start(f), es);
            var z := Apply(s, Reloads(force));
            (z.cache.token, z.cache.source) == Load(s.file) <==>
              !(!force && s.cache.source.FromFile? && s.file.Regular? && !s.file.readable && s.cache.mtime == Some(s.file.mtime))
  {
    InvRun(Start(f), es);
    var s := Run(Start(f), es);
    if Skips(s.cache, s.file, force) && s.cache.source.NoSource? {
      NoSourceNoMtime(f, es);
    }
  }

  /** A run in which a token stays in use though its file can no longer be read. */
  lemma UnreadableTokenKept()
    ensures var s := Run(Start(Regular("t", 1, true)), [FileChanges(Regular("t", 1, false)), Reloads(false)]);
            s.cache.token == "t" && s.cache.source == FromFile && Load(s.file) == ("", FileError)
  {
    var s0 := Start(Regular("t", 1, true));
    assert Strip("t") == "t";
    var s1 := Apply(s0, FileChanges(Regular("t", 1, false)));
    assert Run(s1, [Reloads(false)]) == Run(Apply(s1, Reloads(false)), []);
  }

  ghost predicate Quiet(s: State) {
    s.cache.source.NoSource? ==> s.cache.mtime.None?
  }

  lemma {:induction false} QuietRun(s: State, es: seq<Event>)
    requires Quiet(s)
    ensures Quiet(Run(s, es))
    decreases |es|
  {
    if es != [] { QuietRun(Apply(s, es[0]), es[1..]); }
  }

  lemma NoSourceNoMtime(f: File, es: seq<Event>)
    ensures Quiet(Run(Start(f), es))
  {
    QuietRun(Start(f), es);
  }

  /** `file_error` and `file_missing` recover on the next reload, even when the modification
      time did not move. */
  lemma FailuresRecover(f: File, es: seq<Event>)
    requires var c := Run(Start(f), es).cache; c.source.FileError? || c.source.FileMissing?
    ensures var s := Run(Start(f), es);
            var z := Apply(s, Reloads(false));
            (z.cache.token, z.cache.source) == Load(s.file) && z.cache.mtime == Mtime(s.file)
  {
  }
}
