/**
 * The elevated worker launch: the command line the launcher page hands to a second, elevated copy of
 * itself (`download` or `repair`, the biz, the quoted install folder and the voice-language number,
 * with a trailing space), and the choice of executable for it.
 */
module WorkerLaunch {
  import opened Wrappers
  import opened GameBizes
  import opened Decimal

  datatype WorkerVerb = Download | Repair

  function VerbWord(verb: WorkerVerb): string {
    match verb
    case Download => "download"
    case Repair => "repair"
  }

  function ParseVerb(word: string): (r: Option<WorkerVerb>)
    ensures r.Some? ==> VerbWord(r.value) == word
  {
    if word == "download" then Some(Download)
    else if word == "repair" then Some(Repair)
    else None
  }

  /**
   * `{verb} --biz {biz} --loc "{path}" --lang {(int)lang} `. A missing install path prints as
   * nothing, so callers pass the empty string for it.
   */
  function WorkerArguments(verb: WorkerVerb, biz: GameBiz, loc: string, language: int): (args: string)
    ensures VerbWord(verb) + " " <= args
    ensures args[|args| - 1] == ' '
  {
    VerbWord(verb) + " --biz " + Name(biz) + " --loc \"" + loc + "\" --lang " + IntToString(language) + " "
  }

  /** What a worker reads back from its command line. */
  datatype WorkerCommand = WorkerCommand(verb: WorkerVerb, biz: string, loc: string, language: int)

  /** Splits at the first occurrence of `c`. */
  function SplitAtFirst(s: string, c: char): (r: Option<(string, string)>)
    ensures r.Some? ==> s == r.value.0 + [c] + r.value.1 && c !in r.value.0
    ensures r.None? ==> c !in s
    decreases |s|
  {
    if s == [] then None
    else if s[0] == c then Some(([], s[1..]))
    else
      match SplitAtFirst(s[1..], c)
      case None => None
      case Some(p) => Some(([s[0]] + p.0, p.1))
  }

  function StripPrefix(prefix: string, s: string): (r: Option<string>)
    ensures r.Some? <==> prefix <= s
    ensures r.Some? ==> s == prefix + r.value
  {
    if prefix <= s then Some(s[|prefix|..]) else None
  }

  /** Reads a command line of the shape `WorkerArguments` builds; anything else is rejected. */
  function DecodeWorkerArguments(args: string): Option<WorkerCommand> {
    var verbPart :- SplitAtFirst(args, ' ');
    var verb :- ParseVerb(verbPart.0);
    var afterBiz :- StripPrefix("--biz ", verbPart.1);
    var bizPart :- SplitAtFirst(afterBiz, ' ');
    var rest :- DecodeLocation(bizPart.1);
    Some(WorkerCommand(verb, bizPart.0, rest.0, rest.1))
  }

  /** The `--loc "..."` part and what follows it. */
  function DecodeLocation(s: string): Option<(string, int)> {
    var afterLoc :- StripPrefix("--loc \"", s);
    var locPart :- SplitAtFirst(afterLoc, '"');
    var language :- DecodeLanguage(locPart.1);
    Some((locPart.0, language))
  }

  /** The ` --lang n ` tail, which must end the command line. */
  function DecodeLanguage(s: string): Option<int> {
    var afterLang :- StripPrefix(" --lang ", s);
    var langPart :- SplitAtFirst(afterLang, ' ');
    if langPart.1 != [] then None else ParseInt(langPart.0)
  }

  lemma {:induction false} SplitAtFirstOf(a: string, c: char, b: string)
    requires c !in a
    ensures SplitAtFirst(a + [c] + b, c) == Some((a, b))
    decreases |a|
  {
    var s := a + [c] + b;
    if a == [] {
      assert s[0] == c && s[1..] == b;
    } else {
      SplitAtFirstOf(a[1..], c, b);
      assert s[0] == a[0] && s[1..] == a[1..] + [c] + b;
      assert [a[0]] + a[1..] == a;
    }
  }

  lemma StripPrefixOf(prefix: string, s: string)
    ensures StripPrefix(prefix, prefix + s) == Some(s)
  {
    assert (prefix + s)[|prefix|..] == s;
  }

  lemma DecodeLanguageOf(language: int)
    ensures DecodeLanguage(" --lang " + IntToString(language) + " ") == Some(language)
  {
    var lang := IntToString(language);
    StripPrefixOf(" --lang ", lang + " ");
    assert " --lang " + lang + " " == " --lang " + (lang + " ");
    SplitAtFirstOf(lang, ' ', []);
    assert lang + " " == lang + [' '] + [];
    IntRoundTrip(language);
  }

  lemma DecodeLocationOf(loc: string, language: int)
    requires '"' !in loc
    ensures DecodeLocation("--loc \"" + loc + "\" --lang " + IntToString(language) + " ") == Some((loc, language))
  {
    var tail := " --lang " + IntToString(language) + " ";
    assert "--loc \"" + loc + "\" --lang " + IntToString(language) + " " == "--loc \"" + (loc + ['"'] + tail);
    StripPrefixOf("--loc \"", loc + ['"'] + tail);
    SplitAtFirstOf(loc, '"', tail);
    DecodeLanguageOf(language);
  }

  lemma WorkerArgumentsShape(word: string, name: string, loc: string, lang: string)
    ensures word + " --biz " + name + " --loc \"" + loc + "\" --lang " + lang + " "
      == word + [' '] + ("--biz " + (name + [' '] + ("--loc \"" + loc + "\" --lang " + lang + " ")))
  {
  }

  /**
   * The worker gets back exactly what was put on the command line, as long as the biz name has no
   * space and the install path no double quote.
   */
  lemma WorkerArgumentsRoundTrip(verb: WorkerVerb, biz: GameBiz, loc: string, language: int)
    requires WellFormed(biz) && '"' !in loc
    ensures DecodeWorkerArguments(WorkerArguments(verb, biz, loc, language))
      == Some(WorkerCommand(verb, Name(biz), loc, language))
  {
    var word, name := VerbWord(verb), Name(biz);
    var tail := "--loc \"" + loc + "\" --lang " + IntToString(language) + " ";
    var rest := "--biz " + (name + [' '] + tail);
    WorkerArgumentsShape(word, name, loc, IntToString(language));
    SplitAtFirstOf(word, ' ', rest);
    assert ParseVerb(word) == Some(verb);
    StripPrefixOf("--biz ", name + [' '] + tail);
    SplitAtFirstOf(name, ' ', tail);
    DecodeLocationOf(loc, language);
  }

  const WorkerExeName := "Starward.exe"

  predicate IsSeparator(c: char) {
    c == '\\' || c == '/'
  }

  /**
   * `Path.Combine(AppContext.BaseDirectory, "Starward.exe")`: one backslash is inserted unless the
   * directory is empty or already ends with a separator.
   */
  function BaseDirectoryExe(baseDirectory: string): (path: string)
    ensures baseDirectory <= path
    ensures |path| >= |WorkerExeName| && path[|path| - |WorkerExeName|..] == WorkerExeName
    ensures baseDirectory != [] ==> |path| > |WorkerExeName| && IsSeparator(path[|path| - |WorkerExeName| - 1])
    ensures |path| <= |baseDirectory| + 1 + |WorkerExeName|
  {
    if baseDirectory == [] then WorkerExeName
    else if IsSeparator(baseDirectory[|baseDirectory| - 1]) then baseDirectory + WorkerExeName
    else baseDirectory + "\\" + WorkerExeName
  }

  /** The process's own main-module file (if known), the files that exist, and the base directory. */
  datatype ExeEnvironment = ExeEnvironment(mainModuleFile: Option<string>, existingFiles: set<string>, baseDirectory: string)

  /**
   * The executable the worker is started from: this process's own file when it exists, otherwise
   * `Starward.exe` in the base directory, whose existence is not checked.
   */
  function ResolveWorkerExe(env: ExeEnvironment): (exe: string)
    ensures env.mainModuleFile.Some? && env.mainModuleFile.value in env.existingFiles ==> exe == env.mainModuleFile.value
    ensures exe in env.existingFiles || exe == BaseDirectoryExe(env.baseDirectory)
  {
    var exe := env.mainModuleFile;
    if exe.Some? && exe.value in env.existingFiles then exe.value
    else BaseDirectoryExe(env.baseDirectory)
  }

  /** The fallback is taken exactly when the main-module file is unknown or missing (or is itself the fallback path). */
  lemma FallbackWhenModuleMissing(env: ExeEnvironment)
    ensures ResolveWorkerExe(env) == BaseDirectoryExe(env.baseDirectory)
      <==> env.mainModuleFile.None? || env.mainModuleFile.value !in env.existingFiles
           || env.mainModuleFile.value == BaseDirectoryExe(env.baseDirectory)
  {
  }
}
