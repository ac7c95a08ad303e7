/**
 * `process_file` and `main`: which files are converted, transcribed and
 * written, under which names, and in which order. The converter, the
 * speech pipeline and the file-system queries are inputs: `converts` gives the
 * outcome of converting a path, `transcribe` the segments the pipeline returns
 * for an audio path, and a `Target` what the command-line path turned out to be.
 */
module Cli {
  import opened Options
  import opened Segments
  import opened Transcript
  import opened Paths
  import opened Config

  /** The command line: the path and the optional overrides. */
  datatype Args = Args(path: string, language: string, minSpeaker: int, maxSpeaker: int)

  /** The defaults of the optional arguments. */
  const DEFAULT_LANGUAGE: string := "de"
  const DEFAULT_MIN_SPEAKER: int := 1
  const DEFAULT_MAX_SPEAKER: int := 2

  /** What the speech pipeline is called with besides the audio path. */
  datatype Job = Job(language: string, minSpeakers: int, maxSpeakers: int, hfToken: Value, modelSize: string)

  /** The job for every file: the command-line values and the validated
      settings, passed through unchanged. */
  function JobFor(args: Args, settings: Settings): Job
  {
    Job(args.language, args.minSpeaker, args.maxSpeaker, settings.hfToken, settings.modelSize)
  }

  /** What the script does to the outside world. */
  datatype Effect =
    | Converted(source: string, target: string, succeeded: bool)  // a converter run and its outcome
    | Skipped(path: string)  // the skip message after a failed conversion
    | Transcribed(audio: string, job: Job)  // one run of the speech pipeline
    | TranscriptSaved(path: string, writes: seq<string>)  // old file removed, blocks appended

  /** The effects of one `process_file` call and whether a `TypeError` escaped. */
  datatype FileRun = FileRun(effects: seq<Effect>, raised: bool)

  /** Transcribe an audio file and save its transcript next to it. */
  function TranscribeAndSave(audio: string, job: Job, transcribe: string -> seq<Segment>): FileRun
  {
    var out := Formatted(transcribe(audio));
    FileRun([Transcribed(audio, job), TranscriptSaved(audio + ".txt", out.writes)], out.current.None?)
  }

  /** `process_file`: a .wav input is transcribed directly; any other input is
      first handed to the converter, and only a successful conversion is
      transcribed. A `TypeError` can only come from a call that transcribes. */
  function ProcessFile(p: string, job: Job, converts: string -> bool, transcribe: string -> seq<Segment>): (r: FileRun)
    ensures r.raised ==> IsWavFile(p) || converts(p)
  {
    if IsWavFile(p) then TranscribeAndSave(p, job, transcribe)
    else
      var target := p + ".wav";
      var rest := if converts(p) then TranscribeAndSave(target, job, transcribe) else FileRun([Skipped(target)], false);
      FileRun([Converted(p, target, converts(p))] + rest.effects, rest.raised)
  }

  /** The paths the converter runs on, in order. */
  function ConvertedSources(es: seq<Effect>): seq<string>
  {
    if es == [] then [] else (if es[0].Converted? then [es[0].source] else []) + ConvertedSources(es[1..])
  }

  /** The paths transcripts are saved to, in order. */
  function TranscriptPaths(es: seq<Effect>): seq<string>
  {
    if es == [] then [] else (if es[0].TranscriptSaved? then [es[0].path] else []) + TranscriptPaths(es[1..])
  }

  /** The audio paths the speech pipeline runs on, in order. */
  function TranscribedPaths(es: seq<Effect>): seq<string>
  {
    if es == [] then [] else (if es[0].Transcribed? then [es[0].audio] else []) + TranscribedPaths(es[1..])
  }

  /** Listing distributes over the concatenation of effects. */
  lemma EffectsAppend(a: seq<Effect>, b: seq<Effect>)
    ensures ConvertedSources(a + b) == ConvertedSources(a) + ConvertedSources(b)
    ensures TranscriptPaths(a + b) == TranscriptPaths(a) + TranscriptPaths(b)
    ensures TranscribedPaths(a + b) == TranscribedPaths(a) + TranscribedPaths(b)
  {
    ConvertedSourcesAppend(a, b);
    TranscriptPathsAppend(a, b);
    TranscribedPathsAppend(a, b);
  }

  lemma {:induction false} ConvertedSourcesAppend(a: seq<Effect>, b: seq<Effect>)
    ensures ConvertedSources(a + b) == ConvertedSources(a) + ConvertedSources(b)
  {
    if a == [] {
      assert a + b == b;
    } else {
      assert (a + b)[0] == a[0];
      assert (a + b)[1..] == a[1..] + b;
      ConvertedSourcesAppend(a[1..], b);
    }
  }

  lemma {:induction false} TranscriptPathsAppend(a: seq<Effect>, b: seq<Effect>)
    ensures TranscriptPaths(a + b) == TranscriptPaths(a) + TranscriptPaths(b)
  {
    if a == [] {
      assert a + b == b;
    } else {
      assert (a + b)[0] == a[0];
      assert (a + b)[1..] == a[1..] + b;
      TranscriptPathsAppend(a[1..], b);
    }
  }

  lemma {:induction false} TranscribedPathsAppend(a: seq<Effect>, b: seq<Effect>)
    ensures TranscribedPaths(a + b) == TranscribedPaths(a) + TranscribedPaths(b)
  {
    if a == [] {
      assert a + b == b;
    } else {
      assert (a + b)[0] == a[0];
      assert (a + b)[1..] == a[1..] + b;
      TranscribedPathsAppend(a[1..], b);
    }
  }

  /** Transcribing and saving runs the pipeline once on `audio` with the job's
      settings and saves one transcript, at `audio + ".txt"`, holding the blocks
      the formatter writes for the returned segments, without converting
      anything. It raises exactly when the formatter raises. */
  lemma TranscribeAndSaveEffects(audio: string, job: Job, transcribe: string -> seq<Segment>)
    ensures var r := TranscribeAndSave(audio, job, transcribe);
            var out := Formatted(transcribe(audio));
            && r.effects == [Transcribed(audio, job), TranscriptSaved(audio + ".txt", out.writes)]
            && (r.raised <==> out.current.None?)
    ensures var es := TranscribeAndSave(audio, job, transcribe).effects;
            && ConvertedSources(es) == []
            && TranscribedPaths(es) == [audio]
            && TranscriptPaths(es) == [audio + ".txt"]
  {
    var es := TranscribeAndSave(audio, job, transcribe).effects;
    assert es == [es[0]] + [es[1]];
    OneEffect(es[0]);
    OneEffect(es[1]);
    EffectsAppend([es[0]], [es[1]]);
  }

  /** Listing a single effect. */
  lemma OneEffect(e: Effect)
    ensures ConvertedSources([e]) == if e.Converted? then [e.source] else []
    ensures TranscriptPaths([e]) == if e.TranscriptSaved? then [e.path] else []
    ensures TranscribedPaths([e]) == if e.Transcribed? then [e.audio] else []
  {
    assert [e][1..] == [];
  }

  /** The decisions of `process_file`: a .wav input is never converted and its
      transcript goes to `p + ".txt"`; any other input is converted exactly once,
      to `p + ".wav"`, and only a successful conversion is transcribed, with its
      transcript at `p + ".wav.txt"`; after a failed conversion nothing is
      transcribed or written and nothing is raised. */
  lemma ProcessFileDecisions(p: string, job: Job, converts: string -> bool, transcribe: string -> seq<Segment>)
    ensures var r := ProcessFile(p, job, converts, transcribe);
            && ConvertedSources(r.effects) == (if IsWavFile(p) then [] else [p])
            && (!IsWavFile(p) ==> r.effects[0] == Converted(p, p + ".wav", converts(p)))
            && TranscribedPaths(r.effects)
                 == (if IsWavFile(p) then [p] else if converts(p) then [p + ".wav"] else [])
            && TranscriptPaths(r.effects)
                 == (if IsWavFile(p) then [p + ".txt"] else if converts(p) then [p + ".wav.txt"] else [])
            && (r.raised ==> TranscriptPaths(r.effects) != [])
            && (r.raised <==> (IsWavFile(p) || converts(p))
                              && Formatted(transcribe(if IsWavFile(p) then p else p + ".wav")).current.None?)
  {
    if IsWavFile(p) {
      TranscribeAndSaveEffects(p, job, transcribe);
    } else {
      ConvertingDecisions(p, job, converts(p), converts, transcribe);
    }
  }

  /** `ProcessFileDecisions` for an input that is not a .wav file. The
      conversion comes first; then either the pipeline runs on the converted
      file and its transcript holds the formatter's blocks, or the skip
      message names the converted path. */
  lemma ConvertingDecisions(p: string, job: Job, ok: bool, converts: string -> bool, transcribe: string -> seq<Segment>)
    requires !IsWavFile(p) && ok == converts(p)
    ensures ProcessFile(p, job, converts, transcribe).effects
              == [Converted(p, p + ".wav", ok)]
                 + if ok then [Transcribed(p + ".wav", job),
                               TranscriptSaved(p + ".wav.txt", Formatted(transcribe(p + ".wav")).writes)]
                   else [Skipped(p + ".wav")]
    ensures var r := ProcessFile(p, job, converts, transcribe);
            && ConvertedSources(r.effects) == [p]
            && r.effects[0] == Converted(p, p + ".wav", ok)
            && TranscribedPaths(r.effects) == (if ok then [p + ".wav"] else [])
            && TranscriptPaths(r.effects) == (if ok then [p + ".wav.txt"] else [])
            && (r.raised ==> ok)
  {
    var target := p + ".wav";
    var rest := if ok then TranscribeAndSave(target, job, transcribe) else FileRun([Skipped(target)], false);
    var es := [Converted(p, target, ok)] + rest.effects;
    assert ProcessFile(p, job, converts, transcribe) == FileRun(es, rest.raised);
    EffectsAppend([Converted(p, target, ok)], rest.effects);
    assert [Converted(p, target, ok)][1..] == [];
    if ok {
      TranscribeAndSaveEffects(target, job, transcribe);
      assert target + ".txt" == p + ".wav.txt";
    } else {
      assert [Skipped(target)][1..] == [];
    }
  }

  /** `os.path.join(dir, name)` for two parts: an absolute `name` replaces the
      directory; otherwise `name` follows the directory, with one '/' added
      unless the directory is empty or already ends in '/'. */
  function JoinPath(dir: string, name: string): (r: string)
    ensures |name| <= |r| <= |dir| + 1 + |name|
  {
    if name != "" && name[0] == '/' then name
    else if dir == "" || dir[|dir| - 1] == '/' then dir + name
    else dir + "/" + name
  }

  /** The shape of a joined path: it ends in `name`; an absolute `name` is the
      whole result; otherwise the result starts with `dir`, and one separator
      stands right after `dir` exactly when `dir` is non-empty and does not
      already end in '/'. */
  lemma JoinPathShape(dir: string, name: string)
    ensures var r := JoinPath(dir, name);
            && r[|r| - |name|..] == name
            && ((name != [] && name[0] == '/') ==> r == name)
            && ((name == [] || name[0] != '/') ==>
                  && |r| == |dir| + |name| + (if dir != [] && dir[|dir| - 1] != '/' then 1 else 0)
                  && r[..|dir|] == dir && (|r| > |dir| + |name| ==> r[|dir|] == '/'))
  {
  }

  /** Joining a directory listing's entry gives a path whose basename is the
      entry, so the entry's own name decides its extension. */
  lemma JoinPathBasename(dir: string, name: string)
    requires '/' !in name
    ensures Basename(JoinPath(dir, name)) == name
  {
    var p := JoinPath(dir, name);
    var sep := |p| - |name| - 1;
    assert p[sep + 1..] == name;
    assert forall j :: sep < j < |p| ==> p[j] == name[j - sep - 1];
    LastIndexOfUnique(p, '/', sep);
  }

  /** An entry of a directory listing, with what `os.path.isfile` says of it. */
  datatype Entry = Entry(name: string, isFile: bool)

  /** What the command-line path is. */
  datatype Target = Nonexistent | RegularFile | Directory(entries: seq<Entry>)

  /** Why the script exits early. */
  datatype ExitReason = ConfigRejected(error: ConfigError) | PathNotFound

  /** How a run ends: normally, through `sys.exit` with a status, or with a
      `TypeError` escaping the formatter. */
  datatype End = Finished | Exited(status: int, reason: ExitReason) | Crashed

  /** The effects of a whole run and how it ended. */
  datatype Run = Run(effects: seq<Effect>, end: End)

  /** One `process_file` call seen as a run. */
  function FileOutcome(r: FileRun): Run
  {
    Run(r.effects, if r.raised then Crashed else Finished)
  }

  /** The directory loop of `main`: one `process_file` call per regular-file
      entry, in listing order; a `TypeError` ends the run. The loop never exits
      with a status. */
  function DirectoryRun(dir: string, entries: seq<Entry>, job: Job, converts: string -> bool,
                        transcribe: string -> seq<Segment>): (r: Run)
    ensures !r.end.Exited?
    decreases |entries|
  {
    if entries == [] then Run([], Finished)
    else
      var first := FirstOf(dir, entries[0], job, converts, transcribe);
      if first.raised then Run(first.effects, Crashed)
      else
        var rest := DirectoryRun(dir, entries[1..], job, converts, transcribe);
        Run(first.effects + rest.effects, rest.end)
  }

  /** Processing a listing in two parts is processing the first part and then,
      unless it crashed, the second. */
  lemma {:induction false} DirectoryRunAppend(dir: string, a: seq<Entry>, b: seq<Entry>, job: Job,
                                              converts: string -> bool, transcribe: string -> seq<Segment>)
    ensures DirectoryRun(dir, a, job, converts, transcribe).end == Crashed ==>
              DirectoryRun(dir, a + b, job, converts, transcribe) == DirectoryRun(dir, a, job, converts, transcribe)
    ensures DirectoryRun(dir, a, job, converts, transcribe).end != Crashed ==>
              DirectoryRun(dir, a + b, job, converts, transcribe)
                == Run(DirectoryRun(dir, a, job, converts, transcribe).effects
                         + DirectoryRun(dir, b, job, converts, transcribe).effects,
                       DirectoryRun(dir, b, job, converts, transcribe).end)
    decreases |a|
  {
    if a == [] {
      assert a + b == b;
    } else {
      assert (a + b)[0] == a[0];
      assert (a + b)[1..] == a[1..] + b;
      var first := FirstOf(dir, a[0], job, converts, transcribe);
      DirectoryRunUnfold(dir, a, job, converts, transcribe);
      DirectoryRunUnfold(dir, a + b, job, converts, transcribe);
      if !first.raised {
        DirectoryRunAppend(dir, a[1..], b, job, converts, transcribe);
        AppendAfterFirst(first.effects, DirectoryRun(dir, a[1..], job, converts, transcribe),
                         DirectoryRun(dir, b, job, converts, transcribe));
      }
    }
  }

  lemma AppendAfterFirst(es: seq<Effect>, ra: Run, rb: Run)
    ensures es + (ra.effects + rb.effects) == (es + ra.effects) + rb.effects
  {
  }

  /** The `process_file` call an entry leads to, if any. */
  function FirstOf(dir: string, e: Entry, job: Job, converts: string -> bool,
                   transcribe: string -> seq<Segment>): FileRun
  {
    if e.isFile then ProcessFile(JoinPath(dir, e.name), job, converts, transcribe) else FileRun([], false)
  }

  /** A listing without regular files does nothing. */
  lemma {:induction false} DirectoryRunWithoutFiles(dir: string, entries: seq<Entry>, job: Job,
                                                    converts: string -> bool, transcribe: string -> seq<Segment>)
    requires forall k :: 0 <= k < |entries| ==> !entries[k].isFile
    ensures DirectoryRun(dir, entries, job, converts, transcribe) == Run([], Finished)
    decreases |entries|
  {
    if entries != [] {
      DirectoryRunWithoutFiles(dir, entries[1..], job, converts, transcribe);
    }
  }

  /** `DirectoryRun` of a non-empty listing, in terms of its first entry. */
  lemma DirectoryRunUnfold(dir: string, entries: seq<Entry>, job: Job,
                           converts: string -> bool, transcribe: string -> seq<Segment>)
    requires entries != []
    ensures var first := FirstOf(dir, entries[0], job, converts, transcribe);
            var rest := DirectoryRun(dir, entries[1..], job, converts, transcribe);
            DirectoryRun(dir, entries, job, converts, transcribe)
              == if first.raised then Run(first.effects, Crashed)
                 else Run(first.effects + rest.effects, rest.end)
  {
  }

  /** The paths of the regular-file entries that are not .wav files, in
      listing order: the files the listing should convert. */
  function ExpectedConversions(dir: string, entries: seq<Entry>): seq<string>
  {
    if entries == [] then []
    else
      var p := JoinPath(dir, entries[0].name);
      (if entries[0].isFile && !IsWavFile(p) then [p] else [])
        + ExpectedConversions(dir, entries[1..])
  }

  /** The audio paths the listing should transcribe: `p` for a .wav file,
      `p + ".wav"` for a file whose conversion succeeds, in listing order. */
  function ExpectedAudio(dir: string, entries: seq<Entry>, converts: string -> bool): seq<string>
  {
    if entries == [] then []
    else
      var p := JoinPath(dir, entries[0].name);
      var mine :=
        if !entries[0].isFile then []
        else if IsWavFile(p) then [p]
        else if converts(p) then [p + ".wav"]
        else [];
      mine + ExpectedAudio(dir, entries[1..], converts)
  }

  /** The transcript paths the listing should produce: `p + ".txt"` for a .wav
      file, `p + ".wav.txt"` for a file whose conversion succeeds, nothing for
      the rest, in listing order. */
  function ExpectedTranscripts(dir: string, entries: seq<Entry>, converts: string -> bool): seq<string>
  {
    if entries == [] then []
    else
      var p := JoinPath(dir, entries[0].name);
      var mine :=
        if !entries[0].isFile then []
        else if IsWavFile(p) then [p + ".txt"]
        else if converts(p) then [p + ".wav.txt"]
        else [];
      mine + ExpectedTranscripts(dir, entries[1..], converts)
  }

  /** A directory run that does not crash converts exactly the non-.wav regular
      files, once each, runs the pipeline on exactly the expected audio paths
      and writes exactly the expected transcripts, all in listing order: a
      failed conversion skips that file and no other. */
  lemma {:induction false} DirectoryRunDecisions(dir: string, entries: seq<Entry>, job: Job,
                                                 converts: string -> bool, transcribe: string -> seq<Segment>)
    requires DirectoryRun(dir, entries, job, converts, transcribe).end == Finished
    ensures var r := DirectoryRun(dir, entries, job, converts, transcribe);
            && ConvertedSources(r.effects) == ExpectedConversions(dir, entries)
            && TranscribedPaths(r.effects) == ExpectedAudio(dir, entries, converts)
            && TranscriptPaths(r.effects) == ExpectedTranscripts(dir, entries, converts)
    decreases |entries|
  {
    if entries != [] {
      var p := JoinPath(dir, entries[0].name);
      var first := if entries[0].isFile then ProcessFile(p, job, converts, transcribe) else FileRun([], false);
      var rest := DirectoryRun(dir, entries[1..], job, converts, transcribe);
      DirectoryRunDecisions(dir, entries[1..], job, converts, transcribe);
      EffectsAppend(first.effects, rest.effects);
      if entries[0].isFile {
        ProcessFileDecisions(p, job, converts, transcribe);
      }
    }
  }

  /** A run that first had `effects` and then went on as `r`. */
  function After(effects: seq<Effect>, r: Run): Run
  {
    Run(effects + r.effects, r.end)
  }

  /** One iteration of the directory loop, in terms of `DirectoryRun`. */
  lemma DirectoryLoopStep(effects: seq<Effect>, dir: string, entries: seq<Entry>, i: nat, job: Job,
                          converts: string -> bool, transcribe: string -> seq<Segment>)
    requires i < |entries|
    ensures var first := FirstOf(dir, entries[i], job, converts, transcribe);
            After(effects, DirectoryRun(dir, entries[i..], job, converts, transcribe))
              == if first.raised then Run(effects + first.effects, Crashed)
                 else After(effects + first.effects, DirectoryRun(dir, entries[i + 1..], job, converts, transcribe))
  {
    assert entries[i..][0] == entries[i];
    assert entries[i..][1..] == entries[i + 1..];
    DirectoryRunUnfold(dir, entries[i..], job, converts, transcribe);
    var first := FirstOf(dir, entries[i], job, converts, transcribe);
    AppendAfterFirst(effects, Run(first.effects, Finished), DirectoryRun(dir, entries[i + 1..], job, converts, transcribe));
  }

  /** The directory loop of `main`, one `process_file` call per regular-file
      entry; a `TypeError` escaping a call ends the loop. */
  method ProcessDirectory(dir: string, entries: seq<Entry>, job: Job,
                          converts: string -> bool, transcribe: string -> seq<Segment>) returns (run: Run)
    ensures run == DirectoryRun(dir, entries, job, converts, transcribe)
  {
    var effects: seq<Effect> := [];
    var raised := false;
    var i := 0;
    assert entries[0..] == entries;
    while i < |entries| && !raised
      invariant 0 <= i <= |entries|
      invariant DirectoryRun(dir, entries, job, converts, transcribe)
                  == if raised then Run(effects, Crashed)
                     else After(effects, DirectoryRun(dir, entries[i..], job, converts, transcribe))
    {
      DirectoryLoopStep(effects, dir, entries, i, job, converts, transcribe);
      var r := FileRun([], false);
      if entries[i].isFile {
        r := ProcessFile(JoinPath(dir, entries[i].name), job, converts, transcribe);
      }
      assert r == FirstOf(dir, entries[i], job, converts, transcribe);
      effects := effects + r.effects;
      raised := r.raised;
      i := i + 1;
    }
    if !raised {
      assert entries[i..] == [];
      assert effects + [] == effects;
    }
    run := Run(effects, if raised then Crashed else Finished);
  }

  /** `main`, after argument parsing: the configuration checks, then one file
      or every regular file of a directory. Every early exit happens before any
      file is processed and has status 1. */
  method RunCommand(args: Args, config: LoadedConfig, target: Target,
                    converts: string -> bool, transcribe: string -> seq<Segment>) returns (run: Run)
    ensures Validate(config).Err? ==> run == Run([], Exited(1, ConfigRejected(Validate(config).error)))
    ensures Validate(config).Ok? ==>
              var job := JobFor(args, Validate(config).value);
              match target
              case Nonexistent => run == Run([], Exited(1, PathNotFound))
              case RegularFile => run == FileOutcome(ProcessFile(args.path, job, converts, transcribe))
              case Directory(entries) => run == DirectoryRun(args.path, entries, job, converts, transcribe)
    ensures run.end.Exited? ==> run.effects == [] && run.end.status != 0
  {
    var checked := Validate(config);
    if checked.Err? {
      return Run([], Exited(1, ConfigRejected(checked.error)));
    }
    var job := JobFor(args, checked.value);
    match target
    case Nonexistent =>
      run := Run([], Exited(1, PathNotFound));
    case RegularFile =>
      var r := ProcessFile(args.path, job, converts, transcribe);
      run := Run(r.effects, if r.raised then Crashed else Finished);
    case Directory(entries) =>
      run := ProcessDirectory(args.path, entries, job, converts, transcribe);
  }

  /** A conversion failure in the middle of a listing leaves the files around
      it alone: three regular files, the second of which fails to convert,
      give the runs of the first and third with only the failed conversion and
      its skip message between them. */
  lemma FailedConversionSkipsOnlyThatFile(dir: string, a: Entry, b: Entry, c: Entry, job: Job,
                                          converts: string -> bool, transcribe: string -> seq<Segment>)
    requires a.isFile && b.isFile && c.isFile
    requires !IsWavFile(JoinPath(dir, b.name)) && !converts(JoinPath(dir, b.name))
    requires !ProcessFile(JoinPath(dir, a.name), job, converts, transcribe).raised
    ensures var pb := JoinPath(dir, b.name);
            var pc := ProcessFile(JoinPath(dir, c.name), job, converts, transcribe);
            DirectoryRun(dir, [a, b, c], job, converts, transcribe)
              == Run(ProcessFile(JoinPath(dir, a.name), job, converts, transcribe).effects
                       + [Converted(pb, pb + ".wav", false), Skipped(pb + ".wav")] + pc.effects,
                     if pc.raised then Crashed else Finished)
  {
    var pa := ProcessFile(JoinPath(dir, a.name), job, converts, transcribe);
    var pb := JoinPath(dir, b.name);
    var pc := ProcessFile(JoinPath(dir, c.name), job, converts, transcribe);
    var skip := [Converted(pb, pb + ".wav", false), Skipped(pb + ".wav")];
    SkipThenFile(dir, b, c, job, converts, transcribe);
    assert FirstOf(dir, a, job, converts, transcribe) == pa;
    assert [a, b, c] == [a] + [b, c];
    DirectoryRunCons(dir, a, [b, c], job, converts, transcribe);
    assert pa.effects + (skip + pc.effects) == pa.effects + skip + pc.effects;
  }

  /** A listing headed by an entry that raises nothing continues with the rest. */
  lemma DirectoryRunCons(dir: string, e: Entry, rest: seq<Entry>, job: Job,
                         converts: string -> bool, transcribe: string -> seq<Segment>)
    requires !FirstOf(dir, e, job, converts, transcribe).raised
    ensures var r := DirectoryRun(dir, rest, job, converts, transcribe);
            DirectoryRun(dir, [e] + rest, job, converts, transcribe)
              == Run(FirstOf(dir, e, job, converts, transcribe).effects + r.effects, r.end)
  {
    assert ([e] + rest)[0] == e;
    assert ([e] + rest)[1..] == rest;
    DirectoryRunUnfold(dir, [e] + rest, job, converts, transcribe);
  }

  /** The last two entries of `FailedConversionSkipsOnlyThatFile`. */
  lemma SkipThenFile(dir: string, b: Entry, c: Entry, job: Job,
                     converts: string -> bool, transcribe: string -> seq<Segment>)
    requires b.isFile && c.isFile
    requires !IsWavFile(JoinPath(dir, b.name)) && !converts(JoinPath(dir, b.name))
    ensures var pb := JoinPath(dir, b.name);
            var pc := ProcessFile(JoinPath(dir, c.name), job, converts, transcribe);
            DirectoryRun(dir, [b, c], job, converts, transcribe)
              == Run([Converted(pb, pb + ".wav", false), Skipped(pb + ".wav")] + pc.effects,
                     if pc.raised then Crashed else Finished)
  {
    var pb := JoinPath(dir, b.name);
    var pc := ProcessFile(JoinPath(dir, c.name), job, converts, transcribe);
    SingleFile(dir, c, job, converts, transcribe);
    assert FirstOf(dir, b, job, converts, transcribe)
             == FileRun([Converted(pb, pb + ".wav", false), Skipped(pb + ".wav")], false);
    assert [b, c][1..] == [c];
    DirectoryRunUnfold(dir, [b, c], job, converts, transcribe);
  }

  /** A listing of one regular file is one `process_file` call. */
  lemma SingleFile(dir: string, c: Entry, job: Job, converts: string -> bool, transcribe: string -> seq<Segment>)
    requires c.isFile
    ensures DirectoryRun(dir, [c], job, converts, transcribe)
              == FileOutcome(ProcessFile(JoinPath(dir, c.name), job, converts, transcribe))
  {
    var pc := ProcessFile(JoinPath(dir, c.name), job, converts, transcribe);
    assert [c][1..] == [];
    assert DirectoryRun(dir, [], job, converts, transcribe) == Run([], Finished);
    assert FirstOf(dir, c, job, converts, transcribe) == pc;
    DirectoryRunUnfold(dir, [c], job, converts, transcribe);
    assert pc.effects + [] == pc.effects;
  }
}
