# localtranscribe, modelled in Dafny

`localtranscribe.py` turns audio or video files into speaker-labelled text
transcripts. It does four things:

- It reads `config.yml` and checks the Hugging Face token and the Whisper model size.
- It converts every input that is not a `.wav` file to `<input>.wav`.
- It runs a speech and diarization pipeline.
- It writes the diarized segments to `<audio>.txt`: one block per run of
  consecutive segments with the same speaker (a "turn"). Unless the first
  speaker is `""`, and provided there is at least one segment, the file opens
  with an empty block for the initial `("", "")` pair; the last turn is never
  written.

This project models the decision logic and the text formatting of that
script:

- `options.dfy`: `Option` and `Result`.
- `segments.dfy`: a diarized segment (its optional `speaker` and `text`),
  `convert_to_string`, and the block one speaker and text are written as.
  It also defines the grouping of a segment list into speaker turns. The
  grouping is given twice, as a function (`Turns`) and as a declarative
  description (`IsTurnPartition`). Both are proved to agree.
- `transcript.dfy`: the loop of `save_result` as a fold (`Scan`) and as a
  method with a loop (`SaveResult`). The fold is proved against the turns:
  - every turn but the last is written, in order, as its speaker and its
    texts joined by single spaces;
  - a `TypeError` is raised exactly when a turn of two or more segments has
    a missing text, where the turns are those of the segments headed by the
    initial `("", "")` pair. A single segment `("", None)` thus raises.

  The accumulator starts at `("", "")`. As a result, the file opens with an
  empty block unless the first speaker is `""` or there are no segments at
  all. There is also no write after
  the loop (localtranscribe.py:96-106); `file.flush()` at line 107 only
  flushes what was already written. So the last turn never reaches the file.
  The model keeps both behaviours as the code has them.
- `paths.dfy`: `os.path.splitext` for POSIX paths and `is_wav_file`.
- `config.dfy`: the constants and the order of the configuration checks in
  `main`.
- `cli.dfy`: `process_file` and `main` as effects over given oracles:
  - converter runs, skip messages, pipeline runs and saved transcripts;
  - the directory loop as a method;
  - the whole command after argument parsing, as a method.

  Five things are parameters: the parsed command line (`Args`), the loaded
  configuration (`LoadedConfig`), the outcome of converting a path
  (`converts`), the segments the pipeline returns (`transcribe`), and what
  the command-line path is (`Target`).

## Model

| member | source | states |
|---|---|---|
| Segments.ConvertToString | localtranscribe.py:71-75 | A present value is kept as is and `None` becomes "{None}" |
| Segments.ConvertToStringCollisions | localtranscribe.py:71-75 | Two values render alike exactly when they are equal or are `None` and the literal "{None}" |
| Segments.Block | localtranscribe.py:103 | A block is three characters longer than the rendered speaker and text together |
| Segments.BlockLayout | localtranscribe.py:103 | A block is the rendered speaker, a line break, the rendered text, a line break and a blank line, in that order |
| Segments.BlockSpeakerLine | localtranscribe.py:103 | A written block's first line is the rendered speaker when the speaker has no line break |
| Segments.TurnsPartition | localtranscribe.py:96-106 | The turns concatenate back to the segments, none is empty, and two adjacent turns have different speakers |
| Segments.TurnsUnique | localtranscribe.py:96-106 | Any split of the segments with those three properties is the one `Turns` builds |
| Segments.TurnCount | localtranscribe.py:98-106 | There is one turn more than there are speaker changes, and the last turn belongs to the last segment's speaker |
| Transcript.Step | localtranscribe.py:97-106 | After a `TypeError` nothing changes. Otherwise the accumulator takes the segment's speaker; a block is appended exactly when the speaker changes, and it is the block of the accumulator so far; joining raises exactly when the speaker stays and one of the two texts is missing |
| Transcript.RaisedIsFinal | localtranscribe.py:96-100 | Once joining a missing text has raised `TypeError`, no later segment changes anything |
| Transcript.WritesOnlyGrow | localtranscribe.py:94-106 | The file is only appended to: the blocks written after m segments begin the blocks written after any n >= m |
| Transcript.ScanFollowsTurns | localtranscribe.py:90-106 | After n segments the loop has raised exactly when a turn seen so far cannot be joined; otherwise the accumulator holds the last turn and every earlier turn is written, in order |
| Transcript.FormattedByTurns | localtranscribe.py:90-107 | Over all segments, headed by the initial ("", "") pair: the run raises exactly when some turn of two or more segments has a missing text; otherwise the file holds every turn but the last, each as speaker line, joined texts and blank line |
| Transcript.InitialBlock | localtranscribe.py:91-92 | The block of the initial accumulator is "\n\n\n" |
| Transcript.BlocksPerSpeakerChange | localtranscribe.py:98-106 | Without a `TypeError`, the number of blocks written equals the number of speaker changes along "", s1, s2, ... |
| Transcript.FirstBlockIsEmpty | localtranscribe.py:91-103 | Unless the first speaker is "", the first block written is the empty "\n\n\n" |
| Transcript.EmptyTranscript | localtranscribe.py:94-107 | No segments leave the file empty |
| Transcript.ExampleTranscript | localtranscribe.py:96-106 | [(A,hi),(A,there),(B,yo)] gives "\n\n\nA\nhi there\n\n" and leaves B/yo unwritten in the accumulator |
| Transcript.ExampleRaise | localtranscribe.py:96-103 | A missing speaker is not "", so it opens a turn; a following missing text raises after the initial block was written. A single segment ("", missing text) joins the initial pair and raises with nothing written |
| Transcript.SaveResult | localtranscribe.py:77-108 | The loop writes exactly the fold's blocks and raises exactly when the fold does, which is when some turn cannot be joined; without a raise it writes every turn but the last, one block per speaker change |
| Paths.LastIndexOf | localtranscribe.py:52 | The index returned holds the character, and no later index does; -1 when the character is absent |
| Paths.SplitExt | localtranscribe.py:52 | Root and extension concatenate back to the path; a non-empty extension starts with '.', holds no further '.' or '/', and follows a non-empty root |
| Paths.SplitExtFindsExtension | localtranscribe.py:52 | The extension is non-empty exactly when some '.' of the basename follows a character other than '.' |
| Paths.ExtensionFromLastDot | localtranscribe.py:52 | A non-empty extension starts at the path's last '.' |
| Paths.Lower | localtranscribe.py:54 | Lower-casing keeps the length and maps every character through ASCII lower-casing |
| Paths.IsWavFile | localtranscribe.py:41-54 | A .wav file has a four-character extension after a non-empty root |
| Paths.IsWavFileIgnoresCase | localtranscribe.py:52-54 | A path is a .wav file exactly when its extension is '.' followed by w, a and v in either case |
| Paths.SplitExtOfNamedPath | localtranscribe.py:52 | A name with a character other than '.' and '/' after its last '/', followed by a '.'-led extension free of '.' and '/', splits into exactly that name and extension |
| Paths.NoExtensionAfterLeadingDots | localtranscribe.py:52 | A name made of leading dots and then no further '.' has no extension |
| Paths.IsWavFileUpperCase | localtranscribe.py:52-54 | "x.WAV" and "talks/2023.interview.Wav" are .wav files |
| Paths.IsWavFileLastExtension | localtranscribe.py:52-54 | "x.wav.mp3" and "x.wave" are not .wav files |
| Paths.IsWavFileDotFiles | localtranscribe.py:52-54 | ".wav" and "..wav" are not .wav files |
| Paths.ConvertedPathIsWav | localtranscribe.py:159-162 | The converted path `p + ".wav"` is a .wav file whenever the basename of `p` has a character other than '.' |
| Config.Validate | localtranscribe.py:199-213 | Accepts exactly when the configuration is a non-empty mapping, the token is truthy and not the placeholder, and the model size is one of the five names. The first failing check, in that order, names the error; on success the token and size are passed on unchanged |
| Config.ValidateExamples | localtranscribe.py:10-12 | A missing file and an empty mapping are unreadable; a missing, empty or placeholder token is rejected before the model size is looked at; "Large" is rejected and "large" accepted |
| Cli.ProcessFile | localtranscribe.py:146-173 | A `TypeError` can escape only from an input that is transcribed: a .wav file or a successful conversion (`ProcessFileDecisions` gives the converse) |
| Cli.TranscribeAndSaveEffects | localtranscribe.py:167-171 | Transcribing runs the pipeline once, on the audio with the job's settings, and saves one transcript at audio + ".txt" holding exactly the blocks the formatter writes for the returned segments; nothing is converted; it raises exactly when the formatter raises |
| Cli.ProcessFileDecisions | localtranscribe.py:157-173 | A .wav input is never converted, the pipeline runs on p and its transcript goes to p + ".txt". Any other input is converted exactly once, first, from p to p + ".wav"; only a successful conversion runs the pipeline, on p + ".wav", with its transcript at p + ".wav.txt". A failed conversion transcribes nothing, writes nothing and raises nothing. The call raises exactly when it transcribes and the formatter raises on the segments of the transcribed audio |
| Cli.ConvertingDecisions | localtranscribe.py:159-173 | For a non-.wav input the effects are exactly: the conversion of p to p + ".wav"; then, if it succeeds, the pipeline run on p + ".wav" with the job and the transcript at p + ".wav.txt" holding the formatter's blocks, and otherwise the skip message naming p + ".wav". So the converted sources are exactly [p] |
| Cli.JoinPath | localtranscribe.py:221 | The joined path is at least as long as the name and at most one separator longer than directory and name together |
| Cli.JoinPathShape | localtranscribe.py:221 | The joined path ends in the name; an absolute name is the whole result; otherwise the result is the directory, then one '/' exactly when the directory is non-empty and does not end in '/', then the name |
| Cli.JoinPathBasename | localtranscribe.py:221 | Joining a directory and a listing entry without '/' gives a path whose basename is that entry |
| Cli.DirectoryRunAppend | localtranscribe.py:219-223 | The directory loop over two listings in a row is the loop over the first, followed, unless it crashed, by the loop over the second |
| Cli.DirectoryRun | localtranscribe.py:219-223 | The directory loop finishes or crashes, and never exits with a status |
| Cli.DirectoryRunWithoutFiles | localtranscribe.py:219-223 | A listing without regular files has no effects and finishes |
| Cli.DirectoryRunDecisions | localtranscribe.py:219-223 | A directory run without a crash converts exactly the joined paths of the non-.wav regular files, runs the pipeline on exactly p (a .wav file) or p + ".wav" (a successful conversion), and saves exactly the matching transcripts, each list in listing order |
| Cli.ProcessDirectory | localtranscribe.py:219-223 | The loop processes each regular-file entry in listing order and skips the rest; a `TypeError` ends it |
| Cli.FailedConversionSkipsOnlyThatFile | localtranscribe.py:158-173 | A file whose conversion fails between two others contributes only its conversion attempt and skip message; the files around it are processed as on their own |
| Cli.RunCommand | localtranscribe.py:192-226 | A rejected configuration exits with status 1 before any file is touched; a missing path exits with status 1; a file is processed once; a directory goes through the directory loop; every exit has status 1 and no effects |

## Left out

- `convert_to_wav` and ffmpeg: only the outcome (`converts`) is modelled. The converter's output file and its messages are not.
- `transcribe_and_diarize` and the WhisperX models: the segments are an oracle (`transcribe`). Exceptions raised inside the pipeline are not modelled; neither are the model constants (`MODEL_DIRECTORY`, `DEVICE`, `BATCH_SIZE`, `COMPUTE_TYPE`).
- `load_config`: reading and parsing the YAML file is not modelled. The loaded value is a parameter: missing, or a mapping of null, string, integer and boolean scalars. A non-mapping document, floats and nested values are left out. So is the working-directory mismatch between the existence check and `open`.
- `parse_args`: argparse is not modelled; `Args` and its three defaults stand for its result.
- Printing other than the skip message, the deletion of an existing transcript and `file.flush()` are not modelled. A saved transcript is the list of its blocks, written to a fresh file.
- `os.path.isfile`, `os.path.isdir` and `os.listdir` are data (`Target`, `Entry`), not file-system queries.
- Paths.Lower: only ASCII letters are lower-cased; Python's full Unicode lower-casing is not modelled.
- Segments.Segment: start and end times, word-level data and non-string speaker or text values are not modelled, because the speech pipeline produces string labels and texts. For such values the script would print `str(value)`, and joining a non-string text would raise `TypeError`. A result whose "segments" entry is missing is left out.
- Paths.SplitExt: POSIX `os.path.splitext` only; Windows separators are not modelled.
