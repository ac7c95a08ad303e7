/**
 * `save_result`: the loop that walks the diarized segments with a two-slot
 * accumulator (current speaker, current text), joins the texts of a speaker
 * who keeps talking, and writes the accumulated block each time the speaker
 * changes. The accumulator starts as ("", "") and is never written after the
 * loop. So, unless the first speaker is "" and provided there is at least one
 * segment, the transcript opens with an empty block; and it always misses its
 * last turn.
 */
module Transcript {
  import opened Options
  import opened Segments

  /** The two loop variables `currentspeaker` and `currenttext`. */
  datatype Accumulator = Accumulator(speaker: Option<string>, text: Option<string>)

  /** The accumulator before the first segment: ("", ""). */
  const INITIAL: Accumulator := Accumulator(Some(""), Some(""))

  /** The initial accumulator seen as a segment that precedes the real ones. */
  const INITIAL_SEGMENT: Segment := Segment(INITIAL.speaker, INITIAL.text)

  /** What the loop has done so far: the blocks written to the file, and the
      accumulator, or `None` once joining a missing text raised `TypeError`. */
  datatype Progress = Progress(writes: seq<string>, current: Option<Accumulator>)

  /** One iteration of the loop. After `TypeError` nothing changes. Otherwise
      the accumulator takes the segment's speaker, and at most one block is
      appended to the file: one exactly when the speaker changes, and it is the
      block of the accumulator so far. Joining raises exactly when the speaker
      stays and a text is missing. */
  function Step(p: Progress, s: Segment): (r: Progress)
    ensures p.current.None? ==> r == p
    ensures p.current.Some? ==>
              var acc := p.current.value;
              && (r.current.None? <==> acc.speaker == s.speaker && (acc.text.None? || s.text.None?))
              && (r.current.Some? ==> r.current.value.speaker == s.speaker)
              && (r.writes == if acc.speaker == s.speaker then p.writes
                              else p.writes + [Block(acc.speaker, acc.text)])
  {
    match p.current
    case None => p
    case Some(acc) =>
      if acc.speaker == s.speaker then
        if acc.text.Some? && s.text.Some? then
          Progress(p.writes, Some(Accumulator(acc.speaker, Some(acc.text.value + " " + s.text.value))))
        else
          Progress(p.writes, None)
      else
        Progress(p.writes + [Block(acc.speaker, acc.text)], Some(Accumulator(s.speaker, s.text)))
  }

  /** The loop after its first `n` iterations. */
  function Scan(segs: seq<Segment>, n: nat): Progress
    requires n <= |segs|
  {
    if n == 0 then Progress([], Some(INITIAL)) else Step(Scan(segs, n - 1), segs[n - 1])
  }

  /** The whole loop: no block is written after it. */
  function Formatted(segs: seq<Segment>): Progress
  {
    Scan(segs, |segs|)
  }

  /** The file's content: the written blocks one after another. */
  function Concat(ws: seq<string>): string
  {
    if ws == [] then "" else Concat(ws[..|ws| - 1]) + ws[|ws| - 1]
  }

  /** Once `TypeError` is raised nothing more happens. */
  lemma {:induction false} RaisedIsFinal(segs: seq<Segment>, m: nat, n: nat)
    requires m <= n <= |segs|
    requires Scan(segs, m).current.None?
    ensures Scan(segs, n) == Scan(segs, m)
    decreases n - m
  {
    if m < n {
      assert Scan(segs, m + 1) == Step(Scan(segs, m), segs[m]);
      RaisedIsFinal(segs, m + 1, n);
    }
  }

  /** Blocks, once written, stay: the blocks written after `m` iterations begin
      the blocks written after `n >= m` iterations. */
  lemma {:induction false} WritesOnlyGrow(segs: seq<Segment>, m: nat, n: nat)
    requires m <= n <= |segs|
    ensures Scan(segs, m).writes <= Scan(segs, n).writes
    decreases n - m
  {
    if m < n {
      WritesOnlyGrow(segs, m + 1, n);
    }
  }

  /** The segments the loop has seen after `n` iterations, headed by the
      initial accumulator. */
  function Seen(segs: seq<Segment>, n: nat): (xs: seq<Segment>)
    requires n <= |segs|
    ensures xs != []
  {
    [INITIAL_SEGMENT] + segs[..n]
  }

  /** `p` is where the loop stands after seeing the segments whose turns are
      `ts`: it has raised `TypeError` exactly when some turn cannot be joined;
      otherwise the accumulator holds the last turn and every earlier turn, and
      only those, has been written as a block, in order. */
  ghost predicate Follows(p: Progress, ts: seq<Turn>)
  {
    && ts != []
    && (p.current.Some? <==> AllMergeable(ts))
    && (p.current.Some? ==>
          && p.current.value == Accumulator(ts[|ts| - 1].speaker, TurnText(ts[|ts| - 1]))
          && p.writes == RenderAll(ts[..|ts| - 1]))
  }

  /** `Turns` of a sequence one segment longer. */
  lemma TurnsSnoc(xs: seq<Segment>, x: Segment)
    requires xs != []
    ensures var ts := Turns(xs);
            Turns(xs + [x])
              == if ts[|ts| - 1].speaker == x.speaker
                 then ts[..|ts| - 1] + [Turn(x.speaker, ts[|ts| - 1].texts + [x.text])]
                 else ts + [Turn(x.speaker, [x.text])]
  {
    assert (xs + [x])[..|xs|] == xs;
  }

  /** The loop follows the speaker turns of the segments it has seen, headed by
      the initial accumulator. */
  lemma {:induction false} ScanFollowsTurns(segs: seq<Segment>, n: nat)
    requires n <= |segs|
    ensures Follows(Scan(segs, n), Turns(Seen(segs, n)))
  {
    if n == 0 {
      ScanStartsWithInitialTurn(segs);
    } else {
      ScanFollowsTurns(segs, n - 1);
      ScanStep(segs, n);
    }
  }

  /** Before the loop: the one turn of the initial accumulator. */
  lemma ScanStartsWithInitialTurn(segs: seq<Segment>)
    ensures Follows(Scan(segs, 0), Turns(Seen(segs, 0)))
  {
    var t := Turn(Some(""), [Some("")]);
    assert Turns(Seen(segs, 0)) == [t] by {
      assert Seen(segs, 0) == [INITIAL_SEGMENT];
      assert Seen(segs, 0)[..0] == [];
    }
    assert Values(t.texts) == [""] by {
      assert t.texts[..0] == [];
    }
  }

  /** One iteration keeps the loop in step with the turns. */
  lemma ScanStep(segs: seq<Segment>, n: nat)
    requires 0 < n <= |segs|
    requires Follows(Scan(segs, n - 1), Turns(Seen(segs, n - 1)))
    ensures Follows(Scan(segs, n), Turns(Seen(segs, n)))
  {
    var xs := Seen(segs, n - 1);
    var x := segs[n - 1];
    assert Scan(segs, n) == Step(Scan(segs, n - 1), x);
    assert Seen(segs, n) == xs + [x];
    TurnsSnoc(xs, x);
    LastTurnNonEmpty(xs);
    StepFollows(Scan(segs, n - 1), Turns(xs), x);
  }

  /** The last turn holds at least one text. */
  lemma LastTurnNonEmpty(xs: seq<Segment>)
    requires xs != []
    ensures Turns(xs)[|Turns(xs)| - 1].texts != []
  {
    TurnsPartition(xs);
  }

  /** One iteration, with the turns seen so far as `ts`. */
  lemma StepFollows(p: Progress, ts: seq<Turn>, x: Segment)
    requires Follows(p, ts)
    requires ts[|ts| - 1].texts != []
    ensures Follows(Step(p, x),
                    if ts[|ts| - 1].speaker == x.speaker
                    then ts[..|ts| - 1] + [Turn(x.speaker, ts[|ts| - 1].texts + [x.text])]
                    else ts + [Turn(x.speaker, [x.text])])
  {
    if ts[|ts| - 1].speaker == x.speaker {
      ExtendTurn(ts, x, p);
    } else {
      OpenTurn(ts, x, p);
    }
  }

  /** The step of `ScanFollowsTurns` where the speaker keeps talking. */
  lemma ExtendTurn(ts: seq<Turn>, x: Segment, p: Progress)
    requires Follows(p, ts)
    requires ts[|ts| - 1].speaker == x.speaker
    requires ts[|ts| - 1].texts != []
    ensures Follows(Step(p, x), ts[..|ts| - 1] + [Turn(x.speaker, ts[|ts| - 1].texts + [x.text])])
  {
    var m := |ts| - 1;
    var ts' := ts[..m] + [Turn(x.speaker, ts[m].texts + [x.text])];
    assert ts'[..m] == ts[..m];
    assert forall k :: 0 <= k < m ==> ts'[k] == ts[k];
    if p.current.None? {
      ExtendRaisedTurn(ts, x, p);
    } else if p.current.value.text.Some? && x.text.Some? {
      ExtendMergedTurn(ts, x, p);
    } else {
      ExtendTurnWithMissingText(ts, x, p);
      assert !Mergeable(ts'[m]);
    }
  }

  /** Two present texts of one speaker are joined with a space. */
  lemma ExtendMergedTurn(ts: seq<Turn>, x: Segment, p: Progress)
    requires Follows(p, ts)
    requires ts[|ts| - 1].speaker == x.speaker
    requires ts[|ts| - 1].texts != []
    requires p.current.Some? && p.current.value.text.Some? && x.text.Some?
    ensures var grown := Turn(x.speaker, ts[|ts| - 1].texts + [x.text]);
            && AllPresent(grown.texts)
            && Step(p, x).current == Some(Accumulator(x.speaker, TurnText(grown)))
  {
    var last := ts[|ts| - 1];
    var grown := Turn(x.speaker, last.texts + [x.text]);
    assert AllPresent(last.texts) by {
      if !AllPresent(last.texts) {
        assert |last.texts| == 1;
      }
    }
    assert AllPresent(grown.texts);
    assert grown.texts[..|last.texts|] == last.texts;
    assert Values(grown.texts) == Values(last.texts) + [x.text.value];
  }

  /** A missing text in a turn of two or more segments raises `TypeError`. */
  lemma ExtendTurnWithMissingText(ts: seq<Turn>, x: Segment, p: Progress)
    requires Follows(p, ts)
    requires ts[|ts| - 1].speaker == x.speaker
    requires ts[|ts| - 1].texts != []
    requires p.current.Some? && !(p.current.value.text.Some? && x.text.Some?)
    ensures !Mergeable(Turn(x.speaker, ts[|ts| - 1].texts + [x.text]))
  {
    var last := ts[|ts| - 1];
    var grown := Turn(x.speaker, last.texts + [x.text]);
    if p.current.value.text.None? {
      assert !AllPresent(last.texts);
      var k :| 0 <= k < |last.texts| && last.texts[k].None?;
      assert grown.texts[k].None?;
    } else {
      assert grown.texts[|last.texts|].None?;
    }
  }

  /** After `TypeError` some turn stays unmergeable as the last one grows. */
  lemma ExtendRaisedTurn(ts: seq<Turn>, x: Segment, p: Progress)
    requires Follows(p, ts)
    requires ts[|ts| - 1].speaker == x.speaker
    requires ts[|ts| - 1].texts != []
    requires p.current.None?
    ensures !AllMergeable(ts[..|ts| - 1] + [Turn(x.speaker, ts[|ts| - 1].texts + [x.text])])
  {
    var m := |ts| - 1;
    var last := ts[m];
    var grown := Turn(x.speaker, last.texts + [x.text]);
    var ts' := ts[..m] + [grown];
    var k :| 0 <= k < |ts| && !(ts[k].texts != [] && Mergeable(ts[k]));
    if k < m {
      assert ts'[k] == ts[k];
    } else {
      var j :| 0 <= j < |last.texts| && last.texts[j].None?;
      assert grown.texts[j].None?;
      assert !Mergeable(ts'[m]);
    }
  }

  /** The step of `ScanFollowsTurns` where the speaker changes. */
  lemma OpenTurn(ts: seq<Turn>, x: Segment, p: Progress)
    requires Follows(p, ts)
    requires ts[|ts| - 1].speaker != x.speaker
    ensures Follows(Step(p, x), ts + [Turn(x.speaker, [x.text])])
  {
    var newTurn := Turn(x.speaker, [x.text]);
    var ts' := ts + [newTurn];
    assert ts'[..|ts'| - 1] == ts;
    if p.current.Some? {
      OpenTurnWrites(ts, x, p);
    } else {
      assert !AllMergeable(ts');
    }
  }

  /** Opening a turn while no `TypeError` has been raised writes the last turn. */
  lemma OpenTurnWrites(ts: seq<Turn>, x: Segment, p: Progress)
    requires Follows(p, ts) && p.current.Some?
    requires ts[|ts| - 1].speaker != x.speaker
    ensures var ts' := ts + [Turn(x.speaker, [x.text])];
            && AllMergeable(ts')
            && Step(p, x).current == Some(Accumulator(x.speaker, TurnText(ts'[|ts'| - 1])))
            && Step(p, x).writes == RenderAll(ts)
  {
    var newTurn := Turn(x.speaker, [x.text]);
    var ts' := ts + [newTurn];
    assert forall k :: 0 <= k < |ts| ==> ts'[k] == ts[k];
    if x.text.Some? {
      assert newTurn.texts[..0] == [];
      assert Values(newTurn.texts) == [x.text.value];
    }
    var acc := p.current.value;
    assert Step(p, x) == Progress(p.writes + [Block(acc.speaker, acc.text)], Some(Accumulator(x.speaker, x.text)));
    assert ts == ts[..|ts| - 1] + [ts[|ts| - 1]];
  }

  /** The loop's output, described without the loop. The run raises
      `TypeError` exactly when a turn of two or more segments (the initial
      ("", "") counting as the first segment) has a missing text. Otherwise the
      file holds one block per turn, the speaker's texts joined by single
      spaces, for every turn but the last, which is never written. */
  lemma FormattedByTurns(segs: seq<Segment>)
    ensures var ts := Turns([INITIAL_SEGMENT] + segs);
            && ts != []
            && (Formatted(segs).current.Some? <==> AllMergeable(ts))
            && (Formatted(segs).current.Some? ==>
                  && Formatted(segs).writes == RenderAll(ts[..|ts| - 1])
                  && Formatted(segs).current.value
                       == Accumulator(ts[|ts| - 1].speaker, TurnText(ts[|ts| - 1])))
  {
    assert Seen(segs, |segs|) == [INITIAL_SEGMENT] + segs;
    ScanFollowsTurns(segs, |segs|);
  }

  /** The block of the initial accumulator: an empty speaker line, an empty
      text line and a blank line. */
  lemma InitialBlock()
    ensures Block(INITIAL.speaker, INITIAL.text) == "\n\n\n"
  {
    assert ConvertToString(Some("")) == "";
  }

  /** One block is written per speaker change along "", s1, s2, ... */
  lemma BlocksPerSpeakerChange(segs: seq<Segment>)
    requires Formatted(segs).current.Some?
    ensures |Formatted(segs).writes| == SpeakerChanges([INITIAL_SEGMENT] + segs)
  {
    FormattedByTurns(segs);
    TurnCount([INITIAL_SEGMENT] + segs);
  }

  /** Unless the first segment's speaker is "", the file opens with the block of
      the initial accumulator, an empty speaker line and an empty text line. */
  lemma FirstBlockIsEmpty(segs: seq<Segment>)
    requires segs != [] && segs[0].speaker != Some("")
    ensures Formatted(segs).writes != []
    ensures Formatted(segs).writes[0] == "\n\n\n"
  {
    InitialBlock();
    assert Scan(segs, 0) == Progress([], Some(INITIAL));
    assert Scan(segs, 1).writes == ["\n\n\n"];
    WritesOnlyGrow(segs, 1, |segs|);
  }

  /** No segments give an empty file. */
  lemma EmptyTranscript()
    ensures Formatted([]) == Progress([], Some(INITIAL))
  {
  }

  /** A worked transcript: a speaker who keeps talking is joined with single
      spaces, and the last turn stays unwritten. */
  lemma ExampleTranscript()
    ensures var segs := [Segment(Some("A"), Some("hi")), Segment(Some("A"), Some("there")),
                         Segment(Some("B"), Some("yo"))];
            && Concat(Formatted(segs).writes) == "\n\n\nA\nhi there\n\n"
            && Formatted(segs).current == Some(Accumulator(Some("B"), Some("yo")))
  {
    var segs := [Segment(Some("A"), Some("hi")), Segment(Some("A"), Some("there")),
                 Segment(Some("B"), Some("yo"))];
    var a, b := Some("A"), Some("B");
    ExampleStrings();
    var ws := ["\n\n\n", "A\nhi there\n\n"];
    StepOpens([], INITIAL, segs[0]);
    assert Scan(segs, 1) == Progress(["\n\n\n"], Some(Accumulator(a, Some("hi"))));
    StepJoins(["\n\n\n"], a, "hi", "there");
    assert Scan(segs, 2) == Progress(["\n\n\n"], Some(Accumulator(a, Some("hi there"))));
    StepOpens(["\n\n\n"], Accumulator(a, Some("hi there")), segs[2]);
    assert Scan(segs, 3) == Progress(ws, Some(Accumulator(b, Some("yo"))));
    ConcatTwo(ws);
  }

  /** A segment of the accumulated speaker, both texts present. */
  lemma StepJoins(writes: seq<string>, speaker: Option<string>, t: string, u: string)
    ensures Step(Progress(writes, Some(Accumulator(speaker, Some(t)))), Segment(speaker, Some(u)))
              == Progress(writes, Some(Accumulator(speaker, Some(t + " " + u))))
  {
  }

  /** A segment of another speaker. */
  lemma StepOpens(writes: seq<string>, acc: Accumulator, s: Segment)
    requires acc.speaker != s.speaker
    ensures Step(Progress(writes, Some(acc)), s)
              == Progress(writes + [Block(acc.speaker, acc.text)], Some(Accumulator(s.speaker, s.text)))
  {
  }

  lemma ConcatTwo(ws: seq<string>)
    requires |ws| == 2
    ensures Concat(ws) == ws[0] + ws[1]
  {
    assert ws[..1][..0] == [];
    assert Concat(ws[..1]) == ws[0];
  }

  /** The string facts `ExampleTranscript` uses. */
  lemma ExampleStrings()
    ensures Some("A") != Some("B") && Some("A") != INITIAL.speaker
    ensures "hi" + " " + "there" == "hi there"
    ensures Block(INITIAL.speaker, INITIAL.text) == "\n\n\n"
    ensures Block(Some("A"), Some("hi there")) == "A\nhi there\n\n"
  {
    assert "A"[0] != "B"[0];
    assert |"A"| != |INITIAL.speaker.value|;
    InitialBlock();
  }

  /** A worked run that raises: a missing speaker differs from "" and opens a
      turn, and joining a missing text to it raises `TypeError` after the
      initial block was written. */
  lemma ExampleRaise()
    ensures Formatted([Segment(None, Some("hi")), Segment(None, None)]) == Progress(["\n\n\n"], None)
    ensures Formatted([Segment(Some(""), None)]) == Progress([], None)
  {
    assert Scan([Segment(Some(""), None)], 0) == Progress([], Some(INITIAL));
    var segs := [Segment(None, Some("hi")), Segment(None, None)];
    InitialBlock();
    assert Scan(segs, 0) == Progress([], Some(INITIAL));
    assert Scan(segs, 1) == Progress(["\n\n\n"], Some(Accumulator(None, Some("hi"))));
  }

  /** `save_result`: the file at the target path is removed first, so its new
      content is the concatenation of `writes`. `raised` reports the
      `TypeError` of joining a missing text, which ends the loop. */
  method SaveResult(segments: seq<Segment>) returns (writes: seq<string>, raised: bool)
    ensures writes == Formatted(segments).writes
    ensures raised <==> Formatted(segments).current.None?
    ensures !raised <==> AllMergeable(Turns([INITIAL_SEGMENT] + segments))
    ensures !raised ==>
              var ts := Turns([INITIAL_SEGMENT] + segments);
              writes == RenderAll(ts[..|ts| - 1])
    ensures !raised ==> |writes| == SpeakerChanges([INITIAL_SEGMENT] + segments)
  {
    var currentSpeaker, currentText := INITIAL.speaker, INITIAL.text;
    writes, raised := [], false;
    var i := 0;
    while i < |segments| && !raised
      invariant 0 <= i <= |segments|
      invariant Scan(segments, i)
                  == Progress(writes, if raised then None else Some(Accumulator(currentSpeaker, currentText)))
    {
      var speaker := segments[i].speaker;
      if currentSpeaker == speaker {
        if currentText.None? || segments[i].text.None? {
          raised := true;
        } else {
          currentText := Some(currentText.value + " " + segments[i].text.value);
        }
      } else {
        writes := writes + [Block(currentSpeaker, currentText)];
        currentSpeaker, currentText := speaker, segments[i].text;
      }
      i := i + 1;
    }
    if raised {
      RaisedIsFinal(segments, i, |segments|);
    }
    FormattedByTurns(segments);
    if !raised {
      BlocksPerSpeakerChange(segments);
    }
  }
}
