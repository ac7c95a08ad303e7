/**
 * The diarized segment list handed to the transcript formatter, the way one
 * (speaker, text) pair is rendered, and the grouping of a segment list into
 * speaker turns: maximal runs of consecutive segments with the same speaker.
 * The turns are the reference against which the formatter's output is proved.
 */
module Segments {
  import opened Options

  /** One segment of the diarized result: its `speaker` and `text` keys, each
      of which may be missing. Start and end times play no part in the output. */
  datatype Segment = Segment(speaker: Option<string>, text: Option<string>)

  /** The default that `convert_to_string` substitutes for `None`. */
  const NONE_PLACEHOLDER: string := "{None}"

  /** `convert_to_string`: the string itself, or the placeholder for `None`. */
  function ConvertToString(v: Option<string>): (r: string)
    ensures v.Some? ==> r == v.value
    ensures v.None? ==> r == NONE_PLACEHOLDER
  {
    match v
    case Some(s) => s
    case None => NONE_PLACEHOLDER
  }

  /** Two values render alike only if they are equal or are `None` and the
      literal placeholder string. */
  lemma ConvertToStringCollisions(a: Option<string>, b: Option<string>)
    ensures ConvertToString(a) == ConvertToString(b) <==>
              a == b || {a, b} == {None, Some(NONE_PLACEHOLDER)}
  {
  }

  /** One block of the transcript file: the rendered speaker and a line
      break, the rendered text, then a line break and a blank line. */
  function Block(speaker: Option<string>, text: Option<string>): (r: string)
    ensures |r| == |ConvertToString(speaker)| + |ConvertToString(text)| + 3
  {
    ConvertToString(speaker) + "\n" + ConvertToString(text) + "\n\n"
  }

  /** A block splits into the rendered speaker, a line break, the rendered
      text, and a line break followed by a blank line. */
  lemma BlockLayout(speaker: Option<string>, text: Option<string>)
    ensures var r, sp, tx := Block(speaker, text), ConvertToString(speaker), ConvertToString(text);
            && r[..|sp|] == sp && r[|sp|] == '\n'
            && r[|sp| + 1..|r| - 2] == tx
            && r[|r| - 2..] == "\n\n"
  {
  }

  /** The first line of a string, without its line break. */
  function FirstLine(s: string): string
  {
    if s == [] || s[0] == '\n' then [] else [s[0]] + FirstLine(s[1..])
  }

  /** A block reads back: its first line is the rendered speaker whenever the
      speaker label contains no line break. */
  lemma {:induction false} BlockSpeakerLine(speaker: Option<string>, text: Option<string>)
    requires '\n' !in ConvertToString(speaker)
    ensures FirstLine(Block(speaker, text)) == ConvertToString(speaker)
  {
    var head := ConvertToString(speaker);
    var tail := "\n" + ConvertToString(text) + "\n\n";
    assert Block(speaker, text) == head + tail;
    FirstLineOfPrefix(head, tail);
  }

  lemma {:induction false} FirstLineOfPrefix(head: string, tail: string)
    requires '\n' !in head
    requires tail != [] && tail[0] == '\n'
    ensures FirstLine(head + tail) == head
  {
    if head != [] {
      assert (head + tail)[1..] == head[1..] + tail;
      FirstLineOfPrefix(head[1..], tail);
    } else {
      assert head + tail == tail;
    }
  }

  /** A speaker turn: one speaker and the texts of the consecutive segments
      attributed to them, in order. */
  datatype Turn = Turn(speaker: Option<string>, texts: seq<Option<string>>)

  /** The segments a turn stands for. */
  function Expand(t: Turn): (xs: seq<Segment>)
    ensures |xs| == |t.texts|
    ensures forall k :: 0 <= k < |xs| ==> xs[k] == Segment(t.speaker, t.texts[k])
  {
    seq(|t.texts|, k requires 0 <= k < |t.texts| => Segment(t.speaker, t.texts[k]))
  }

  /** The segments a sequence of turns stands for, in order. */
  function Flatten(ts: seq<Turn>): seq<Segment>
  {
    if ts == [] then [] else Flatten(ts[..|ts| - 1]) + Expand(ts[|ts| - 1])
  }

  /** `ts` splits `xs` into speaker turns: read in order the turns give back
      `xs`, no turn is empty, and neighbouring turns have different speakers. */
  ghost predicate IsTurnPartition(xs: seq<Segment>, ts: seq<Turn>)
  {
    && Flatten(ts) == xs
    && (forall k :: 0 <= k < |ts| ==> ts[k].texts != [])
    && (forall k :: 0 < k < |ts| ==> ts[k - 1].speaker != ts[k].speaker)
  }

  /** The speaker turns of a segment sequence, built segment by segment. */
  function Turns(xs: seq<Segment>): (ts: seq<Turn>)
    ensures (ts == []) == (xs == [])
  {
    if xs == [] then []
    else
      var ts := Turns(xs[..|xs| - 1]);
      var x := xs[|xs| - 1];
      if ts != [] && ts[|ts| - 1].speaker == x.speaker then
        ts[..|ts| - 1] + [Turn(x.speaker, ts[|ts| - 1].texts + [x.text])]
      else
        ts + [Turn(x.speaker, [x.text])]
  }

  lemma FlattenSnoc(ts: seq<Turn>, t: Turn)
    ensures Flatten(ts + [t]) == Flatten(ts) + Expand(t)
  {
    assert (ts + [t])[..|ts|] == ts;
  }

  lemma ExpandSnoc(speaker: Option<string>, texts: seq<Option<string>>, text: Option<string>)
    ensures Expand(Turn(speaker, texts + [text])) == Expand(Turn(speaker, texts)) + [Segment(speaker, text)]
  {
  }

  /** `Turns` meets its declarative description. */
  lemma {:induction false} TurnsPartition(xs: seq<Segment>)
    ensures IsTurnPartition(xs, Turns(xs))
  {
    if xs != [] {
      var init, x := xs[..|xs| - 1], xs[|xs| - 1];
      assert xs == init + [x];
      TurnsPartition(init);
      var ts := Turns(init);
      if ts != [] && ts[|ts| - 1].speaker == x.speaker {
        PartitionExtendLast(init, ts, x);
      } else {
        PartitionAddTurn(init, ts, x);
      }
    }
  }

  /** A segment with the last turn's speaker joins that turn. */
  lemma PartitionExtendLast(xs: seq<Segment>, ts: seq<Turn>, x: Segment)
    requires IsTurnPartition(xs, ts)
    requires ts != [] && ts[|ts| - 1].speaker == x.speaker
    ensures IsTurnPartition(xs + [x], ts[..|ts| - 1] + [Turn(x.speaker, ts[|ts| - 1].texts + [x.text])])
  {
    var m := |ts| - 1;
    var last := ts[m];
    var grown := Turn(x.speaker, last.texts + [x.text]);
    var ts' := ts[..m] + [grown];
    assert ts == ts[..m] + [last];
    FlattenSnoc(ts[..m], last);
    FlattenSnoc(ts[..m], grown);
    ExpandSnoc(x.speaker, last.texts, x.text);
    assert Expand(last) == Expand(Turn(x.speaker, last.texts));
    assert Flatten(ts') == xs + [x];
    assert forall k :: 0 <= k < m ==> ts'[k] == ts[k];
  }

  /** A segment with another speaker opens a turn of its own. */
  lemma PartitionAddTurn(xs: seq<Segment>, ts: seq<Turn>, x: Segment)
    requires IsTurnPartition(xs, ts)
    requires ts != [] ==> ts[|ts| - 1].speaker != x.speaker
    ensures IsTurnPartition(xs + [x], ts + [Turn(x.speaker, [x.text])])
  {
    var t := Turn(x.speaker, [x.text]);
    FlattenSnoc(ts, t);
    assert Expand(t) == [x];
    var ts' := ts + [t];
    assert forall k :: 0 <= k < |ts| ==> ts'[k] == ts[k];
  }

  /** The declarative description determines the turns: any split into speaker
      turns is the one `Turns` builds. */
  lemma {:induction false} TurnsUnique(xs: seq<Segment>, ts: seq<Turn>)
    requires IsTurnPartition(xs, ts)
    ensures ts == Turns(xs)
    decreases |xs|
  {
    if ts != [] {
      var m := |ts| - 1;
      var last := ts[m];
      var n := |last.texts|;
      assert ts == ts[..m] + [last];
      FlattenSnoc(ts[..m], last);
      assert xs == Flatten(ts[..m]) + Expand(last);
      assert xs != [];
      var init, x := xs[..|xs| - 1], xs[|xs| - 1];
      assert x == Segment(last.speaker, last.texts[n - 1]);
      if n == 1 {
        assert Flatten(ts[..m]) == init;
        assert IsTurnPartition(init, ts[..m]);
        TurnsUnique(init, ts[..m]);
        assert last == Turn(x.speaker, [x.text]);
      } else {
        var shorter := Turn(last.speaker, last.texts[..n - 1]);
        var ts1 := ts[..m] + [shorter];
        FlattenSnoc(ts[..m], shorter);
        ExpandSnoc(last.speaker, last.texts[..n - 1], last.texts[n - 1]);
        assert last.texts[..n - 1] + [last.texts[n - 1]] == last.texts;
        assert Expand(last) == Expand(shorter) + [x];
        assert Flatten(ts1) == init;
        assert IsTurnPartition(init, ts1);
        TurnsUnique(init, ts1);
        assert ts1[..m] == ts[..m];
      }
    }
  }

  /** The number of places where a segment's speaker differs from the speaker
      of the segment before it. */
  function SpeakerChanges(xs: seq<Segment>): nat
  {
    if |xs| <= 1 then 0
    else
      SpeakerChanges(xs[..|xs| - 1])
        + (if xs[|xs| - 2].speaker != xs[|xs| - 1].speaker then 1 else 0)
  }

  /** A non-empty sequence has one turn more than it has speaker changes. */
  lemma {:induction false} TurnCount(xs: seq<Segment>)
    requires xs != []
    ensures |Turns(xs)| == SpeakerChanges(xs) + 1
    ensures Turns(xs)[|Turns(xs)| - 1].speaker == xs[|xs| - 1].speaker
  {
    if |xs| > 1 {
      var init := xs[..|xs| - 1];
      TurnCount(init);
      assert init[|init| - 1] == xs[|xs| - 2];
    }
  }

  /** Every text of the turn is present. */
  predicate AllPresent(texts: seq<Option<string>>)
  {
    forall k :: 0 <= k < |texts| ==> texts[k].Some?
  }

  /** The present texts, in order. */
  function Values(texts: seq<Option<string>>): (ws: seq<string>)
    requires AllPresent(texts)
    ensures |ws| == |texts|
    ensures forall k :: 0 <= k < |ws| ==> Some(ws[k]) == texts[k]
  {
    if texts == [] then [] else Values(texts[..|texts| - 1]) + [texts[|texts| - 1].value]
  }

  /** The words joined by single spaces, in order. */
  function JoinWithSpaces(ws: seq<string>): string
    requires ws != []
  {
    if |ws| == 1 then ws[0] else JoinWithSpaces(ws[..|ws| - 1]) + " " + ws[|ws| - 1]
  }

  /** A turn whose texts can be joined: a single segment, or texts that are all
      present. Joining a missing text is a Python `TypeError`. */
  predicate Mergeable(t: Turn)
  {
    |t.texts| == 1 || AllPresent(t.texts)
  }

  predicate AllMergeable(ts: seq<Turn>)
  {
    forall k :: 0 <= k < |ts| ==> ts[k].texts != [] && Mergeable(ts[k])
  }

  /** The text of a turn: its texts joined by single spaces, or the one missing
      text of a single-segment turn. */
  function TurnText(t: Turn): Option<string>
    requires t.texts != [] && Mergeable(t)
  {
    if AllPresent(t.texts) then Some(JoinWithSpaces(Values(t.texts))) else t.texts[0]
  }

  /** The block a turn is written as. */
  function Render(t: Turn): string
    requires t.texts != [] && Mergeable(t)
  {
    Block(t.speaker, TurnText(t))
  }

  /** The blocks of the turns, in order. */
  function RenderAll(ts: seq<Turn>): (bs: seq<string>)
    requires AllMergeable(ts)
    ensures |bs| == |ts|
    ensures forall k :: 0 <= k < |ts| ==> bs[k] == Render(ts[k])
  {
    if ts == [] then [] else RenderAll(ts[..|ts| - 1]) + [Render(ts[|ts| - 1])]
  }
}
