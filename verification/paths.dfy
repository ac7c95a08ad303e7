/**
 * `is_wav_file`: POSIX `os.path.splitext` followed by a case-insensitive
 * comparison of the extension with ".wav".
 */
module Paths {

  /** The index of the last occurrence of `c` in `s`, or -1 (`str.rfind`). */
  function LastIndexOf(s: string, c: char): (r: int)
    ensures -1 <= r < |s|
    ensures r >= 0 ==> s[r] == c
    ensures forall j :: r < j < |s| ==> s[j] != c
  {
    if s == [] then -1
    else if s[|s| - 1] == c then |s| - 1
    else LastIndexOf(s[..|s| - 1], c)
  }

  /** The contract of `LastIndexOf` pins the index down. */
  lemma LastIndexOfUnique(s: string, c: char, r: int)
    requires -1 <= r < |s|
    requires r >= 0 ==> s[r] == c
    requires forall j :: r < j < |s| ==> s[j] != c
    ensures r == LastIndexOf(s, c)
  {
  }

  /** `os.path.basename`: the text after the last '/'. */
  function Basename(p: string): string
  {
    p[LastIndexOf(p, '/') + 1..]
  }

  /** Some character other than '.' stands at an index in [lo, hi). */
  predicate HasNonDotBetween(p: string, lo: nat, hi: nat)
    requires hi <= |p|
  {
    exists k :: lo <= k < hi && p[k] != '.'
  }

  /** Some '.' of `b` comes after some other character than '.'. */
  ghost predicate DotAfterNonDot(b: string)
  {
    exists i, j :: 0 <= i < j < |b| && b[i] != '.' && b[j] == '.'
  }

  /** `os.path.splitext` on a POSIX path: the extension runs from the last '.'
      of the basename to the end, provided a character other than '.' precedes
      that dot within the basename; otherwise it is empty. */
  function SplitExt(p: string): (r: (string, string))
    ensures r.0 + r.1 == p
    ensures r.1 != "" ==> r.0 != ""
    ensures r.1 != "" ==> r.1[0] == '.'
    ensures forall k :: 1 <= k < |r.1| ==> r.1[k] != '.' && r.1[k] != '/'
  {
    var sep := LastIndexOf(p, '/');
    var dot := LastIndexOf(p, '.');
    if dot > sep && HasNonDotBetween(p, sep + 1, dot) then (p[..dot], p[dot..]) else (p, "")
  }

  /** The extension is non-empty exactly when some '.' of the basename comes
      after a character other than '.'. */
  lemma SplitExtFindsExtension(p: string)
    ensures SplitExt(p).1 != "" <==> DotAfterNonDot(Basename(p))
  {
    var sep := LastIndexOf(p, '/');
    var dot := LastIndexOf(p, '.');
    assert Basename(p) == p[sep + 1..];
    assert SplitExt(p).1 != "" <==> dot > sep && HasNonDotBetween(p, sep + 1, dot);
    ExtensionWitness(p, sep, dot);
  }

  /** `SplitExtFindsExtension` with the last '/' at `sep` and the last '.' at
      `dot` (-1 when absent). */
  lemma ExtensionWitness(p: string, sep: int, dot: int)
    requires -1 <= sep < |p| && -1 <= dot < |p|
    requires dot >= 0 ==> p[dot] == '.'
    requires forall j :: dot < j < |p| ==> p[j] != '.'
    ensures dot > sep && HasNonDotBetween(p, sep + 1, dot) <==> DotAfterNonDot(p[sep + 1..])
  {
    if dot > sep && HasNonDotBetween(p, sep + 1, dot) {
      var k :| sep + 1 <= k < dot && p[k] != '.';
      NonDotBeforeDot(p[sep + 1..], p, sep + 1, k, dot);
    }
    if DotAfterNonDot(p[sep + 1..]) {
      DotAfterNonDotGivesExtension(p, sep, dot);
    }
  }

  /** `b` is `p` from `lo` on: a non-dot at `k` before the '.' at `dot` in `p`
      is one in `b`. */
  lemma NonDotBeforeDot(b: string, p: string, lo: nat, k: int, dot: int)
    requires lo <= k < dot < |p| && b == p[lo..]
    requires p[k] != '.' && p[dot] == '.'
    ensures DotAfterNonDot(b)
  {
    assert b[k - lo] == p[k];
    assert b[dot - lo] == p[dot];
    DotAfterNonDotAt(b, k - lo, dot - lo);
  }

  /** A '.' after a non-dot in the basename lies at or before the last '.'
      of the path, so the non-dot lies between `sep` and that '.'. */
  lemma DotAfterNonDotGivesExtension(p: string, sep: int, dot: int)
    requires -1 <= sep < |p| && -1 <= dot < |p|
    requires forall j :: dot < j < |p| ==> p[j] != '.'
    requires DotAfterNonDot(p[sep + 1..])
    ensures dot > sep && HasNonDotBetween(p, sep + 1, dot)
  {
    var b := p[sep + 1..];
    var i, j :| 0 <= i < j < |b| && b[i] != '.' && b[j] == '.';
    assert p[sep + 1 + j] == b[j];
    assert p[sep + 1 + i] == b[i];
    assert sep + 1 + j <= dot;
    NonDotBetweenAt(p, sep + 1, dot, sep + 1 + i);
  }

  lemma DotAfterNonDotAt(b: string, i: int, j: int)
    requires 0 <= i < j < |b| && b[i] != '.' && b[j] == '.'
    ensures DotAfterNonDot(b)
  {
  }

  lemma NonDotBetweenAt(p: string, lo: nat, hi: nat, k: int)
    requires lo <= k < hi <= |p| && p[k] != '.'
    ensures HasNonDotBetween(p, lo, hi)
  {
  }

  /** A non-empty extension starts at the last '.' of the path. */
  lemma ExtensionFromLastDot(p: string)
    requires SplitExt(p).1 != ""
    ensures SplitExt(p).1 == p[LastIndexOf(p, '.')..]
  {
    var (root, e) := SplitExt(p);
    assert forall j :: |root| < j < |p| ==> p[j] == e[j - |root|];
    LastIndexOfUnique(p, '.', |root|);
  }

  /** ASCII lower-casing of one character. */
  function LowerChar(c: char): char
  {
    if 'A' <= c <= 'Z' then (c as int - 'A' as int + 'a' as int) as char else c
  }

  /** `str.lower`, restricted to ASCII letters. */
  function Lower(s: string): (r: string)
    ensures |r| == |s|
    ensures forall k :: 0 <= k < |s| ==> r[k] == LowerChar(s[k])
  {
    if s == [] then [] else [LowerChar(s[0])] + Lower(s[1..])
  }

  /** `is_wav_file`. */
  predicate IsWavFile(p: string): (r: bool)
    ensures r ==> |SplitExt(p).1| == 4 && |SplitExt(p).0| > 0
  {
    Lower(SplitExt(p).1) == ".wav"
  }

  /** `is_wav_file` holds exactly when the extension is ".wav" in any mix of
      upper and lower case. */
  lemma IsWavFileIgnoresCase(p: string)
    ensures IsWavFile(p) <==>
              var e := SplitExt(p).1;
              && |e| == 4 && e[0] == '.'
              && (e[1] == 'w' || e[1] == 'W')
              && (e[2] == 'a' || e[2] == 'A')
              && (e[3] == 'v' || e[3] == 'V')
  {
    var e := SplitExt(p).1;
    if |e| == 4 {
      var l := Lower(e);
      assert l == [l[0], l[1], l[2], l[3]];
    }
  }

  /** A path made of a name and a '.' followed by no further '.' or '/' splits
      into that name and that extension, provided some character of the name
      other than '.' or '/' has no '/' after it. */
  lemma SplitExtOfNamedPath(stem: string, ext: string, k: nat)
    requires k < |stem| && stem[k] != '.' && stem[k] != '/'
    requires forall j :: k < j < |stem| ==> stem[j] != '/'
    requires ext != [] && ext[0] == '.'
    requires forall j :: 1 <= j < |ext| ==> ext[j] != '.' && ext[j] != '/'
    ensures SplitExt(stem + ext) == (stem, ext)
  {
    var q := stem + ext;
    assert forall j :: |stem| <= j < |q| ==> q[j] == ext[j - |stem|];
    var sep := LastIndexOf(q, '/');
    assert sep < k;
    LastIndexOfUnique(q, '.', |stem|);
    assert HasNonDotBetween(q, sep + 1, |stem|) by {
      assert q[k] != '.';
    }
  }

  /** A basename of dots and then no further '.' has no extension. */
  lemma NoExtensionAfterLeadingDots(dots: string, rest: string)
    requires forall j :: 0 <= j < |dots| ==> dots[j] == '.'
    requires '.' !in rest && '/' !in rest
    ensures SplitExt(dots + rest).1 == ""
  {
    var p := dots + rest;
    var sep := LastIndexOf(p, '/');
    var dot := LastIndexOf(p, '.');
    assert forall j :: |dots| <= j < |p| ==> p[j] == rest[j - |dots|];
    assert dot < |dots|;
    if dot > sep {
      assert !HasNonDotBetween(p, sep + 1, dot);
    }
  }

  lemma WavExtensionShape()
    ensures ".wav" != [] && ".wav"[0] == '.'
    ensures forall j :: 1 <= j < |".wav"| ==> ".wav"[j] != '.' && ".wav"[j] != '/'
  {
    var w := ".wav";
    assert forall j :: 1 <= j < |w| ==> w[j] == 'w' || w[j] == 'a' || w[j] == 'v';
  }

  /** ".wav" is already lower case. */
  lemma LowerWav()
    ensures Lower(".wav") == ".wav"
  {
    var l := Lower(".wav");
    assert l[0] == '.' && l[1] == 'w' && l[2] == 'a' && l[3] == 'v';
  }

  /** `is_wav_file` ignores case: "x.WAV" and "talks/2023.interview.Wav" pass. */
  lemma IsWavFileUpperCase()
    ensures IsWavFile("x.WAV") && IsWavFile("talks/2023.interview.Wav")
  {
    UpperCaseWav();
    MixedCaseWavInDirectory();
  }

  lemma UpperCaseWav()
    ensures IsWavFile("x.WAV")
  {
    var e := ".WAV";
    assert forall j :: 1 <= j < |e| ==> e[j] == 'W' || e[j] == 'A' || e[j] == 'V';
    SplitExtOfNamedPath("x", e, 0);
    assert "x" + e == "x.WAV";
    IsWavFileIgnoresCase("x.WAV");
  }

  lemma MixedCaseWavInDirectory()
    ensures IsWavFile("talks/2023.interview.Wav")
  {
    var f := ".Wav";
    assert forall j :: 1 <= j < |f| ==> f[j] == 'W' || f[j] == 'a' || f[j] == 'v';
    var stem := "talks/2023.interview";
    SplitExtOfNamedPath(stem, f, 19);
    assert stem + f == "talks/2023.interview.Wav";
    IsWavFileIgnoresCase("talks/2023.interview.Wav");
  }

  /** Only the last extension counts: "x.wav.mp3" and "x.wave" fail. */
  lemma IsWavFileLastExtension()
    ensures !IsWavFile("x.wav.mp3") && !IsWavFile("x.wave")
  {
    Mp3AfterWav();
    WaveIsNotWav();
  }

  lemma Mp3AfterWav()
    ensures !IsWavFile("x.wav.mp3")
  {
    var e := ".mp3";
    assert forall j :: 1 <= j < |e| ==> e[j] == 'm' || e[j] == 'p' || e[j] == '3';
    var stem := "x.wav";
    SplitExtOfNamedPath(stem, e, 4);
    assert stem + e == "x.wav.mp3";
    IsWavFileIgnoresCase("x.wav.mp3");
  }

  lemma WaveIsNotWav()
    ensures !IsWavFile("x.wave")
  {
    var f := ".wave";
    assert forall j :: 1 <= j < |f| ==> f[j] == 'w' || f[j] == 'a' || f[j] == 'v' || f[j] == 'e';
    SplitExtOfNamedPath("x", f, 0);
    assert "x" + f == "x.wave";
    IsWavFileIgnoresCase("x.wave");
  }

  /** Dot-files named after the extension have no extension at all. */
  lemma IsWavFileDotFiles()
    ensures !IsWavFile(".wav") && !IsWavFile("..wav")
  {
    NoExtensionAfterLeadingDots(".", "wav");
    assert "." + "wav" == ".wav";
    NoExtensionAfterLeadingDots("..", "wav");
    assert ".." + "wav" == "..wav";
    assert Lower("") == "";
  }

  /** The path a converted file is written to, `p + ".wav"`, passes
      `is_wav_file` whenever the basename of `p` has a character other than '.'. */
  lemma ConvertedPathIsWav(p: string)
    requires exists k :: 0 <= k < |Basename(p)| && Basename(p)[k] != '.'
    ensures IsWavFile(p + ".wav")
  {
    var sep := LastIndexOf(p, '/');
    var k :| 0 <= k < |Basename(p)| && Basename(p)[k] != '.';
    assert p[sep + 1 + k] == Basename(p)[k];
    assert forall j :: sep + 1 + k < j < |p| ==> p[j] != '/';
    WavExtensionShape();
    SplitExtOfNamedPath(p, ".wav", sep + 1 + k);
    LowerWav();
  }
}
