/**
 * The search for the buzzer sound file that runs once at start-up
 * (find_audio_file in alert_system.py).
 *
 * The file system is an input: `paths` answers `os.path.exists`, and
 * `listing` gives, for each directory, the names of its entries in the
 * order the operating system yields them, which is the order `glob`
 * returns its matches in.  Paths are POSIX strings.  Symbolic links are
 * not modelled: an exact glob tests `lexists`, taken here as `exists`.
 */
module AudioSearch {
  import opened Base

  /** The extensions searched for, as glob patterns, in order of preference. */
  const AudioPatterns: seq<string> := ["*.mp3", "*.wav", "*.ogg", "*.m4a"]

  /** The suffixes a command-line path may end with, compared after lower-casing. */
  const OverrideSuffixes: seq<string> := [".mp3", ".wav", ".ogg", ".m4a"]

  /** Buzzer-related base names, in order of preference. */
  const PreferredNames: seq<string> := ["buzzer", "alarm", "alert", "beep", "notification", "sound"]

  datatype FileSystem = FileSystem(paths: set<string>, listing: map<string, seq<string>>)

  /** What the search reads from its environment: the command line, the
      working directory, the home directory and the file system. */
  datatype Env = Env(argv: seq<string>, cwd: string, home: string, fs: FileSystem)

  /** A glob pattern: a path without wildcards, or a directory joined with `*` and a suffix. */
  datatype Pattern = Exact(dir: string, name: string) | Wildcard(dir: string, suffix: string)

  /** Every listed entry exists, and every listed directory exists. */
  ghost predicate Consistent(fs: FileSystem)
  {
    && (forall d :: d in fs.listing ==> d in fs.paths)
    && (forall d, n :: d in fs.listing && n in fs.listing[d] ==> Join(d, n) in fs.paths)
  }

  /** `os.path.join` on POSIX for a relative name. */
  function Join(dir: string, name: string): string
  {
    if dir == [] || dir[|dir| - 1] == '/' then dir + name else dir + "/" + name
  }

  function RStripSlashes(s: string): string
  {
    if s != [] && s[|s| - 1] == '/' then RStripSlashes(s[..|s| - 1]) else s
  }

  /** `os.path.expanduser("~/" + sub)` for the home directory `home`. */
  function ExpandHome(home: string, sub: string): string
  {
    RStripSlashes(home) + "/" + sub
  }

  /** The search locations, in order of preference. */
  function Locations(cwd: string, home: string): seq<string>
  {
    [cwd, ExpandHome(home, "Downloads"), ExpandHome(home, "Music"),
     ExpandHome(home, "Desktop"), ExpandHome(home, "Documents")]
  }

  /** `str.lower` on ASCII letters. */
  function LowerChar(c: char): char
  {
    if 'A' <= c <= 'Z' then (c as int + 32) as char else c
  }

  function Lower(s: string): string
  {
    seq(|s|, i requires 0 <= i < |s| => LowerChar(s[i]))
  }

  /** `s[1:]`, which is empty for an empty `s`. */
  function Tail(s: string): string
  {
    if s == [] then [] else s[1..]
  }

  /** A command-line path is used iff it exists and its lower-cased form
      ends in one of the audio suffixes. */
  predicate ValidOverride(fs: FileSystem, path: string)
  {
    path in fs.paths && AudioName(Lower(path))
  }

  /** `s` ends in one of the audio suffixes. */
  predicate AudioName(s: string)
  {
    exists k :: 0 <= k < |OverrideSuffixes| && EndsWith(s, OverrideSuffixes[k])
  }

  /** fnmatch of a directory entry against `*suffix`: a name that starts
      with a dot is hidden and never matches a pattern that does not. */
  predicate StarMatch(name: string, suffix: string)
  {
    name != [] && name[0] != '.' && EndsWith(name, suffix)
  }

  function Matching(dir: string, names: seq<string>, suffix: string): seq<string>
  {
    if names == [] then []
    else (if StarMatch(names[0], suffix) then [Join(dir, names[0])] else [])
         + Matching(dir, names[1..], suffix)
  }

  /** `glob.glob` of a pattern. */
  function Glob(fs: FileSystem, p: Pattern): seq<string>
  {
    match p
    case Exact(dir, name) =>
      var path := Join(dir, name);
      if path in fs.paths then [path] else []
    case Wildcard(dir, suffix) =>
      if dir in fs.listing then Matching(dir, fs.listing[dir], suffix) else []
  }

  /** The first match of the first pattern that matches anything. */
  function FirstMatch(fs: FileSystem, pats: seq<Pattern>): (r: Option<string>)
    ensures r.None? <==> NoMatch(fs, pats)
    ensures r.Some? ==> exists i :: 0 <= i < |pats| && FirstHit(fs, pats, i) && r.value == Glob(fs, pats[i])[0]
  {
    if pats == [] then None
    else
      var files := Glob(fs, pats[0]);
      if files != [] then
        assert FirstHit(fs, pats, 0);
        Some(files[0])
      else
        var r := FirstMatch(fs, pats[1..]);
        assert r.Some? ==> exists i :: 0 <= i < |pats[1..]| && FirstHit(fs, pats[1..], i) && r.value == Glob(fs, pats[1..][i])[0];
        assert forall i :: 0 <= i < |pats[1..]| && FirstHit(fs, pats[1..], i) ==> FirstHit(fs, pats, i + 1);
        r
  }

  /** Pattern `i` is the first of `pats` whose glob is not empty. */
  ghost predicate FirstHit(fs: FileSystem, pats: seq<Pattern>, i: int)
    requires 0 <= i < |pats|
  {
    Glob(fs, pats[i]) != [] && forall j :: 0 <= j < i ==> Glob(fs, pats[j]) == []
  }

  /** The locations of `locs` that exist, in order. */
  function Existing(fs: FileSystem, locs: seq<string>): seq<string>
  {
    if locs == [] then []
    else (if locs[0] in fs.paths then [locs[0]] else []) + Existing(fs, locs[1..])
  }

  /** The innermost loop of the preferred search: one pattern per name. */
  function NamedIn(loc: string, ext: string, names: seq<string>): seq<Pattern>
  {
    if names == [] then [] else [Exact(loc, names[0] + Tail(ext))] + NamedIn(loc, ext, names[1..])
  }

  /** The two inner loops of the preferred search: extension, then name. */
  function PreferredIn(loc: string, exts: seq<string>): seq<Pattern>
  {
    if exts == [] then [] else NamedIn(loc, exts[0], PreferredNames) + PreferredIn(loc, exts[1..])
  }

  /** Every pattern the preferred search tries, in the order it tries them. */
  function PreferredPatterns(fs: FileSystem, locs: seq<string>): seq<Pattern>
  {
    if locs == [] then []
    else (if locs[0] in fs.paths then PreferredIn(locs[0], AudioPatterns) else [])
         + PreferredPatterns(fs, locs[1..])
  }

  function WildcardsIn(loc: string, exts: seq<string>): seq<Pattern>
  {
    if exts == [] then [] else [Wildcard(loc, Tail(exts[0]))] + WildcardsIn(loc, exts[1..])
  }

  /** Every pattern the generic search tries, in the order it tries them. */
  function GenericPatterns(fs: FileSystem, locs: seq<string>): seq<Pattern>
  {
    if locs == [] then []
    else (if locs[0] in fs.paths then WildcardsIn(locs[0], AudioPatterns) else [])
         + GenericPatterns(fs, locs[1..])
  }

  /** The preferred search, then, if it found nothing, the generic one. */
  function Search(fs: FileSystem, locs: seq<string>): Option<string>
  {
    match FirstMatch(fs, PreferredPatterns(fs, locs))
    case Some(f) => Some(f)
    case None => FirstMatch(fs, GenericPatterns(fs, locs))
  }

  /** find_audio_file: the command-line path when it is valid, else the search. */
  function FindAudioFile(env: Env): Option<string>
  {
    if |env.argv| > 1 && ValidOverride(env.fs, env.argv[1]) then Some(env.argv[1])
    else Search(env.fs, Locations(env.cwd, env.home))
  }

  // ---------------------------------------------------------------------
  // Priority order of the search

  /** No pattern of `pats` matches anything. */
  ghost predicate NoMatch(fs: FileSystem, pats: seq<Pattern>)
  {
    forall i :: 0 <= i < |pats| ==> Glob(fs, pats[i]) == []
  }

  lemma {:induction false} FirstMatchAppend(fs: FileSystem, a: seq<Pattern>, b: seq<Pattern>)
    ensures FirstMatch(fs, a + b) == if FirstMatch(fs, a).Some? then FirstMatch(fs, a) else FirstMatch(fs, b)
  {
    if a == [] {
      assert a + b == b;
    } else {
      assert (a + b)[0] == a[0];
      assert (a + b)[1..] == a[1..] + b;
      FirstMatchAppend(fs, a[1..], b);
    }
  }

  /** The whole search is one first-match search over the preferred
      patterns followed by the generic ones: no generic pattern is looked
      at while any preferred pattern matches. */
  lemma {:induction false} SearchIsOneFirstMatch(fs: FileSystem, locs: seq<string>)
    ensures Search(fs, locs) == FirstMatch(fs, PreferredPatterns(fs, locs) + GenericPatterns(fs, locs))
  {
    FirstMatchAppend(fs, PreferredPatterns(fs, locs), GenericPatterns(fs, locs));
  }

  /** The search finds nothing iff no pattern of either phase matches. */
  lemma {:induction false} SearchNoneIff(fs: FileSystem, locs: seq<string>)
    ensures Search(fs, locs).None? <==> NoMatch(fs, PreferredPatterns(fs, locs)) && NoMatch(fs, GenericPatterns(fs, locs))
  {
    var pre, gen := FirstMatch(fs, PreferredPatterns(fs, locs)), FirstMatch(fs, GenericPatterns(fs, locs));
    assert Search(fs, locs) == if pre.Some? then pre else gen;
  }

  lemma {:induction false} NamedInAt(loc: string, ext: string, names: seq<string>, k: int)
    requires 0 <= k < |names|
    ensures |NamedIn(loc, ext, names)| == |names|
    ensures NamedIn(loc, ext, names)[k] == Exact(loc, names[k] + Tail(ext))
  {
    if k == 0 {
      if |names| > 1 {
        NamedInAt(loc, ext, names[1..], 0);
      }
    } else {
      NamedInAt(loc, ext, names[1..], k - 1);
    }
  }

  lemma {:induction false} PreferredInAt(loc: string, exts: seq<string>, j: int, k: int)
    requires 0 <= j < |exts| && 0 <= k < |PreferredNames|
    ensures |PreferredIn(loc, exts)| == |PreferredNames| * |exts|
    ensures PreferredIn(loc, exts)[|PreferredNames| * j + k] == Exact(loc, PreferredNames[k] + Tail(exts[j]))
  {
    NamedInAt(loc, exts[0], PreferredNames, k);
    if j == 0 {
      if |exts| > 1 {
        PreferredInAt(loc, exts[1..], 0, k);
      }
    } else {
      PreferredInAt(loc, exts[1..], j - 1, k);
    }
  }

  lemma {:induction false} PreferredInLength(loc: string, exts: seq<string>)
    ensures |PreferredIn(loc, exts)| == |PreferredNames| * |exts|
  {
    if exts != [] {
      PreferredInAt(loc, exts, 0, 0);
    }
  }

  lemma {:induction false} PreferredLength(fs: FileSystem, locs: seq<string>)
    ensures |PreferredPatterns(fs, locs)| == 24 * |Existing(fs, locs)|
  {
    if locs != [] {
      PreferredInLength(locs[0], AudioPatterns);
      PreferredLength(fs, locs[1..]);
    }
  }

  /** The preferred search tries location, then extension, then name, in
      the nested order of the source's loops, skipping absent locations. */
  lemma {:induction false} PreferredOrder(fs: FileSystem, locs: seq<string>, i: int, j: int, k: int)
    requires 0 <= i < |Existing(fs, locs)|
    requires 0 <= j < |AudioPatterns| && 0 <= k < |PreferredNames|
    ensures |PreferredPatterns(fs, locs)| == 24 * |Existing(fs, locs)|
    ensures PreferredPatterns(fs, locs)[24 * i + 6 * j + k]
         == Exact(Existing(fs, locs)[i], PreferredNames[k] + Tail(AudioPatterns[j]))
  {
    assert |PreferredNames| == 6 && |AudioPatterns| == 4;
    var head := if locs[0] in fs.paths then PreferredIn(locs[0], AudioPatterns) else [];
    var rest := PreferredPatterns(fs, locs[1..]);
    assert PreferredPatterns(fs, locs) == head + rest;
    PreferredInLength(locs[0], AudioPatterns);
    PreferredLength(fs, locs[1..]);
    if locs[0] in fs.paths {
      assert Existing(fs, locs) == [locs[0]] + Existing(fs, locs[1..]);
      if i == 0 {
        PreferredInAt(locs[0], AudioPatterns, j, k);
        assert (head + rest)[24 * i + 6 * j + k] == head[6 * j + k];
      } else {
        PreferredOrder(fs, locs[1..], i - 1, j, k);
        assert (head + rest)[24 * i + 6 * j + k] == rest[24 * (i - 1) + 6 * j + k];
      }
    } else {
      assert Existing(fs, locs) == Existing(fs, locs[1..]);
      PreferredOrder(fs, locs[1..], i, j, k);
      assert head + rest == rest;
    }
  }

  lemma {:induction false} WildcardsInAt(loc: string, exts: seq<string>, j: int)
    requires 0 <= j < |exts|
    ensures |WildcardsIn(loc, exts)| == |exts|
    ensures WildcardsIn(loc, exts)[j] == Wildcard(loc, Tail(exts[j]))
  {
    if j == 0 {
      if |exts| > 1 {
        WildcardsInAt(loc, exts[1..], 0);
      }
    } else {
      WildcardsInAt(loc, exts[1..], j - 1);
    }
  }

  lemma {:induction false} GenericLength(fs: FileSystem, locs: seq<string>)
    ensures |GenericPatterns(fs, locs)| == 4 * |Existing(fs, locs)|
  {
    if locs != [] {
      WildcardsInAt(locs[0], AudioPatterns, 0);
      GenericLength(fs, locs[1..]);
    }
  }

  /** The generic search tries location, then extension. */
  lemma {:induction false} GenericOrder(fs: FileSystem, locs: seq<string>, i: int, j: int)
    requires 0 <= i < |Existing(fs, locs)| && 0 <= j < |AudioPatterns|
    ensures |GenericPatterns(fs, locs)| == 4 * |Existing(fs, locs)|
    ensures GenericPatterns(fs, locs)[4 * i + j] == Wildcard(Existing(fs, locs)[i], Tail(AudioPatterns[j]))
  {
    WildcardsInAt(locs[0], AudioPatterns, 0);
    if locs[0] in fs.paths {
      if i == 0 {
        WildcardsInAt(locs[0], AudioPatterns, j);
        GenericLength(fs, locs[1..]);
      } else {
        GenericOrder(fs, locs[1..], i - 1, j);
      }
    } else {
      GenericOrder(fs, locs[1..], i, j);
    }
  }

  // ---------------------------------------------------------------------
  // Whatever the search finds would be accepted as a command-line path

  /** A pattern that can only match names ending in an audio suffix. */
  predicate AudioPattern(p: Pattern)
  {
    match p
    case Exact(_, name) => AudioName(name)
    case Wildcard(_, suffix) => suffix in OverrideSuffixes
  }

  lemma EndsWithAppend(a: string, b: string)
    ensures EndsWith(a + b, b)
  {
    assert (a + b)[|a + b| - |b|..] == b;
  }

  lemma EndsWithTrans(s: string, t: string, u: string)
    requires EndsWith(s, t) && EndsWith(t, u)
    ensures EndsWith(s, u)
  {
    assert s[|s| - |u|..] == t[|t| - |u|..];
  }

  lemma JoinEndsWith(dir: string, name: string)
    ensures EndsWith(Join(dir, name), name)
  {
    if dir == [] || dir[|dir| - 1] == '/' {
      EndsWithAppend(dir, name);
    } else {
      EndsWithAppend(dir + "/", name);
    }
  }

  lemma LowerEndsWith(s: string, u: string)
    requires EndsWith(s, u)
    ensures EndsWith(Lower(s), Lower(u))
  {
    assert Lower(s)[|s| - |u|..] == Lower(u);
  }

  lemma AudioSuffixesAreLower(k: int)
    requires 0 <= k < |OverrideSuffixes|
    ensures Lower(OverrideSuffixes[k]) == OverrideSuffixes[k]
  {
    var u := OverrideSuffixes[k];
    assert forall i :: 0 <= i < |u| ==> !('A' <= u[i] <= 'Z');
  }

  lemma {:induction false} NamedInAudio(loc: string, j: int, names: seq<string>)
    requires 0 <= j < |AudioPatterns|
    ensures forall i :: 0 <= i < |NamedIn(loc, AudioPatterns[j], names)| ==> AudioPattern(NamedIn(loc, AudioPatterns[j], names)[i])
  {
    var ext := AudioPatterns[j];
    assert Tail(ext) == OverrideSuffixes[j];
    if names != [] {
      EndsWithAppend(names[0], Tail(ext));
      assert AudioName(names[0] + Tail(ext));
      NamedInAudio(loc, j, names[1..]);
    }
  }

  lemma {:induction false} PreferredInAudio(loc: string, j: int)
    requires 0 <= j <= |AudioPatterns|
    ensures forall i :: 0 <= i < |PreferredIn(loc, AudioPatterns[j..])| ==> AudioPattern(PreferredIn(loc, AudioPatterns[j..])[i])
    decreases |AudioPatterns| - j
  {
    if j < |AudioPatterns| {
      assert AudioPatterns[j..][1..] == AudioPatterns[j + 1..];
      NamedInAudio(loc, j, PreferredNames);
      PreferredInAudio(loc, j + 1);
    }
  }

  lemma {:induction false} WildcardsInAudio(loc: string, j: int)
    requires 0 <= j <= |AudioPatterns|
    ensures forall i :: 0 <= i < |WildcardsIn(loc, AudioPatterns[j..])| ==> AudioPattern(WildcardsIn(loc, AudioPatterns[j..])[i])
    decreases |AudioPatterns| - j
  {
    if j < |AudioPatterns| {
      assert AudioPatterns[j..][1..] == AudioPatterns[j + 1..];
      assert Tail(AudioPatterns[j]) == OverrideSuffixes[j];
      WildcardsInAudio(loc, j + 1);
    }
  }

  lemma {:induction false} SearchPatternsAudio(fs: FileSystem, locs: seq<string>)
    ensures forall i :: 0 <= i < |PreferredPatterns(fs, locs)| ==> AudioPattern(PreferredPatterns(fs, locs)[i])
    ensures forall i :: 0 <= i < |GenericPatterns(fs, locs)| ==> AudioPattern(GenericPatterns(fs, locs)[i])
  {
    if locs != [] {
      assert AudioPatterns[0..] == AudioPatterns;
      PreferredInAudio(locs[0], 0);
      WildcardsInAudio(locs[0], 0);
      SearchPatternsAudio(fs, locs[1..]);
    }
  }

  lemma {:induction false} MatchingSound(dir: string, names: seq<string>, suffix: string, f: string)
    requires f in Matching(dir, names, suffix)
    ensures exists n :: n in names && StarMatch(n, suffix) && f == Join(dir, n)
  {
    if f !in (if StarMatch(names[0], suffix) then [Join(dir, names[0])] else []) {
      MatchingSound(dir, names[1..], suffix, f);
    }
  }

  lemma {:induction false} SuffixValid(fs: FileSystem, f: string, name: string)
    requires f in fs.paths && EndsWith(f, name) && AudioName(name)
    ensures ValidOverride(fs, f)
  {
    var k :| 0 <= k < |OverrideSuffixes| && EndsWith(name, OverrideSuffixes[k]);
    EndsWithTrans(f, name, OverrideSuffixes[k]);
    LowerEndsWith(f, OverrideSuffixes[k]);
    AudioSuffixesAreLower(k);
  }

  /** Every match of an audio pattern exists and has an audio suffix. */
  lemma {:induction false} GlobSound(fs: FileSystem, p: Pattern, f: string)
    requires Consistent(fs) && AudioPattern(p) && f in Glob(fs, p)
    ensures ValidOverride(fs, f)
  {
    match p
    case Exact(dir, n) =>
      JoinEndsWith(dir, n);
      SuffixValid(fs, f, n);
    case Wildcard(dir, suffix) =>
      MatchingSound(dir, fs.listing[dir], suffix, f);
      var n :| n in fs.listing[dir] && StarMatch(n, suffix) && f == Join(dir, n);
      JoinEndsWith(dir, n);
      var k :| 0 <= k < |OverrideSuffixes| && suffix == OverrideSuffixes[k];
      assert AudioName(n);
      SuffixValid(fs, f, n);
  }

  /** On a consistent file system, whatever find_audio_file returns is a
      file that it would also accept as a command-line override. */
  lemma FoundFileIsValidOverride(env: Env)
    requires Consistent(env.fs) && FindAudioFile(env).Some?
    ensures ValidOverride(env.fs, FindAudioFile(env).value)
  {
    var f := FindAudioFile(env).value;
    if !(|env.argv| > 1 && ValidOverride(env.fs, env.argv[1])) {
      var fs, locs := env.fs, Locations(env.cwd, env.home);
      SearchIsOneFirstMatch(fs, locs);
      SearchPatternsAudio(fs, locs);
      var pats := PreferredPatterns(fs, locs) + GenericPatterns(fs, locs);
      var i :| 0 <= i < |pats| && FirstHit(fs, pats, i) && f == Glob(fs, pats[i])[0];
      GlobSound(fs, pats[i], f);
    }
  }

  /** Passing the file found back on the command line selects it again. */
  lemma OverrideRoundTrip(env: Env, program: string)
    requires Consistent(env.fs) && FindAudioFile(env).Some?
    ensures FindAudioFile(env.(argv := [program, FindAudioFile(env).value])) == FindAudioFile(env)
  {
    FoundFileIsValidOverride(env);
  }

  /** An invalid command-line path is ignored: the result is the one
      obtained without any argument. */
  lemma InvalidOverrideIgnored(env: Env)
    requires |env.argv| > 1 && !ValidOverride(env.fs, env.argv[1])
    ensures FindAudioFile(env) == FindAudioFile(env.(argv := env.argv[..1]))
  {
  }
}
