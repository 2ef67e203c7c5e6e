/**
 * The command history of internal/fsconfig/fsconfig.go: the configuration
 * file's contents are a `Config` value passed in and out (reading, writing and
 * backing up the JSON file are not modelled).
 */
module FsConfig {
  import opened Wrappers

  const MaxCommandsLength: nat := 100

  datatype History = History(commands: seq<string>)
  datatype Config = Config(history: History)

  /** The configuration Initialize writes when there is no file: no commands. */
  const EmptyConfig: Config := Config(History([]))

  /**
   * deduplicate, entry by entry: an entry is kept when the marker stored for it
   * is still the map's zero value "", that is when it is "" or has not occurred before.
   */
  function Dedup(xs: seq<string>): seq<string> {
    if xs == [] then []
    else
      var p := xs[..|xs| - 1];
      var x := xs[|xs| - 1];
      Dedup(p) + (if x == "" || x !in p then [x] else [])
  }

  /** No non-empty string occurs twice. */
  predicate NoRepeats(xs: seq<string>) {
    forall i, j :: 0 <= i < j < |xs| && xs[i] == xs[j] ==> xs[i] == ""
  }

  /** `a` is `b` with some entries dropped, the rest kept in order. */
  predicate SubsequenceOf(a: seq<string>, b: seq<string>)
    decreases |b|
  {
    if a == [] then true
    else if b == [] then false
    else if a[|a| - 1] == b[|b| - 1] then SubsequenceOf(a[..|a| - 1], b[..|b| - 1])
    else SubsequenceOf(a, b[..|b| - 1])
  }

  /** deduplicate: a map from each string seen to itself, and the strings kept. */
  method Deduplicate(strings: seq<string>) returns (uniqueStrings: seq<string>)
    ensures uniqueStrings == Dedup(strings)
  {
    var stringToSelf: map<string, string> := map[];
    uniqueStrings := [];
    var i := 0;
    while i < |strings|
      invariant 0 <= i <= |strings|
      invariant forall s :: s in stringToSelf <==> s in strings[..i]
      invariant forall s :: s in stringToSelf ==> stringToSelf[s] == s
      invariant uniqueStrings == Dedup(strings[..i])
    {
      var str := strings[i];
      assert strings[..i + 1][..i] == strings[..i];
      var marker := if str in stringToSelf then stringToSelf[str] else "";
      if marker == "" {
        uniqueStrings := uniqueStrings + [str];
        stringToSelf := stringToSelf[str := str];
      }
      i := i + 1;
    }
    assert strings[..i] == strings;
  }

  /**
   * AppendHistoryCommand as written: the truncation to the last 100 commands is
   * applied to the configuration and then overwritten by the deduplicated,
   * untruncated list.
   */
  method AppendHistoryCommand(c: Config, command: string) returns (c': Config)
    ensures c'.history.commands == Dedup(c.history.commands + [command])
  {
    var cfg := c;
    var commands := cfg.history.commands + [command];
    if |commands| > MaxCommandsLength {
      cfg := cfg.(history := History(cfg.history.commands[|cfg.history.commands| - MaxCommandsLength..]));
    }
    var unique := Deduplicate(commands);
    cfg := cfg.(history := History(unique));
    c' := cfg;
  }

  /** Initialize: an empty configuration is written only when there is no file yet. */
  method Initialize(file: Option<Config>) returns (file': Option<Config>)
    ensures file'.Some?
    ensures file.Some? ==> file' == file
    ensures file.None? ==> file' == Some(EmptyConfig)
  {
    file' := file;
    if file.None? {
      file' := Some(EmptyConfig);
    }
  }

  // ---------------------------------------------------------------------------
  // Properties of deduplicate

  lemma {:induction false} SubsequenceExtend(a: seq<string>, b: seq<string>, x: string)
    requires SubsequenceOf(a, b)
    ensures SubsequenceOf(a, b + [x])
    decreases |b|, 1
  {
    var b' := b + [x];
    assert b'[..|b'| - 1] == b;
    if a != [] && a[|a| - 1] == x {
      // the last entry of `a` is now matched against `x`
      SubsequenceShorten(a, b);
    }
  }

  /** Dropping the last entry of a subsequence keeps it a subsequence. */
  lemma {:induction false} SubsequenceShorten(a: seq<string>, b: seq<string>)
    requires a != [] && SubsequenceOf(a, b)
    ensures SubsequenceOf(a[..|a| - 1], b)
    decreases |b|, 0
  {
    var a' := a[..|a| - 1];
    if a[|a| - 1] == b[|b| - 1] {
      if a' != [] {
        assert SubsequenceOf(a', b[..|b| - 1]);
        SubsequenceExtend(a', b[..|b| - 1], b[|b| - 1]);
        assert b[..|b| - 1] + [b[|b| - 1]] == b;
      }
    } else {
      SubsequenceShorten(a, b[..|b| - 1]);
      SubsequenceExtend(a', b[..|b| - 1], b[|b| - 1]);
      assert b[..|b| - 1] + [b[|b| - 1]] == b;
    }
  }

  /** deduplicate only drops entries: its output is a subsequence of its input. */
  lemma {:induction false} DedupSubsequence(xs: seq<string>)
    ensures SubsequenceOf(Dedup(xs), xs)
    ensures |Dedup(xs)| <= |xs|
  {
    if xs != [] {
      var p := xs[..|xs| - 1];
      var x := xs[|xs| - 1];
      DedupSubsequence(p);
      if x == "" || x !in p {
        var d := Dedup(p) + [x];
        assert d[..|d| - 1] == Dedup(p);
      } else {
        assert Dedup(xs) == Dedup(p);
        SubsequenceExtend(Dedup(p), p, x);
        assert p + [x] == xs;
      }
    }
  }

  /** deduplicate keeps exactly the strings of its input. */
  lemma {:induction false} DedupSameStrings(xs: seq<string>)
    ensures forall s :: s in Dedup(xs) <==> s in xs
  {
    if xs != [] {
      var p := xs[..|xs| - 1];
      DedupSameStrings(p);
      assert xs == p + [xs[|xs| - 1]];
    }
  }

  /** Every "" of the input survives: the zero-value marker never records it as seen. */
  lemma {:induction false} DedupKeepsEmpty(xs: seq<string>)
    ensures multiset(Dedup(xs))[""] == multiset(xs)[""]
  {
    if xs != [] {
      var p := xs[..|xs| - 1];
      DedupKeepsEmpty(p);
      assert xs == p + [xs[|xs| - 1]];
    }
  }

  /** No non-empty string is kept twice, and the first occurrence is the one kept. */
  lemma {:induction false} DedupNoRepeats(xs: seq<string>)
    ensures NoRepeats(Dedup(xs))
  {
    if xs != [] {
      var p := xs[..|xs| - 1];
      var x := xs[|xs| - 1];
      DedupNoRepeats(p);
      DedupSameStrings(p);
      var d := Dedup(xs);
      if x != "" && x !in p {
        forall i, j | 0 <= i < j < |d| && d[i] == d[j]
          ensures d[i] == ""
        {
          if j < |d| - 1 {
            assert d[i] == Dedup(p)[i] && d[j] == Dedup(p)[j];
          }
        }
      }
    }
  }

  /** A list with no repeated non-empty string is its own deduplication. */
  lemma {:induction false} DedupOfNoRepeats(xs: seq<string>)
    requires NoRepeats(xs)
    ensures Dedup(xs) == xs
  {
    if xs != [] {
      var p := xs[..|xs| - 1];
      var x := xs[|xs| - 1];
      assert NoRepeats(p) by {
        forall i, j | 0 <= i < j < |p| && p[i] == p[j]
          ensures p[i] == ""
        {
          assert xs[i] == p[i] && xs[j] == p[j];
        }
      }
      DedupOfNoRepeats(p);
      assert xs == p + [x];
    }
  }

  /** deduplicate is idempotent. */
  lemma DedupIdempotent(xs: seq<string>)
    ensures Dedup(Dedup(xs)) == Dedup(xs)
  {
    DedupNoRepeats(xs);
    DedupOfNoRepeats(Dedup(xs));
  }

  // ---------------------------------------------------------------------------
  // Properties of AppendHistoryCommand

  /** Appending a non-empty command already in a repeat-free history leaves it unchanged. */
  lemma AppendPresent(history: seq<string>, command: string)
    requires NoRepeats(history) && command != "" && command in history
    ensures Dedup(history + [command]) == history
  {
    var xs := history + [command];
    assert xs[..|xs| - 1] == history;
    DedupOfNoRepeats(history);
  }

  /** Appending a new (or empty) command to a repeat-free history puts it last. */
  lemma AppendNew(history: seq<string>, command: string)
    requires NoRepeats(history) && (command == "" || command !in history)
    ensures Dedup(history + [command]) == history + [command]
    ensures |Dedup(history + [command])| == |history| + 1
  {
    var xs := history + [command];
    assert xs[..|xs| - 1] == history;
    DedupOfNoRepeats(history);
  }

  /**
   * The history is not capped: a full history of 100 distinct commands and one
   * more new command make a history of 101.
   */
  lemma HistoryExceedsCap(history: seq<string>, command: string)
    requires |history| == MaxCommandsLength && NoRepeats(history)
    requires command !in history
    ensures |Dedup(history + [command])| == MaxCommandsLength + 1
  {
    AppendNew(history, command);
  }

  /** The last `MaxCommandsLength` entries of `xs` (all of them if there are fewer). */
  function KeepLast(xs: seq<string>): (r: seq<string>)
    ensures |r| <= MaxCommandsLength
    ensures |xs| <= MaxCommandsLength ==> r == xs
    ensures |xs| > MaxCommandsLength ==> r == xs[|xs| - MaxCommandsLength..]
  {
    if |xs| > MaxCommandsLength then xs[|xs| - MaxCommandsLength..] else xs
  }

  /** No string, "" included, occurs twice. */
  predicate Distinct(xs: seq<string>) {
    forall i, j :: 0 <= i < j < |xs| ==> xs[i] != xs[j]
  }

  /**
   * AppendHistoryCommand as evidently intended: the commands with the new one
   * added, deduplicated without the empty-string hole, and of those the last 100.
   */
  method AppendHistoryCommandCapped(c: Config, command: string) returns (c': Config)
    ensures c'.history.commands == KeepLast(DedupStrict(c.history.commands + [command]))
  {
    var commands := c.history.commands + [command];
    var unique := DeduplicateStrict(commands);
    if |unique| > MaxCommandsLength {
      unique := unique[|unique| - MaxCommandsLength..];
    }
    c' := c.(history := History(unique));
  }

  /**
   * With the cap in place the history never exceeds 100 commands, no command
   * occurs twice, and it holds only commands from before or the new one. A new
   * command ends up last; a repeated one leaves a history of at most 100
   * distinct commands as it was.
   */
  lemma CappedHistoryBounded(history: seq<string>, command: string)
    ensures var r := KeepLast(DedupStrict(history + [command]));
            && |r| <= MaxCommandsLength
            && Distinct(r)
            && (forall s :: s in r ==> s in history || s == command)
            && (command !in history ==> r != [] && r[|r| - 1] == command)
            && (command in history && |history| <= MaxCommandsLength && Distinct(history) ==> r == history)
  {
    var xs := history + [command];
    var d := DedupStrict(xs);
    var r := KeepLast(d);
    DedupStrictDistinct(xs);
    assert xs[..|xs| - 1] == history;
    forall i, j | 0 <= i < j < |r|
      ensures r[i] != r[j]
    {
      if |d| > MaxCommandsLength {
        assert r[i] == d[|d| - MaxCommandsLength + i] && r[j] == d[|d| - MaxCommandsLength + j];
      }
    }
    forall s | s in r
      ensures s in history || s == command
    {
      var i :| 0 <= i < |r| && r[i] == s;
      if |d| > MaxCommandsLength {
        assert r[i] == d[|d| - MaxCommandsLength + i];
      }
      assert s in d;
      assert s in xs;
    }
    if command in history && |history| <= MaxCommandsLength && Distinct(history) {
      DedupStrictOfDistinct(history);
    }
  }

  /** A list without repeats is its own strict deduplication. */
  lemma {:induction false} DedupStrictOfDistinct(xs: seq<string>)
    requires Distinct(xs)
    ensures DedupStrict(xs) == xs
  {
    if xs != [] {
      var p := xs[..|xs| - 1];
      assert Distinct(p);
      DedupStrictOfDistinct(p);
      assert xs[|xs| - 1] !in p by {
        forall i | 0 <= i < |p|
          ensures p[i] != xs[|xs| - 1]
        {
          assert p[i] == xs[i];
        }
      }
      assert xs == p + [xs[|xs| - 1]];
    }
  }

  /** A concrete history the cap would have held at 100 entries. */
  lemma UncappedExample()
    ensures var h := seq(100, i requires 0 <= i < 100 => [(i as char)]);
            |Dedup(h + ["new"])| == 101
  {
    var h := seq(100, i requires 0 <= i < 100 => [(i as char)]);
    assert NoRepeats(h);
    assert "new" !in h;
    HistoryExceedsCap(h, "new");
  }
  // ---------------------------------------------------------------------------
  // The empty-string hole of deduplicate

  /** Two empty commands both survive deduplicate. */
  lemma EmptyHoleExample()
    ensures Dedup(["", "x", "", "x"]) == ["", "x", ""]
  {
    assert ["", "x", "", "x"][..3] == ["", "x", ""];
    assert ["", "x", ""][..2] == ["", "x"];
    assert ["", "x"][..1] == [""];
  }

  /** deduplicate as evidently intended: every string, "" included, kept once. */
  function DedupStrict(xs: seq<string>): seq<string> {
    if xs == [] then []
    else
      var p := xs[..|xs| - 1];
      var x := xs[|xs| - 1];
      DedupStrict(p) + (if x !in p then [x] else [])
  }

  /** deduplicate with a set of the strings seen, which does not confuse "" with "unseen". */
  method DeduplicateStrict(strings: seq<string>) returns (uniqueStrings: seq<string>)
    ensures uniqueStrings == DedupStrict(strings)
  {
    var seen: set<string> := {};
    uniqueStrings := [];
    var i := 0;
    while i < |strings|
      invariant 0 <= i <= |strings|
      invariant forall s :: s in seen <==> s in strings[..i]
      invariant uniqueStrings == DedupStrict(strings[..i])
    {
      var str := strings[i];
      assert strings[..i + 1][..i] == strings[..i];
      if str !in seen {
        uniqueStrings := uniqueStrings + [str];
        seen := seen + {str};
      }
      i := i + 1;
    }
    assert strings[..i] == strings;
  }

  /** The corrected deduplication keeps each string of its input exactly once. */
  lemma {:induction false} DedupStrictDistinct(xs: seq<string>)
    ensures forall s :: s in DedupStrict(xs) <==> s in xs
    ensures forall i, j :: 0 <= i < j < |DedupStrict(xs)| ==> DedupStrict(xs)[i] != DedupStrict(xs)[j]
  {
    if xs != [] {
      var p := xs[..|xs| - 1];
      var x := xs[|xs| - 1];
      DedupStrictDistinct(p);
      assert xs == p + [x];
      var d := DedupStrict(xs);
      if x !in p {
        forall i, j | 0 <= i < j < |d|
          ensures d[i] != d[j]
        {
          if j < |d| - 1 {
            assert d[i] == DedupStrict(p)[i] && d[j] == DedupStrict(p)[j];
          } else {
            assert d[i] in DedupStrict(p);
          }
        }
      }
    }
  }

  lemma {:induction false} DedupStrictShorter(xs: seq<string>)
    ensures |DedupStrict(xs)| <= |xs|
  {
    if xs != [] {
      DedupStrictShorter(xs[..|xs| - 1]);
    }
  }
}
