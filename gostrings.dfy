/**
 * The few functions of Go's `strings` package that the parsers and record
 * formatters of goproxie rely on, over strings as sequences of characters.
 */
module GoStrings {

  /** unicode.IsSpace: the characters strings.Fields separates on. */
  predicate IsSpace(c: char) {
    || c == ' ' || c == '\t' || c == '\n' || c == '\r'
    || c == '\U{000B}' || c == '\U{000C}' || c == '\U{0085}' || c == '\U{00A0}'
    || c == '\U{1680}' || ('\U{2000}' <= c <= '\U{200A}')
    || c == '\U{2028}' || c == '\U{2029}' || c == '\U{202F}' || c == '\U{205F}' || c == '\U{3000}'
  }

  predicate NoSpace(s: string) {
    forall i :: 0 <= i < |s| ==> !IsSpace(s[i])
  }

  predicate AllSpace(s: string) {
    forall i :: 0 <= i < |s| ==> IsSpace(s[i])
  }

  /**
   * strings.Fields, scanning left to right: `word` is the field being read.
   * A white-space character ends a non-empty field; the end of input ends the last one.
   */
  function FieldsFrom(s: string, word: string): seq<string> {
    if s == [] then (if word == [] then [] else [word])
    else if IsSpace(s[0]) then (if word == [] then [] else [word]) + FieldsFrom(s[1..], [])
    else FieldsFrom(s[1..], word + [s[0]])
  }

  /** strings.Fields: the maximal runs of non-white-space characters of `s`, in order. */
  function Fields(s: string): seq<string> {
    FieldsFrom(s, [])
  }

  /** strings.Join. */
  function Join(parts: seq<string>, sep: string): string {
    if parts == [] then ""
    else if |parts| == 1 then parts[0]
    else parts[0] + sep + Join(parts[1..], sep)
  }

  /** strings.Split with a one-character separator; it always yields at least one piece. */
  function Split(s: string, sep: char): (r: seq<string>)
    ensures |r| >= 1
  {
    if s == [] then [""]
    else
      var rest := Split(s[1..], sep);
      if s[0] == sep then [""] + rest
      else [[s[0]] + rest[0]] + rest[1..]
  }

  /** strings.Contains: `sub` occurs somewhere in `s` (the empty string occurs everywhere). */
  predicate Contains(s: string, sub: string)
    decreases |s|
  {
    (|sub| <= |s| && s[..|sub|] == sub) || (s != [] && Contains(s[1..], sub))
  }

  function LowerChar(c: char): char {
    if 'A' <= c <= 'Z' then (c as int + 32) as char else c
  }

  /** strings.ToLower, restricted to ASCII letters. */
  function ToLower(s: string): (r: string)
    ensures |r| == |s|
  {
    seq(|s|, i requires 0 <= i < |s| => LowerChar(s[i]))
  }

  /** strings.ReplaceAll(s, " ", ""): every ASCII space removed, everything else kept in order. */
  function RemoveSpaces(s: string): (r: string)
    ensures ' ' !in r
    ensures |r| <= |s|
  {
    if s == [] then [] else (if s[0] == ' ' then [] else [s[0]]) + RemoveSpaces(s[1..])
  }

  function Concat(parts: seq<string>): string {
    if parts == [] then "" else parts[0] + Concat(parts[1..])
  }

  // ---------------------------------------------------------------------------
  // Fields

  /** A run of non-white-space characters extends the field being read. */
  lemma {:induction false} FieldsFromWord(w: string, rest: string, word: string)
    requires NoSpace(w)
    ensures FieldsFrom(w + rest, word) == FieldsFrom(rest, word + w)
  {
    if w == [] {
      assert w + rest == rest;
      assert word + w == word;
    } else {
      assert (w + rest)[0] == w[0];
      assert (w + rest)[1..] == w[1..] + rest;
      FieldsFromWord(w[1..], rest, word + [w[0]]);
      assert word + [w[0]] + w[1..] == word + w;
    }
  }

  /** A run of white space after no partial field is skipped. */
  lemma {:induction false} FieldsFromSpaces(sp: string, rest: string)
    requires AllSpace(sp)
    ensures FieldsFrom(sp + rest, []) == FieldsFrom(rest, [])
  {
    if sp == [] {
      assert sp + rest == rest;
    } else {
      assert (sp + rest)[0] == sp[0];
      assert (sp + rest)[1..] == sp[1..] + rest;
      FieldsFromSpaces(sp[1..], rest);
      assert FieldsFrom(sp + rest, []) == [] + FieldsFrom(sp[1..] + rest, []);
    }
  }

  /** A word followed by white space (or nothing) is the first field. */
  lemma FieldsOfWord(w: string, rest: string)
    requires w != [] && NoSpace(w)
    requires rest == [] || IsSpace(rest[0])
    ensures Fields(w + rest) == [w] + Fields(rest)
  {
    FieldsFromWord(w, rest, []);
    assert [] + w == w;
    if rest == [] {
      assert [w] + Fields(rest) == [w];
    } else {
      FieldsFromSpaces([rest[0]], rest[1..]);
      assert [rest[0]] + rest[1..] == rest;
    }
  }

  /**
   * Round trip of strings.Fields: non-empty words free of white space, joined by
   * any non-empty run of white space and followed by white space (or nothing),
   * split back into the same words.
   */
  lemma {:induction false} FieldsOfJoin(words: seq<string>, sep: string, tail: string)
    requires forall i :: 0 <= i < |words| ==> words[i] != [] && NoSpace(words[i])
    requires sep != [] && AllSpace(sep)
    requires AllSpace(tail)
    ensures Fields(Join(words, sep) + tail) == words
  {
    if words == [] {
      FieldsFromSpaces(tail, "");
      assert tail + "" == tail;
      assert Join(words, sep) + tail == tail;
    } else if |words| == 1 {
      FieldsOfWord(words[0], tail);
      FieldsFromSpaces(tail, "");
      assert tail + "" == tail;
    } else {
      var rest := Join(words[1..], sep) + tail;
      assert Join(words, sep) + tail == words[0] + (sep + rest);
      FieldsOfWord(words[0], sep + rest);
      FieldsFromSpaces(sep, rest);
      FieldsOfJoin(words[1..], sep, tail);
    }
  }

  /** Every field is non-empty and free of white space. */
  lemma {:induction false} FieldsFromAreWords(s: string, word: string)
    requires NoSpace(word)
    ensures forall i :: 0 <= i < |FieldsFrom(s, word)| ==>
              FieldsFrom(s, word)[i] != [] && NoSpace(FieldsFrom(s, word)[i])
  {
    if s != [] {
      if IsSpace(s[0]) {
        FieldsFromAreWords(s[1..], []);
      } else {
        FieldsFromAreWords(s[1..], word + [s[0]]);
      }
    }
  }

  lemma FieldsAreWords(s: string)
    ensures forall i :: 0 <= i < |Fields(s)| ==> Fields(s)[i] != [] && NoSpace(Fields(s)[i])
  {
    FieldsFromAreWords(s, []);
  }

  // ---------------------------------------------------------------------------
  // Split

  /** Joining the pieces with the separator gives back the split string. */
  lemma {:induction false} JoinOfSplit(s: string, sep: char)
    ensures Join(Split(s, sep), [sep]) == s
    ensures forall i :: 0 <= i < |Split(s, sep)| ==> sep !in Split(s, sep)[i]
  {
    if s != [] {
      var rest := Split(s[1..], sep);
      JoinOfSplit(s[1..], sep);
      assert [s[0]] + s[1..] == s;
      if s[0] != sep && |rest| > 1 {
        assert Join(rest, [sep]) == rest[0] + [sep] + Join(rest[1..], [sep]);
        assert Join(Split(s, sep), [sep]) == [s[0]] + (rest[0] + [sep] + Join(rest[1..], [sep]));
      }
    }
  }

  lemma {:induction false} SplitNoSep(s: string, sep: char)
    requires sep !in s
    ensures Split(s, sep) == [s]
  {
    if s != [] {
      SplitNoSep(s[1..], sep);
      assert [s[0]] + s[1..] == s;
    }
  }

  /** A string holding the separator splits into at least two pieces. */
  lemma {:induction false} SplitHasSep(s: string, sep: char)
    requires sep in s
    ensures |Split(s, sep)| >= 2
  {
    if s[0] != sep {
      SplitHasSep(s[1..], sep);
    }
  }

  lemma {:induction false} SplitAt(a: string, sep: char, b: string)
    requires sep !in a
    ensures Split(a + [sep] + b, sep) == [a] + Split(b, sep)
  {
    if a == [] {
      assert a + [sep] + b == [sep] + b;
      assert ([sep] + b)[1..] == b;
    } else {
      assert (a + [sep] + b)[0] == a[0];
      assert (a + [sep] + b)[1..] == a[1..] + [sep] + b;
      SplitAt(a[1..], sep, b);
      assert [a[0]] + a[1..] == a;
    }
  }

  /** Round trip of strings.Split: pieces free of the separator, joined by it, split back. */
  lemma {:induction false} SplitOfJoin(parts: seq<string>, sep: char)
    requires parts != []
    requires forall i :: 0 <= i < |parts| ==> sep !in parts[i]
    ensures Split(Join(parts, [sep]), sep) == parts
  {
    if |parts| == 1 {
      SplitNoSep(parts[0], sep);
    } else {
      SplitAt(parts[0], sep, Join(parts[1..], [sep]));
      SplitOfJoin(parts[1..], sep);
    }
  }

  // ---------------------------------------------------------------------------
  // RemoveSpaces

  lemma {:induction false} RemoveSpacesAppend(a: string, b: string)
    ensures RemoveSpaces(a + b) == RemoveSpaces(a) + RemoveSpaces(b)
  {
    if a != [] {
      assert (a + b)[0] == a[0];
      assert (a + b)[1..] == a[1..] + b;
      RemoveSpacesAppend(a[1..], b);
      var head := if a[0] == ' ' then [] else [a[0]];
      assert RemoveSpaces(a + b) == head + (RemoveSpaces(a[1..]) + RemoveSpaces(b));
    } else {
      assert a + b == b;
    }
  }

  lemma {:induction false} RemoveSpacesNone(s: string)
    requires ' ' !in s
    ensures RemoveSpaces(s) == s
  {
    if s != [] {
      RemoveSpacesNone(s[1..]);
    }
  }

  /** Removing the spaces of space-separated, space-free tokens concatenates them. */
  lemma {:induction false} RemoveSpacesOfJoin(tokens: seq<string>)
    requires forall i :: 0 <= i < |tokens| ==> ' ' !in tokens[i]
    ensures RemoveSpaces(Join(tokens, " ")) == Concat(tokens)
  {
    if tokens == [] {
    } else if |tokens| == 1 {
      RemoveSpacesNone(tokens[0]);
      assert Concat(tokens) == tokens[0] + Concat([]);
    } else {
      RemoveSpacesAppend(tokens[0] + " ", Join(tokens[1..], " "));
      RemoveSpacesAppend(tokens[0], " ");
      RemoveSpacesNone(tokens[0]);
      RemoveSpacesOfJoin(tokens[1..]);
    }
  }
}
