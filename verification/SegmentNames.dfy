/**
 * Names of sealed log segments, and the order in which recovery lists them
 * (json_serializer.go: sealedIncrementalPath, parseSealedSeq, listSealedSegments).
 * Names here are base names: the directory part is the same for all of them.
 */
module SegmentNames {
  import opened Decimal

  const INC := ".incremental.sealed."

  /** True when `pat` occurs in `s` at position `i`. */
  predicate At(s: string, pat: string, i: nat) {
    i + |pat| <= |s| && forall k :: 0 <= k < |pat| ==> s[i + k] == pat[k]
  }

  predicate Contains(s: string, pat: string) {
    exists i: nat | i <= |s| :: At(s, pat, i)
  }

  /** First position not before `from` where `pat` occurs; |s| + 1 when there is none. */
  function IndexFrom(s: string, pat: string, from: nat): (r: nat)
    requires from <= |s| + 1
    ensures from <= r <= |s| + 1
    ensures r <= |s| ==> At(s, pat, r)
    decreases |s| + 1 - from
  {
    if from > |s| || At(s, pat, from) then from else IndexFrom(s, pat, from + 1)
  }

  /** Nothing at or after `from` comes before the position found. */
  lemma {:induction false} IndexIsFirst(s: string, pat: string, from: nat, i: nat)
    requires from <= i <= |s| && At(s, pat, i)
    ensures IndexFrom(s, pat, from) <= i
    decreases i - from
  {
    if !At(s, pat, from) {
      IndexIsFirst(s, pat, from + 1, i);
    }
  }

  function SealedName(stem: string, n: nat): string {
    stem + INC + Padded(n) + ".jsonl"
  }

  datatype Text = Found(text: string) | Missing

  /** Position of the first `ch`; |s| when there is none. */
  function IndexByte(s: string, ch: char): (r: nat)
    ensures r <= |s|
    ensures r < |s| ==> s[r] == ch
    ensures ch !in s[..r]
  {
    if s == "" || s[0] == ch then 0 else 1 + IndexByte(s[1..], ch)
  }

  /** What stands in front of the next dot. */
  function FieldBeforeDot(rest: string): Text {
    var j := IndexByte(rest, '.');
    if j == |rest| then Missing else Found(rest[..j])
  }

  function FieldAfter(base: string, marker: string): Text {
    var i := IndexFrom(base, marker, 0);
    if i > |base| then Missing else FieldBeforeDot(base[i + |marker|..])
  }

  function ParseSealedSeq(base: string): Parsed {
    match FieldAfter(base, INC)
    case Missing => NotANumber
    case Found(text) => ParseUint(text)
  }

  ghost predicate RoundTrips(stem: string) {
    forall n: nat | n < UINT64_LIMIT :: ParseSealedSeq(SealedName(stem, n)) == Number(n)
  }

  /** No two occurrences of `pat` overlap in two or more characters. */
  ghost predicate NoLongOverlap(pat: string) {
    forall k :: 0 < k < |pat| - 1 ==> pat[k] != pat[0] || pat[k + 1] != pat[1]
  }

  lemma MarkerDoesNotOverlap()
    ensures NoLongOverlap(INC)
  {
    assert INC[0] == '.' && INC[1] == 'i' && INC[13] == 's';
  }

  lemma CharAt(s: string, pat: string, i: nat, m: nat)
    requires At(s, pat, i) && m < |pat|
    ensures s[i + m] == pat[m]
  {
    assert s[i..i + |pat|][m] == s[i + m];
  }

  /** An occurrence that starts inside the stem reaches at most one character past it. */
  lemma OccurrenceInStem(stem: string, pat: string, tail: string, i: nat)
    requires NoLongOverlap(pat) && |pat| >= 2
    requires At(stem + pat + tail, pat, i) && i < |stem|
    ensures i + |pat| <= |stem| + 1
    ensures At(stem + pat[..1], pat, i)
  {
    var s := stem + pat + tail;
    var k := |stem| - i;
    if k < |pat| - 1 {
      CharAt(s, pat, i, k);
      CharAt(s, pat, i, k + 1);
      assert false;
    }
    assert s[..|stem| + 1] == stem + pat[..1];
    assert (stem + pat[..1])[i..i + |pat|] == s[i..i + |pat|];
  }

  lemma FirstMarker(stem: string, tail: string)
    requires !Contains(stem + ".", INC)
    ensures IndexFrom(stem + INC + tail, INC, 0) == |stem|
  {
    var base := stem + INC + tail;
    assert At(base, INC, |stem|);
    IndexIsFirst(base, INC, 0, |stem|);
    var i := IndexFrom(base, INC, 0);
    if i < |stem| {
      MarkerDoesNotOverlap();
      assert INC[..1] == ".";
      OccurrenceInStem(stem, INC, tail, i);
      assert false;
    }
  }

  /** Reading a name taken apart as prefix, marker, field, dot, rest. */
  lemma FieldIs(base: string, pre: string, marker: string, text: string, post: string)
    requires base == pre + marker + (text + "." + post)
    requires IndexFrom(base, marker, 0) == |pre| && '.' !in text
    ensures FieldAfter(base, marker) == Found(text)
  {
    var rest := text + "." + post;
    assert base[|pre| + |marker|..] == rest;
    FirstByte(text, '.', post);
    assert rest[..|text|] == text;
  }

  lemma FirstByte(text: string, ch: char, post: string)
    requires ch !in text
    ensures IndexByte(text + [ch] + post, ch) == |text|
  {
    var s := text + [ch] + post;
    assert s[|text|] == ch;
    assert forall k :: 0 <= k < |text| ==> s[k] == text[k] && s[k] != ch;
  }

  lemma ParsesOwnName(stem: string, n: nat)
    requires !Contains(stem + ".", INC) && n < UINT64_LIMIT
    ensures ParseSealedSeq(SealedName(stem, n)) == Number(n)
  {
    var digits := Padded(n);
    var tail := digits + "." + "jsonl";
    assert SealedName(stem, n) == stem + INC + tail;
    FirstMarker(stem, tail);
    assert '.' !in digits by {
      assert forall k :: 0 <= k < |digits| ==> IsDigit(digits[k]);
    }
    FieldIs(SealedName(stem, n), stem, INC, digits, "jsonl");
    ParsePadded(n);
  }

  /** A search that succeeds before the tail finds the same position without the tail. */
  lemma IndexBeforeTail(s: string, tail: string, pat: string, i: nat)
    requires At(s, pat, i)
    ensures IndexFrom(s + tail, pat, 0) == IndexFrom(s, pat, 0) <= i
  {
    var long, short := IndexFrom(s + tail, pat, 0), IndexFrom(s, pat, 0);
    IndexIsFirst(s, pat, 0, i);
    IndexIsFirst(s + tail, pat, 0, short);
    IndexIsFirst(s, pat, 0, long);
  }

  /** A string with a dot after position `at` has a first such dot. */
  lemma SplitAtDot(s: string, at: nat) returns (text: string, post: string)
    requires at < |s| && s[|s| - 1] == '.'
    ensures s[at..] == text + "." + post && '.' !in text
  {
    var k := at;
    while s[k] != '.'
      invariant at <= k < |s|
      invariant '.' !in s[at..k]
      decreases |s| - k
    {
      k := k + 1;
      assert s[at..k] == s[at..k - 1] + [s[k - 1]];
    }
    text, post := s[at..k], s[k + 1..];
  }

  lemma Regroup(pre: string, marker: string, text: string, post: string, tail: string)
    ensures pre + marker + (text + post) + tail == pre + marker + (text + (post + tail))
  {
  }

  lemma SameFieldWithTail(pre: string, marker: string, text: string, post: string, tail: string)
    requires '.' !in text
    requires var s := pre + marker + (text + "." + post);
             IndexFrom(s, marker, 0) == IndexFrom(s + tail, marker, 0) == |pre|
    ensures var s := pre + marker + (text + "." + post);
            FieldAfter(s + tail, marker) == FieldAfter(s, marker)
  {
    var s := pre + marker + (text + "." + post);
    FieldIs(s, pre, marker, text, post);
    Regroup(pre, marker, text + ".", post, tail);
    FieldIs(s + tail, pre, marker, text, post + tail);
  }

  lemma TakeApart(s: string, marker: string, at: nat) returns (text: string, post: string)
    requires at + |marker| < |s| && At(s, marker, at) && s[|s| - 1] == '.'
    ensures s == s[..at] + marker + (text + "." + post) && '.' !in text
  {
    text, post := SplitAtDot(s, at + |marker|);
    assert s[at..at + |marker|] == marker;
    assert s == s[..at] + s[at..at + |marker|] + s[at + |marker|..];
  }

  /** The marker found in `stem + "."` is the first one in every name that starts with `stem + INC`. */
  lemma MarkerInStem(stem: string, tail: string) returns (at: nat)
    requires Contains(stem + ".", INC)
    ensures IndexFrom(stem + INC, INC, 0) == IndexFrom(stem + INC + tail, INC, 0) == at
    ensures at + |INC| < |stem + INC| && At(stem + INC, INC, at)
  {
    var dotted := stem + ".";
    var i: nat :| i <= |dotted| && At(dotted, INC, i);
    assert stem + INC == dotted + INC[1..];
    IndexBeforeTail(dotted, INC[1..], INC, i);
    at := IndexFrom(stem + INC, INC, 0);
    IndexBeforeTail(stem + INC, tail, INC, at);
  }

  /** When the marker occurs in `stem + "."`, what is parsed is already decided by the stem. */
  lemma ParsesTheStemInstead(stem: string, n: nat)
    requires Contains(stem + ".", INC)
    ensures FieldAfter(SealedName(stem, n), INC) == FieldAfter(stem + INC, INC)
  {
    var common, tail := stem + INC, Padded(n) + ".jsonl";
    var at := MarkerInStem(stem, tail);
    var text, post := TakeApart(common, INC, at);
    SameFieldWithTail(common[..at], INC, text, post, tail);
    assert SealedName(stem, n) == common + tail;
  }

  /** The names made with this stem parse to some number: their own, or one that the stem dictates. */
  predicate Recognised(stem: string) {
    Contains(stem + ".", INC) ==> ParseSealedSeq(stem + INC).Number?
  }

  /** A segment file of this stem is taken for a segment exactly when the stem is one of these. */
  lemma RecognisedExactly(stem: string, n: nat)
    requires n < UINT64_LIMIT
    ensures ParseSealedSeq(SealedName(stem, n)).Number? <==> Recognised(stem)
  {
    if Contains(stem + ".", INC) {
      ParsesTheStemInstead(stem, n);
    } else {
      ParsesOwnName(stem, n);
    }
  }

  /** For one: what stands behind the marker in this stem is no number. */
  lemma SomeStemIsNotRecognised()
    ensures !Recognised(INC + "x")
  {
    var stem := INC + "x";
    var base := stem + INC;
    var rest := "x" + INC;
    assert base == INC + rest && base[|INC|..] == rest;
    assert At(base, INC, 0) && At(stem + ".", INC, 0);
    assert IndexFrom(base, INC, 0) == 0;
    assert rest[0] == 'x' && rest[1..] == INC && IndexByte(INC, '.') == 0;
    assert IndexByte(rest, '.') == 1 && rest[..1] == "x";
    assert FieldAfter(base, INC) == Found("x");
    assert !IsDigit("x"[0]);
  }

  /** Different segments of one stem have different names. */
  lemma NamesDiffer(stem: string, m: nat, n: nat)
    requires m < UINT64_LIMIT && n < UINT64_LIMIT && SealedName(stem, m) == SealedName(stem, n)
    ensures m == n
  {
    var head, a, b := stem + INC, Padded(m), Padded(n);
    assert SealedName(stem, m) == head + (a + ".jsonl") && SealedName(stem, n) == head + (b + ".jsonl");
    assert (head + (a + ".jsonl"))[|head|..] == a + ".jsonl" && (head + (b + ".jsonl"))[|head|..] == b + ".jsonl";
    assert (a + ".jsonl")[..|a|] == a && (b + ".jsonl")[..|b|] == b;
    ParsePadded(m);
    ParsePadded(n);
  }

  /**
   * A checkpoint path's segments can be told apart by number exactly when the marker does not
   * occur in the stem followed by a dot.
   */
  lemma RoundTripExactly(stem: string)
    ensures RoundTrips(stem) <==> !Contains(stem + ".", INC)
  {
    if Contains(stem + ".", INC) {
      ParsesTheStemInstead(stem, 0);
      ParsesTheStemInstead(stem, 1);
      assert ParseSealedSeq(SealedName(stem, 0)) == ParseSealedSeq(SealedName(stem, 1));
    } else {
      forall n: nat | n < UINT64_LIMIT ensures ParseSealedSeq(SealedName(stem, n)) == Number(n) {
        ParsesOwnName(stem, n);
      }
    }
  }

  // ---- Listing ----

  datatype Entry = Entry(seqNo: nat, name: string)

  /** The parseable names with their numbers, in the order given. */
  function Numbered(names: seq<string>): seq<Entry> {
    if names == [] then [] else
    var init, p := Numbered(names[..|names| - 1]), ParseSealedSeq(names[|names| - 1]);
    if p.Number? then init + [Entry(p.n, names[|names| - 1])] else init
  }

  function Insert(e: Entry, es: seq<Entry>): (r: seq<Entry>)
    ensures multiset(r) == multiset(es) + multiset{e}
  {
    if es == [] then [e]
    else if e.seqNo <= es[0].seqNo then [e] + es
    else assert es == [es[0]] + es[1..]; [es[0]] + Insert(e, es[1..])
  }

  function SortBySeq(es: seq<Entry>): (r: seq<Entry>)
    ensures multiset(r) == multiset(es)
  {
    if es == [] then [] else
    assert es == es[..|es| - 1] + [es[|es| - 1]];
    Insert(es[|es| - 1], SortBySeq(es[..|es| - 1]))
  }

  ghost predicate Ascending(es: seq<Entry>) {
    forall i, j :: 0 <= i < j < |es| ==> es[i].seqNo <= es[j].seqNo
  }

  lemma {:induction false} InsertAscends(e: Entry, es: seq<Entry>)
    requires Ascending(es)
    ensures Ascending(Insert(e, es))
  {
    if es != [] && e.seqNo > es[0].seqNo {
      var r := Insert(e, es[1..]);
      InsertAscends(e, es[1..]);
      forall k | 0 <= k < |r| ensures es[0].seqNo <= r[k].seqNo {
        assert r[k] in multiset(r);
        assert r[k] == e || r[k] in es[1..];
      }
    }
  }

  lemma {:induction false} SortAscends(es: seq<Entry>)
    ensures Ascending(SortBySeq(es))
  {
    if es != [] {
      SortAscends(es[..|es| - 1]);
      InsertAscends(es[|es| - 1], SortBySeq(es[..|es| - 1]));
    }
  }

  /** The largest number, 0 with no entry at all. */
  ghost predicate IsLargest(max: nat, es: seq<Entry>) {
    && (forall e :: e in es ==> e.seqNo <= max)
    && (if es == [] then max == 0 else exists e :: e in es && e.seqNo == max)
  }

  lemma {:induction false} NumberedExactly(names: seq<string>, e: Entry)
    ensures e in Numbered(names) <==> e.name in names && ParseSealedSeq(e.name) == Number(e.seqNo)
  {
    if names != [] {
      NumberedExactly(names[..|names| - 1], e);
      assert names == names[..|names| - 1] + [names[|names| - 1]];
    }
  }

  lemma SortKeepsAll(es: seq<Entry>, e: Entry)
    ensures e in SortBySeq(es) <==> e in es
  {
    assert e in SortBySeq(es) <==> e in multiset(SortBySeq(es));
  }

  /** `matches` is what the directory listing returned, in any order. */
  method ListSealedSegments(matches: seq<string>) returns (out: seq<Entry>, max: nat)
    ensures out == SortBySeq(Numbered(matches))
    ensures Ascending(out)
    ensures forall e :: e in out <==> e.name in matches && ParseSealedSeq(e.name) == Number(e.seqNo)
    ensures IsLargest(max, out)
  {
    var pairs: seq<Entry> := [];
    max := 0;
    for k := 0 to |matches|
      invariant pairs == Numbered(matches[..k]) && IsLargest(max, pairs)
    {
      assert matches[..k + 1][..k] == matches[..k];
      var p := ParseSealedSeq(matches[k]);
      if p.Number? {
        var entry := Entry(p.n, matches[k]);
        OneMoreEntry(max, pairs, entry);
        pairs := pairs + [entry];
        if p.n > max {
          max := p.n;
        }
      }
    }
    assert matches[..|matches|] == matches;
    out := SortBySeq(pairs);
    SortAscends(pairs);
    forall e ensures e in out <==> e in pairs {
      SortKeepsAll(pairs, e);
    }
    LargestOfSame(max, pairs, out);
    forall e ensures e in out <==> e.name in matches && ParseSealedSeq(e.name) == Number(e.seqNo) {
      SortedEntries(matches, e);
    }
  }

  lemma OneMoreEntry(max: nat, es: seq<Entry>, e: Entry)
    requires IsLargest(max, es)
    ensures IsLargest(if e.seqNo > max then e.seqNo else max, es + [e])
  {
    assert e in es + [e];
    if es != [] && e.seqNo <= max {
      var most :| most in es && most.seqNo == max;
      assert most in es + [e];
    }
  }

  lemma LargestOfSame(max: nat, es: seq<Entry>, out: seq<Entry>)
    requires IsLargest(max, es) && forall e :: e in out <==> e in es
    ensures IsLargest(max, out)
  {
    assert out != [] ==> out[0] in out;
    if es != [] {
      var e :| e in es && e.seqNo == max;
      assert e in out;
    }
  }

  lemma SortedEntries(names: seq<string>, e: Entry)
    ensures e in SortBySeq(Numbered(names)) <==> e.name in names && ParseSealedSeq(e.name) == Number(e.seqNo)
  {
    SortKeepsAll(Numbered(names), e);
    NumberedExactly(names, e);
  }

  /** `names` are the segments `seqs` of one stem, in whatever order the directory was read. */
  ghost predicate OwnNames(stem: string, seqs: seq<nat>, names: seq<string>) {
    && |names| == |seqs|
    && forall i :: 0 <= i < |seqs| ==> seqs[i] < UINT64_LIMIT && names[i] == SealedName(stem, seqs[i])
  }

  ghost function Entries(seqs: seq<nat>, names: seq<string>): (r: seq<Entry>)
    requires |names| == |seqs|
  {
    seq(|seqs|, i requires 0 <= i < |seqs| => Entry(seqs[i], names[i]))
  }

  lemma {:induction false} NumberedOfParsed(seqs: seq<nat>, names: seq<string>)
    requires |names| == |seqs|
    requires forall i :: 0 <= i < |seqs| ==> ParseSealedSeq(names[i]) == Number(seqs[i])
    ensures Numbered(names) == Entries(seqs, names)
  {
    if seqs != [] {
      NumberedOfParsed(seqs[..|seqs| - 1], names[..|seqs| - 1]);
    }
  }

  /** A sequence that holds a value at two places counts it at least twice. */
  lemma CountedTwice<T>(s: seq<T>, i: nat, j: nat)
    requires i < j < |s| && s[i] == s[j]
    ensures multiset(s)[s[i]] >= 2
  {
    assert s == s[..j] + s[j..];
    assert s[i] in multiset(s[..j]) by { assert s[..j][i] == s[i]; }
    assert s[i] in multiset(s[j..]) by { assert s[j..][0] == s[j]; }
  }

  /**
   * Whatever order the directory is read in, the segments written under one well-formed stem are
   * all listed, once each, by strictly increasing rotation number.
   */
  lemma ListsInRotationOrder(stem: string, seqs: seq<nat>, names: seq<string>)
    requires !Contains(stem + ".", INC) && OwnNames(stem, seqs, names)
    requires forall i, j :: 0 <= i < j < |seqs| ==> seqs[i] != seqs[j]
    ensures var out := SortBySeq(Numbered(names));
            && multiset(out) == multiset(Entries(seqs, names))
            && forall i, j :: 0 <= i < j < |out| ==> out[i].seqNo < out[j].seqNo
  {
    forall i | 0 <= i < |seqs| ensures ParseSealedSeq(names[i]) == Number(seqs[i]) {
      ParsesOwnName(stem, seqs[i]);
    }
    NumberedOfParsed(seqs, names);
    SortAscends(Entries(seqs, names));
    StrictlyAscends(stem, seqs, names, SortBySeq(Entries(seqs, names)));
  }

  lemma StrictlyAscends(stem: string, seqs: seq<nat>, names: seq<string>, out: seq<Entry>)
    requires |names| == |seqs|
    requires forall i, j :: 0 <= i < j < |seqs| ==> seqs[i] != seqs[j]
    requires multiset(out) == multiset(Entries(seqs, names)) && Ascending(out)
    ensures forall i, j :: 0 <= i < j < |out| ==> out[i].seqNo < out[j].seqNo
  {
    var es := Entries(seqs, names);
    forall i, j | 0 <= i < j < |out| ensures out[i].seqNo != out[j].seqNo {
      assert out[i] in multiset(es) && out[j] in multiset(es);
      if out[i] == out[j] {
        CountedTwice(out, i, j);
        CountedOnce(es, out[i]);
        assert false;
      }
    }
  }

  lemma {:induction false} CountedOnce(es: seq<Entry>, e: Entry)
    requires forall i, j :: 0 <= i < j < |es| ==> es[i].seqNo != es[j].seqNo
    ensures multiset(es)[e] <= 1
  {
    if es != [] {
      var last := |es| - 1;
      CountedOnce(es[..last], e);
      assert es == es[..last] + [es[last]];
      assert e == es[last] ==> e !in es[..last];
    }
  }

  // ---- The checkpoint file and the cleanup pattern ----

  /** filepath.Ext: the last dot and what follows it, or nothing. */
  function Ext(base: string): (ext: string)
    ensures |ext| <= |base| && base[|base| - |ext|..] == ext
  {
    if base == "" then "" else
    var init, last := base[..|base| - 1], base[|base| - 1];
    if last == '.' then "." else if Ext(init) == "" then "" else Ext(init) + [last]
  }

  /** incrementalStemPaths: the checkpoint's name without its extension. */
  function Stem(base: string): (stem: string)
    ensures stem + Ext(base) == base
  {
    base[..|base| - |Ext(base)|]
  }

  const CLEANUP := ".incremental"

  /** The pattern of removeAllAppendArtifactsLocked is the stem, CLEANUP, and then anything. */
  predicate Removes(base: string, name: string) {
    Stem(base) + CLEANUP <= name
  }

  /** Whether the cleanup after a checkpoint at this path removes the checkpoint, too. */
  predicate TakesCheckpoint(base: string) {
    CLEANUP <= Ext(base)
  }

  lemma SamePrefix(head: string, a: string, b: string)
    ensures head + a <= head + b <==> a <= b
  {
    assert (head + a)[|head|..] == a && (head + b)[|head|..] == b;
    if head + a <= head + b {
      assert (head + b)[..|head + a|] == head + a;
      assert b[..|a|] == (head + b)[|head|..|head + a|] == a;
    }
  }

  /** A suffix that starts with a dot does not complete the pattern. */
  lemma SuffixAddsNothing(ext: string, suffix: string)
    requires |suffix| >= 2 && suffix[0] == '.' && suffix[1] != 'i'
    ensures CLEANUP <= ext + suffix <==> CLEANUP <= ext
  {
    assert CLEANUP[1] == 'i' && forall k :: 0 < k < |CLEANUP| ==> CLEANUP[k] != '.';
    if |ext| < |CLEANUP| <= |ext + suffix| {
      var k := if |ext| == 0 then 1 else |ext|;
      assert (ext + suffix)[k] == (if |ext| == 0 then suffix[1] else suffix[0]);
      assert (ext + suffix)[k] != CLEANUP[k];
    }
  }

  /**
   * The cleanup spares the checkpoint and its two spare files exactly when the checkpoint's extension does
   * not start with ".incremental".
   */
  lemma RemovesCheckpointExactly(base: string)
    ensures Removes(base, base) <==> TakesCheckpoint(base)
    ensures Removes(base, base + ".tmp") <==> TakesCheckpoint(base)
    ensures Removes(base, base + ".old") <==> TakesCheckpoint(base)
  {
    var stem, ext := Stem(base), Ext(base);
    SamePrefix(stem, CLEANUP, ext);
    forall suffix | suffix == ".tmp" || suffix == ".old" ensures Removes(base, base + suffix) <==>
          TakesCheckpoint(base) {
      assert base + suffix == stem + (ext + suffix);
      SamePrefix(stem, CLEANUP, ext + suffix);
      SuffixAddsNothing(ext, suffix);
    }
  }

  lemma RemovesTail(base: string, tail: string)
    requires CLEANUP <= tail
    ensures Removes(base, Stem(base) + tail)
  {
    SamePrefix(Stem(base), CLEANUP, tail);
  }

  lemma RegroupName(stem: string, n: nat)
    ensures SealedName(stem, n) == stem + (INC + (Padded(n) + ".jsonl"))
  {
  }

  lemma MarkerStartsAlike(tail: string)
    ensures CLEANUP <= ".incremental.jsonl" && CLEANUP <= INC + tail
  {
    assert INC == CLEANUP + ".sealed." && ".incremental.jsonl" == CLEANUP + ".jsonl";
  }

  /** It never spares a segment. */
  lemma RemovesEverySegment(base: string, n: nat)
    ensures Removes(base, SealedName(Stem(base), n)) && Removes(base, Stem(base) + ".incremental.jsonl")
  {
    var tail := Padded(n) + ".jsonl";
    MarkerStartsAlike(tail);
    RemovesTail(base, ".incremental.jsonl");
    RemovesTail(base, INC + tail);
    RegroupName(Stem(base), n);
  }

  /** For one: a checkpoint of this name does not outlive its own publication. */
  lemma SomeCheckpointIsTaken()
    ensures TakesCheckpoint("run" + CLEANUP) && !TakesCheckpoint("run" + ".json")
  {
    NoOtherDot();
    ExtOf("run", CLEANUP);
    ExtOf("run", ".json");
  }

  lemma NoExtension()
    ensures Ext("run") == ""
  {
    assert "run"[..2] == "ru" && "ru"[..1] == "r" && "r"[..0] == "";
    assert Ext("r") == "";
    assert Ext("ru") == "";
  }

  /** The names beside a checkpoint called run.json, and the stem of one without an extension. */
  lemma SomeNames()
    ensures SealedName("run", 1) == "run" + ".incremental.sealed." + "000001" + ".jsonl"
    ensures Stem("run" + ".json") == "run" && Stem("run") == "run"
  {
    NoOtherDot();
    ExtOf("run", ".json");
    assert ("run" + ".json")[..3] == "run";
    NoExtension();
    PaddedOne();
  }

  lemma NoOtherDot()
    ensures '.' !in CLEANUP[1..] && '.' !in ".json"[1..]
  {
    assert CLEANUP[1..] == "incremental" && ".json"[1..] == "json";
  }

  lemma {:induction false} ExtOf(stem: string, ext: string)
    requires ext != "" && ext[0] == '.' && '.' !in ext[1..]
    ensures Ext(stem + ext) == ext
    decreases |ext|
  {
    var base := stem + ext;
    var last := ext[|ext| - 1];
    if |ext| > 1 {
      var init := ext[..|ext| - 1];
      assert base[..|base| - 1] == stem + init && init[1..] == ext[1..][..|ext| - 2];
      ExtOf(stem, init);
      assert last == ext[1..][|ext| - 2];
      assert init + [last] == ext;
    }
  }
}
