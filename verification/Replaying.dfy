/** loadCheckpointAndReplay: reading the directory back into a run (json_serializer.go 273-316, 318-356, 380-400). */
module Replaying {
  import opened Jobs
  import opened Persisted
  import opened Serializing
  import opened Decimal
  import Names = SegmentNames

  /** One name for each segment, in whatever order the directory is read. */
  method Glob(stem: string, sealed: map<nat, seq<Job>>) returns (names: seq<string>, ghost seqs: seq<nat>)
    requires forall n :: n in sealed ==> n < UINT64_LIMIT
    ensures Globbed(stem, seqs, names, sealed)
  {
    names, seqs := [], [];
    var todo := sealed.Keys;
    while todo != {}
      invariant todo <= sealed.Keys
      invariant Names.OwnNames(stem, seqs, names)
      invariant forall i, j :: 0 <= i < j < |seqs| ==> seqs[i] != seqs[j]
      invariant forall n :: n in seqs <==> n in sealed.Keys - todo
      decreases |todo|
    {
      var n :| n in todo;
      assert n !in seqs && forall k :: k in seqs + [n] <==> k in seqs || k == n;
      names, seqs := names + [Names.SealedName(stem, n)], seqs + [n];
      todo := todo - {n};
    }
  }

  /** The entries are the files of the segments with these numbers. */
  ghost predicate Files(es: seq<Names.Entry>, stem: string, order: seq<nat>) {
    |es| == |order| && forall i :: 0 <= i < |es| ==> es[i].name == Names.SealedName(stem, order[i])
  }

  /** `seqs` are the numbers of the segments and `names` their names, in the order the directory is read. */
  ghost predicate Globbed(stem: string, seqs: seq<nat>, names: seq<string>, m: map<nat, seq<Job>>) {
    && Names.OwnNames(stem, seqs, names)
    && (forall i, j :: 0 <= i < j < |seqs| ==> seqs[i] != seqs[j])
    && (forall n :: n in seqs <==> n in m)
  }

  lemma SameEntries(es: seq<Names.Entry>, out: seq<Names.Entry>, e: Names.Entry)
    requires multiset(out) == multiset(es)
    ensures e in out <==> e in es
  {
    assert e in multiset(out) <==> e in multiset(es);
  }

  /** The entries carry these names. */
  predicate Carry(es: seq<Names.Entry>, names: seq<string>) {
    |es| == |names| && forall i :: 0 <= i < |es| ==> es[i].name == names[i]
  }

  lemma NumberedLast(names: seq<string>) returns (e: Names.Entry)
    requires names != [] && Names.ParseSealedSeq(names[|names| - 1]).Number?
    ensures Names.Numbered(names) == Names.Numbered(names[..|names| - 1]) + [e] && e.name == names[|names| - 1]
  {
    e := Names.Entry(Names.ParseSealedSeq(names[|names| - 1]).n, names[|names| - 1]);
  }

  lemma CarryMore(es: seq<Names.Entry>, names: seq<string>, e: Names.Entry)
    requires Carry(es, names)
    ensures Carry(es + [e], names + [e.name])
  {
  }

  predicate AllParse(names: seq<string>) {
    names == [] || (AllParse(names[..|names| - 1]) && Names.ParseSealedSeq(names[|names| - 1]).Number?)
  }

  lemma {:induction false} NumberedNames(names: seq<string>)
    requires AllParse(names)
    ensures Carry(Names.Numbered(names), names)
  {
    if names != [] {
      var init := names[..|names| - 1];
      var e := NumberedLast(names);
      NumberedNames(init);
      CarryMore(Names.Numbered(init), init, e);
      assert names == init + [e.name];
    }
  }

  lemma {:induction false} OwnNamesParse(stem: string, seqs: seq<nat>, names: seq<string>)
    requires Names.Recognised(stem) && Names.OwnNames(stem, seqs, names)
    ensures AllParse(names)
  {
    if names != [] {
      Names.RecognisedExactly(stem, seqs[|seqs| - 1]);
      OwnNamesParse(stem, seqs[..|seqs| - 1], names[..|names| - 1]);
    }
  }

  lemma AllNumbered(stem: string, seqs: seq<nat>, names: seq<string>)
    requires Names.Recognised(stem) && Names.OwnNames(stem, seqs, names)
    ensures Carry(Names.Numbered(names), names)
  {
    OwnNamesParse(stem, seqs, names);
    NumberedNames(names);
  }

  /** The number of the segment with this name. */
  ghost function NumberOf(stem: string, seqs: seq<nat>, name: string): nat {
    if i :| 0 <= i < |seqs| && Names.SealedName(stem, seqs[i]) == name then seqs[i] else 0
  }

  lemma NumberOfOwn(stem: string, seqs: seq<nat>, names: seq<string>, n: nat)
    requires Names.OwnNames(stem, seqs, names) && n in seqs
    ensures NumberOf(stem, seqs, Names.SealedName(stem, n)) == n
  {
    var k :| 0 <= k < |seqs| && seqs[k] == n;
    var i :| 0 <= i < |seqs| && Names.SealedName(stem, seqs[i]) == Names.SealedName(stem, n)
             && NumberOf(stem, seqs, Names.SealedName(stem, n)) == seqs[i];
    Names.NamesDiffer(stem, seqs[i], n);
  }

  ghost function NumbersOf(stem: string, seqs: seq<nat>, es: seq<Names.Entry>): (order: seq<nat>)
    ensures |order| == |es| && forall k :: 0 <= k < |es| ==> order[k] == NumberOf(stem, seqs, es[k].name)
  {
    seq(|es|, k requires 0 <= k < |es| => NumberOf(stem, seqs, es[k].name))
  }

  /** An entry listed is the file of some segment. */
  lemma ListedIsOwn(stem: string, seqs: seq<nat>, names: seq<string>, out: seq<Names.Entry>, k: nat) returns (i: nat)
    requires Names.Recognised(stem) && Names.OwnNames(stem, seqs, names) && k < |out|
    requires multiset(out) == multiset(Names.Numbered(names))
    ensures i < |seqs| == |Names.Numbered(names)| && out[k] == Names.Numbered(names)[i]
    ensures out[k].name == Names.SealedName(stem, seqs[i]) && NumberOf(stem, seqs, out[k].name) == seqs[i]
  {
    var es := Names.Numbered(names);
    AllNumbered(stem, seqs, names);
    SameEntries(es, out, out[k]);
    i :| 0 <= i < |es| && es[i] == out[k];
    assert seqs[i] in seqs;
    NumberOfOwn(stem, seqs, names, seqs[i]);
  }

  /** And each segment is listed. */
  lemma OwnIsListed(stem: string, seqs: seq<nat>, names: seq<string>, out: seq<Names.Entry>, n: nat)
    requires Names.Recognised(stem) && Names.OwnNames(stem, seqs, names) && n in seqs
    requires multiset(out) == multiset(Names.Numbered(names))
    ensures n in NumbersOf(stem, seqs, out)
  {
    var es := Names.Numbered(names);
    AllNumbered(stem, seqs, names);
    var i :| 0 <= i < |seqs| && seqs[i] == n;
    SameEntries(es, out, es[i]);
    var k :| 0 <= k < |out| && out[k] == es[i];
    NumberOfOwn(stem, seqs, names, n);
    assert NumbersOf(stem, seqs, out)[k] == n;
  }

  lemma {:induction false} CountedOnce<T>(s: seq<T>, e: T)
    requires forall i, j :: 0 <= i < j < |s| ==> s[i] != s[j]
    ensures multiset(s)[e] <= 1
  {
    if s != [] {
      var last := |s| - 1;
      CountedOnce(s[..last], e);
      assert s == s[..last] + [s[last]];
      assert e == s[last] ==> e !in s[..last];
    }
  }

  /** No segment is listed twice. */
  lemma ListedOnce(stem: string, seqs: seq<nat>, names: seq<string>, m: map<nat, seq<Job>>, out: seq<Names.Entry>,
                   j: nat, k: nat)
    requires Names.Recognised(stem) && Globbed(stem, seqs, names, m) && j < k < |out|
    requires multiset(out) == multiset(Names.Numbered(names))
    ensures NumbersOf(stem, seqs, out)[j] != NumbersOf(stem, seqs, out)[k]
  {
    var es := Names.Numbered(names);
    var a := ListedIsOwn(stem, seqs, names, out, j);
    var b := ListedIsOwn(stem, seqs, names, out, k);
    if a == b {
      forall x, y | 0 <= x < y < |es| ensures es[x] != es[y] {
        AllNumbered(stem, seqs, names);
        if es[x] == es[y] {
          Names.NamesDiffer(stem, seqs[x], seqs[y]);
        }
      }
      CountedOnce(es, out[j]);
      Names.CountedTwice(out, j, k);
    }
  }

  lemma RisingByOwnNumber(stem: string, seqs: seq<nat>, names: seq<string>, m: map<nat, seq<Job>>)
    requires !Names.Contains(stem + ".", Names.INC) && Globbed(stem, seqs, names, m)
    ensures var order := NumbersOf(stem, seqs, Names.SortBySeq(Names.Numbered(names)));
            forall i, j :: 0 <= i < j < |order| ==> order[i] < order[j]
  {
    var out := Names.SortBySeq(Names.Numbered(names));
    Names.ListsInRotationOrder(stem, seqs, names);
    forall k | 0 <= k < |out| ensures NumberOf(stem, seqs, out[k].name) == out[k].seqNo {
      var i := ListedIsOwn(stem, seqs, names, out, k);
      Names.RecognisedExactly(stem, seqs[i]);
      SameNumber(stem, seqs, names, i);
    }
  }

  lemma SameNumber(stem: string, seqs: seq<nat>, names: seq<string>, i: nat)
    requires !Names.Contains(stem + ".", Names.INC) && Names.OwnNames(stem, seqs, names) && i < |seqs|
    ensures i < |Names.Numbered(names)| && Names.Numbered(names)[i].seqNo == seqs[i]
  {
    forall k | 0 <= k < |seqs| ensures Names.ParseSealedSeq(names[k]) == Number(seqs[k]) {
      Names.ParsesOwnName(stem, seqs[k]);
    }
    Names.NumberedOfParsed(seqs, names);
  }

  lemma {:induction false} NothingRecognised(stem: string, seqs: seq<nat>, names: seq<string>)
    requires !Names.Recognised(stem) && Names.OwnNames(stem, seqs, names)
    ensures Names.Numbered(names) == []
  {
    if names != [] {
      Names.RecognisedExactly(stem, seqs[|seqs| - 1]);
      NothingRecognised(stem, seqs[..|seqs| - 1], names[..|names| - 1]);
    }
  }

  /**
   * What listSealedSegments makes of the names are the files of all segments, each once, and by rising
   * number unless the stem confuses the numbers.
   */
  lemma SortedLists(stem: string, seqs: seq<nat>, names: seq<string>, m: map<nat, seq<Job>>)
    returns (order: seq<nat>)
    requires Names.Recognised(stem) && Globbed(stem, seqs, names, m)
    ensures Files(Names.SortBySeq(Names.Numbered(names)), stem, order)
    ensures Picks(order, m) && forall n :: n in m ==> n in order
    ensures !Names.Contains(stem + ".", Names.INC) ==> Lists(order, m)
  {
    var out := Names.SortBySeq(Names.Numbered(names));
    order := NumbersOf(stem, seqs, out);
    forall k | 0 <= k < |out| ensures order[k] in m && out[k].name == Names.SealedName(stem, order[k]) {
      var i := ListedIsOwn(stem, seqs, names, out, k);
      assert seqs[i] in seqs;
    }
    forall j, k | 0 <= j < k < |out| ensures order[j] != order[k] {
      ListedOnce(stem, seqs, names, m, out, j, k);
    }
    forall n | n in m ensures n in order {
      OwnIsListed(stem, seqs, names, out, n);
    }
    if !Names.Contains(stem + ".", Names.INC) {
      RisingByOwnNumber(stem, seqs, names, m);
    }
  }

  /**
   * The calls of one reading that return an error: reading the checkpoint, listing the segments, reading
   * one of them, os.Stat on the active log, reading it.
   */
  datatype ReadFaults = ReadFaults(main: bool, listing: bool, segments: set<nat>, stat: bool, active: bool)

  /** replayJSONLFile: the lines in order, each replacing its job. */
  method ReplayJSONLFile(lines: seq<Job>, run: Store, unreadable: bool) returns (r: Result, after: Store)
    ensures r.Done? <==> !unreadable
    ensures r.Done? ==> after == Replay(lines, run)
  {
    after := run;
    if unreadable {
      return Fails, after;
    }
    for k := 0 to |lines|
      invariant after == Replay(lines[..k], run)
    {
      assert lines[..k + 1][..k] == lines[..k];
      after := Apply(lines[k], after);
    }
    assert lines[..|lines|] == lines;
    r := Done;
  }

  /** Opens the files listed one after the other, each by its name. */
  method ReplayListed(es: seq<Names.Entry>, stem: string, sealed: map<nat, seq<Job>>, base: Store,
                      unreadable: set<nat>, ghost order: seq<nat>) returns (r: Result, run: Store)
    requires Picks(order, sealed) && Files(es, stem, order) && forall n :: n in sealed ==> n < UINT64_LIMIT
    ensures r.Done? <==> forall i :: 0 <= i < |order| ==> order[i] !in unreadable
    ensures r.Done? ==> run == Replay(LinesOf(order, sealed), base)
  {
    run, r := base, Done;
    for k := 0 to |es|
      invariant r.Done? && forall i :: 0 <= i < k ==> order[i] !in unreadable
      invariant forall n :: n in order[k..] ==> n in sealed
      invariant Replay(LinesOf(order[k..], sealed), run) == Replay(LinesOf(order, sealed), base)
    {
      assert order[k] in order;
      var n :| n in sealed && Names.SealedName(stem, n) == es[k].name;
      Names.NamesDiffer(stem, n, order[k]);
      NextFile(order, k, sealed, run);
      r, run := ReplayJSONLFile(sealed[n], run, n in unreadable);
      if r.Fails? {
        return;
      }
    }
  }

  lemma NextFile(order: seq<nat>, k: nat, m: map<nat, seq<Job>>, run: Store)
    requires k < |order| && forall n :: n in order ==> n in m
    ensures forall n :: n in order[k..] || n in order[k + 1..] ==> n in m
    ensures Replay(LinesOf(order[k..], m), run) == Replay(LinesOf(order[k + 1..], m), Replay(m[order[k]], run))
  {
    assert order[k] in order && order[k..][0] == order[k] && order[k..][1..] == order[k + 1..];
    ReplayConcat(m[order[k]], LinesOf(order[k + 1..], m), run);
  }

  /**
   * What the listing shows of the sealed segments: nothing if it fails or the names do not parse, and else
   * all, in rotation order unless the stem confuses the numbers.
   */
  ghost predicate ListingOf(order: seq<nat>, sealed: map<nat, seq<Job>>, stem: string, faults: ReadFaults) {
    && Picks(order, sealed)
    && if faults.listing || !Names.Recognised(stem) then order == [] else
       (forall n :: n in sealed ==> n in order) && (!Names.Contains(stem + ".", Names.INC) ==> Lists(order, sealed))
  }

  method ReplaySealed(stem: string, sealed: map<nat, seq<Job>>, base: Store, faults: ReadFaults)
    returns (r: Result, run: Store, ghost order: seq<nat>)
    requires forall n :: n in sealed ==> n < UINT64_LIMIT
    ensures ListingOf(order, sealed, stem, faults)
    ensures r.Done? <==> faults.listing || !Names.Recognised(stem) || faults.segments !! sealed.Keys
    ensures r.Done? ==> run == Replay(LinesOf(order, sealed), base)
  {
    run, r, order := base, Done, [];
    if !faults.listing {
      var names, seqs := Glob(stem, sealed);
      var entries, _ := Names.ListSealedSegments(names);
      if !Names.Recognised(stem) {
        NothingRecognised(stem, seqs, names);
        assert entries == [];
        return;
      }
      order := SortedLists(stem, seqs, names, sealed);
      r, run := ReplayListed(entries, stem, sealed, run, faults.segments, order);
    }
  }

  /** The numbers by rising size. */
  lemma {:induction false} InOrder(m: map<nat, seq<Job>>) returns (order: seq<nat>)
    ensures Lists(order, m)
    decreases |m|
  {
    if m == map[] {
      order := [];
    } else {
      var k := MinKey(m);
      var rest := InOrder(m - {k});
      order := [k] + rest;
      ListsMore(k, rest, m);
    }
  }

  lemma ListsMore(k: nat, rest: seq<nat>, m: map<nat, seq<Job>>)
    requires k in m && (forall n :: n in m ==> k <= n) && Lists(rest, m - {k})
    ensures Lists([k] + rest, m)
  {
    var order := [k] + rest;
    forall n ensures n in order <==> n in m {
      assert n in order <==> n == k || n in rest;
    }
    forall i, j | 0 <= i < j < |order| ensures order[i] < order[j] {
      assert rest[j - 1] in rest;
    }
  }

  /** What a listing could show, for a reading that fails before it. */
  lemma SomeListing(sealed: map<nat, seq<Job>>, stem: string, faults: ReadFaults) returns (order: seq<nat>)
    ensures ListingOf(order, sealed, stem, faults)
  {
    order := InOrder(sealed);
    if faults.listing || !Names.Recognised(stem) {
      order := [];
    }
  }

  /** What a reading with these faults sees of the segments. */
  ghost predicate SightOf(sight: Sight, d: Disk, stem: string, faults: ReadFaults) {
    (sight.active <==> !faults.stat) && ListingOf(sight.order, d.sealed, stem, faults)
  }

  /** No call that a reading of this disk makes, lookups apart, returns an error. */
  predicate NoReadError(d: Disk, stem: string, faults: ReadFaults) {
    && !faults.main
    && (!faults.listing && Names.Recognised(stem) ==> faults.segments !! d.sealed.Keys)
    && (!faults.stat && d.active.Some? ==> !faults.active)
  }

  lemma {:induction false} PicksFit(order: seq<nat>, m: map<nat, seq<Job>>)
    requires Picks(order, m)
    ensures |order| <= |m|
    decreases |order|
  {
    if order != [] {
      var k, rest := order[0], order[1..];
      assert k in m && forall n :: n in rest ==> n in order && n != k;
      PicksFit(rest, m - {k});
      assert (m - {k}).Keys == m.Keys - {k};
    }
  }

  /** With one sealed segment at most a reading sees everything exactly when its lookups work and the names parse. */
  lemma SeesAllExactly(sight: Sight, d: Disk, stem: string, faults: ReadFaults)
    requires SightOf(sight, d, stem, faults) && |d.sealed| <= 1
    ensures SeesAll(d, sight) <==>
            && (d.active.Some? ==> !faults.stat)
            && (d.sealed != map[] ==> !faults.listing && Names.Recognised(stem))
  {
    PicksFit(sight.order, d.sealed);
    if d.sealed != map[] {
      assert d.sealed.Keys != {};
      var n :| n in d.sealed;
    }
  }

  /**
   * Reading back the whole directory. An error of os.Stat on the active log, an unreadable listing and a
   * stem whose names do not parse pass for "not there"; every other error is returned.
   */
  method LoadCheckpointAndReplay(d: Disk, stem: string, faults: ReadFaults)
    returns (r: Result, run: Store, ghost sight: Sight)
    requires forall n :: n in d.sealed ==> n < UINT64_LIMIT
    ensures SightOf(sight, d, stem, faults)
    ensures r.Done? <==> NoReadError(d, stem, faults) && !d.main.Partial?
    ensures r.Done? <==>
            && !faults.main && !d.main.Partial?
            && (!faults.listing && Names.Recognised(stem) ==> forall n :: n in d.sealed ==> n !in faults.segments)
            && (!faults.stat && d.active.Some? ==> !faults.active)
    ensures r.Done? ==> run == Seen(d, sight)
  {
    run, r := map[], Fails;
    ghost var order := SomeListing(d.sealed, stem, faults);
    sight := Sight(!faults.stat, order);
    if faults.main {
      return;
    }
    match d.main {
      case Missing =>
      case Partial =>
        return;
      case Whole(content) =>
        run := content;
    }
    r, run, order := ReplaySealed(stem, d.sealed, run, faults);
    sight := Sight(!faults.stat, order);
    if r.Fails? {
      return;
    }
    var active := [];
    if d.active.Some? && !faults.stat {
      active := d.active.value;
      r, run := ReplayJSONLFile(active, run, faults.active);
    }
    ReplayConcat(LinesOf(order, d.sealed), active, Base(d.main));
  }
}
