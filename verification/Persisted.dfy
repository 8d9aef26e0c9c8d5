/** Runs on disk and what replaying a log makes of them (json_serializer.go, run.go: UpdateJob). */
module Persisted {
  import opened Jobs

  /** The jobs of a run by id. */
  type Store = map<string, Job>

  /** applyJSONLLine: the job of a line replaces whatever the run held under its id. */
  function Apply(line: Job, m: Store): Store {
    m[line.id := line]
  }

  /** replayJSONLFile: the lines in order. */
  function Replay(lines: seq<Job>, m: Store): Store {
    if lines == [] then m else Apply(lines[|lines| - 1], Replay(lines[..|lines| - 1], m))
  }

  /** A checkpoint file: it is there in full, cut short by a crash, or not there. */
  datatype File = Missing | Partial | Whole(content: Store)

  /** Segment files by rotation number; `active` is the log appended to. */
  datatype Disk = Disk(main: File, tmp: File, backup: File, sealed: map<nat, seq<Job>>, active: Option<seq<Job>>)

  const FRESH := Disk(Missing, Missing, Missing, map[], None)

  ghost function MinKey(m: map<nat, seq<Job>>): (k: nat)
    requires m != map[]
    ensures k in m && forall i :: i in m ==> k <= i
  {
    assert m.Keys != {};
    var some: nat :| some in m;
    LeastFrom(m, 0, some)
  }

  ghost function LeastFrom(m: map<nat, seq<Job>>, from: nat, some: nat): (k: nat)
    requires some in m && from <= some && forall i :: i in m ==> from <= i
    ensures k in m && forall i :: i in m ==> k <= i
    decreases some - from
  {
    if from in m then from else LeastFrom(m, from + 1, some)
  }

  /** The lines of all sealed segments, in rotation order. */
  ghost function SealedLines(m: map<nat, seq<Job>>): seq<Job>
    decreases |m|
  {
    if m == map[] then [] else
    var k := MinKey(m);
    m[k] + SealedLines(m - {k})
  }

  function ActiveLines(active: Option<seq<Job>>): seq<Job> {
    match active
    case None => []
    case Some(lines) => lines
  }

  ghost function Log(d: Disk): seq<Job> {
    SealedLines(d.sealed) + ActiveLines(d.active)
  }

  function Base(main: File): Store {
    if main.Whole? then main.content else map[]
  }

  /** The run that a full recovery makes of the disk. */
  ghost function Recoverable(d: Disk): Store {
    Replay(Log(d), Base(d.main))
  }

  lemma OneSealed(k: nat, lines: seq<Job>)
    ensures SealedLines(map[k := lines]) == lines
  {
    var m := map[k := lines];
    assert k in m && m[k] == lines;
    assert MinKey(m) == k;
    assert m - {k} == map[];
    assert SealedLines(m) == lines + [];
  }

  // ---- Segments in the order a listing gives them ----

  /** The lines of the segments with these numbers, one file after the other. */
  ghost function LinesOf(order: seq<nat>, m: map<nat, seq<Job>>): seq<Job>
    requires forall n :: n in order ==> n in m
  {
    if order == [] then [] else m[order[0]] + LinesOf(order[1..], m)
  }

  /** Segments of `m`, each at most once. */
  ghost predicate Picks(order: seq<nat>, m: map<nat, seq<Job>>) {
    && (forall n :: n in order ==> n in m)
    && (forall i, j :: 0 <= i < j < |order| ==> order[i] != order[j])
  }

  /** Each segment of `m` once, by rising number. */
  ghost predicate Lists(order: seq<nat>, m: map<nat, seq<Job>>) {
    && (forall n :: n in order <==> n in m)
    && (forall i, j :: 0 <= i < j < |order| ==> order[i] < order[j])
  }

  lemma FirstIsLeast(order: seq<nat>, m: map<nat, seq<Job>>)
    requires Lists(order, m) && order != []
    ensures m != map[] && MinKey(m) == order[0]
  {
    assert order[0] in order && order[0] in m;
    var i :| 0 <= i < |order| && order[i] == MinKey(m);
  }

  lemma ListsRest(order: seq<nat>, m: map<nat, seq<Job>>)
    requires Lists(order, m) && order != []
    ensures Lists(order[1..], m - {order[0]}) && order[0] !in order[1..]
  {
    assert forall n :: n in order <==> n == order[0] || n in order[1..];
  }

  lemma {:induction false} LinesOfSmaller(order: seq<nat>, m: map<nat, seq<Job>>, k: nat)
    requires forall n :: n in order ==> n in m && n != k
    ensures LinesOf(order, m) == LinesOf(order, m - {k})
  {
    if order != [] {
      assert order[0] in order;
      LinesOfSmaller(order[1..], m, k);
    }
  }

  /** Replaying the files by rising number is replaying them in rotation order. */
  lemma {:induction false} ListedLines(order: seq<nat>, m: map<nat, seq<Job>>)
    requires Lists(order, m)
    ensures LinesOf(order, m) == SealedLines(m)
    decreases |order|
  {
    if order == [] {
      assert forall n: nat :: n !in m;
      assert m == map[];
    } else {
      FirstIsLeast(order, m);
      ListsRest(order, m);
      ListedLines(order[1..], m - {order[0]});
      LinesOfSmaller(order[1..], m, order[0]);
    }
  }

  // ---- Laws of replay ----

  lemma {:induction false} ReplayConcat(a: seq<Job>, b: seq<Job>, m: Store)
    ensures Replay(a + b, m) == Replay(b, Replay(a, m))
  {
    if b == [] {
      assert a + b == a;
    } else {
      var init := b[..|b| - 1];
      ReplayConcat(a, init, m);
      assert (a + b)[..|a + b| - 1] == a + init;
    }
  }

  /** The last line of each id, if there is one. */
  function LastLine(lines: seq<Job>, id: string): Option<Job> {
    if lines == [] then None
    else if lines[|lines| - 1].id == id then Some(lines[|lines| - 1])
    else LastLine(lines[..|lines| - 1], id)
  }

  /** Replay is last-writer-wins, id by id, and leaves the ids it has no line for alone. */
  lemma {:induction false} LastWriterWins(lines: seq<Job>, m: Store, id: string)
    ensures var last := LastLine(lines, id);
            && (last.Some? ==> id in Replay(lines, m) && Replay(lines, m)[id] == last.value && last.value.id == id)
            && (last == None ==> (id in Replay(lines, m) <==> id in m))
            && (last == None && id in m ==> Replay(lines, m)[id] == m[id])
  {
    if lines != [] {
      LastWriterWins(lines[..|lines| - 1], m, id);
    }
  }

  // ---- Which line decides, file by file ----

  /** Line `i` is the last one of its id. */
  ghost predicate IsLast(lines: seq<Job>, i: int) {
    0 <= i < |lines| && forall k :: i < k < |lines| ==> lines[k].id != lines[i].id
  }

  ghost predicate NoLine(lines: seq<Job>, id: string) {
    forall k :: 0 <= k < |lines| ==> lines[k].id != id
  }

  lemma {:induction false} LastLineAt(lines: seq<Job>, i: int)
    requires IsLast(lines, i)
    ensures LastLine(lines, lines[i].id) == Some(lines[i])
  {
    if i < |lines| - 1 {
      LastLineAt(lines[..|lines| - 1], i);
    }
  }

  lemma {:induction false} NoLastLine(lines: seq<Job>, id: string)
    requires NoLine(lines, id)
    ensures LastLine(lines, id) == None
  {
    if lines != [] {
      NoLastLine(lines[..|lines| - 1], id);
    }
  }

  lemma {:induction false} LastLineConcat(a: seq<Job>, b: seq<Job>, id: string)
    ensures LastLine(a + b, id) == if LastLine(b, id).Some? then LastLine(b, id) else LastLine(a, id)
  {
    if b == [] {
      assert a + b == a;
    } else {
      var init := b[..|b| - 1];
      LastLineConcat(a, init, id);
      assert (a + b)[..|a + b| - 1] == a + init;
    }
  }

  lemma {:induction false} NoSealedLine(m: map<nat, seq<Job>>, id: string)
    requires forall n :: n in m ==> LastLine(m[n], id) == None
    ensures LastLine(SealedLines(m), id) == None
    decreases |m|
  {
    if m != map[] {
      var k := MinKey(m);
      NoSealedLine(m - {k}, id);
      LastLineConcat(m[k], SealedLines(m - {k}), id);
    }
  }

  lemma {:induction false} SealedLastLine(m: map<nat, seq<Job>>, n: nat, id: string)
    requires n in m && LastLine(m[n], id).Some?
    requires forall k :: k in m && k > n ==> LastLine(m[k], id) == None
    ensures LastLine(SealedLines(m), id) == LastLine(m[n], id)
    decreases |m|
  {
    var k := MinKey(m);
    LastLineConcat(m[k], SealedLines(m - {k}), id);
    if k == n {
      NoSealedLine(m - {k}, id);
    } else {
      SealedLastLine(m - {k}, n, id);
    }
  }

  /** The last line of an id in the active log decides, whatever the segments and the checkpoint say. */
  lemma {:induction false} ActiveLineDecides(d: Disk, i: int)
    requires d.active.Some? && IsLast(d.active.value, i)
    ensures var j := d.active.value[i]; j.id in Recoverable(d) && Recoverable(d)[j.id] == j
  {
    var lines, id := d.active.value, d.active.value[i].id;
    LastLineAt(lines, i);
    LastLineConcat(SealedLines(d.sealed), lines, id);
    LastWriterWins(Log(d), Base(d.main), id);
  }

  /** Without a line in the active log, the last line in the segment of the highest number decides. */
  lemma {:induction false} SegmentLineDecides(d: Disk, n: nat, i: int)
    requires n in d.sealed && IsLast(d.sealed[n], i)
    requires forall k :: k in d.sealed && k > n ==> NoLine(d.sealed[k], d.sealed[n][i].id)
    requires d.active.Some? ==> NoLine(d.active.value, d.sealed[n][i].id)
    ensures var j := d.sealed[n][i]; j.id in Recoverable(d) && Recoverable(d)[j.id] == j
  {
    var id := d.sealed[n][i].id;
    LastLineAt(d.sealed[n], i);
    forall k | k in d.sealed && k > n ensures LastLine(d.sealed[k], id) == None {
      NoLastLine(d.sealed[k], id);
    }
    SealedLastLine(d.sealed, n, id);
    NoLastLine(ActiveLines(d.active), id);
    LastLineConcat(SealedLines(d.sealed), ActiveLines(d.active), id);
    LastWriterWins(Log(d), Base(d.main), id);
  }

  /** Without a line anywhere, the checkpoint decides. */
  lemma {:induction false} CheckpointDecides(d: Disk, id: string)
    requires forall n :: n in d.sealed ==> NoLine(d.sealed[n], id)
    requires d.active.Some? ==> NoLine(d.active.value, id)
    ensures id in Recoverable(d) <==> d.main.Whole? && id in d.main.content
    ensures id in Recoverable(d) ==> Recoverable(d)[id] == d.main.content[id]
  {
    forall n | n in d.sealed ensures LastLine(d.sealed[n], id) == None {
      NoLastLine(d.sealed[n], id);
    }
    NoSealedLine(d.sealed, id);
    NoLastLine(ActiveLines(d.active), id);
    LastLineConcat(SealedLines(d.sealed), ActiveLines(d.active), id);
    LastWriterWins(Log(d), Base(d.main), id);
  }

  lemma ConcatLast<T>(a: seq<T>, b: seq<T>)
    requires b != []
    ensures a + b == a + b[..|b| - 1] + [b[|b| - 1]]
  {
  }

  lemma SameStore(a: Store, b: Store)
    requires forall id :: id in a <==> id in b
    requires forall id :: id in a && id in b ==> a[id] == b[id]
    ensures a == b
  {
  }

  /** Replaying a log over its own result changes nothing: a checkpoint of the replayed run may keep its log. */
  lemma ReplayIdempotent(lines: seq<Job>, m: Store)
    ensures Replay(lines, Replay(lines, m)) == Replay(lines, m)
  {
    forall id ensures id in Replay(lines, Replay(lines, m)) <==> id in Replay(lines, m) {
      LastWriterWins(lines, m, id);
      LastWriterWins(lines, Replay(lines, m), id);
    }
    forall id | id in Replay(lines, m) && id in Replay(lines, Replay(lines, m))
      ensures Replay(lines, Replay(lines, m))[id] == Replay(lines, m)[id]
    {
      LastWriterWins(lines, m, id);
      LastWriterWins(lines, Replay(lines, m), id);
    }
    SameStore(Replay(lines, Replay(lines, m)), Replay(lines, m));
  }

  /** Compaction: publishing the recovered run as the checkpoint, with or without its log, keeps what is recoverable. */
  lemma CompactionKeeps(d: Disk)
    ensures Recoverable(d.(main := Whole(Recoverable(d)))) == Recoverable(d)
    ensures Recoverable(d.(main := Whole(Recoverable(d)), sealed := map[], active := None)) == Recoverable(d)
  {
    ReplayIdempotent(Log(d), Base(d.main));
    assert SealedLines(map[]) + [] == [];
  }

  /** Lines already covered: each id's last line is what the run holds. */
  ghost predicate Covers(m: Store, lines: seq<Job>) {
    forall id :: LastLine(lines, id).Some? ==> id in m && m[id] == LastLine(lines, id).value
  }

  /** A log adds nothing to a run exactly when the run already holds its last lines. */
  lemma ReplayAddsNothingExactly(lines: seq<Job>, m: Store)
    ensures Replay(lines, m) == m <==> Covers(m, lines)
  {
    forall id ensures (id in Replay(lines, m) <==> id in m || LastLine(lines, id).Some?) {
      LastWriterWins(lines, m, id);
    }
    if Covers(m, lines) {
      forall id | id in m && id in Replay(lines, m) ensures Replay(lines, m)[id] == m[id] {
        LastWriterWins(lines, m, id);
      }
      SameStore(Replay(lines, m), m);
    } else {
      var id :| LastLine(lines, id).Some? && !(id in m && m[id] == LastLine(lines, id).value);
      LastWriterWins(lines, m, id);
    }
  }
}
