/** The spreadsheet comparison `Diff` of Case5/model.ts. Two sheets are matched column by
    column on their header names and row by row on the value in the `rowKey` column; the
    matches go into one dictionary, and every cell of both sheets is then labelled from it. */
module GridDiff {
  import opened Basics
  import opened Decimal

  // ---------------------------------------------------------------------------------------
  // Cells and sheets

  /** A cell as the sheet reader gives it. `Hole` is an element a sparse row leaves out
      (reading it gives `undefined`); `Obj` is any object value (rich text, a date, a formula
      result), told apart by its allocation. */
  datatype CellValue = Hole | Undefined | Null | Num(num: int) | Text(text: string) | Bool(flag: bool) | Obj(id: nat)

  type Row = seq<CellValue>

  /** `SheetContent`: the header row and the body rows. The body is dense: a blank sheet row,
      a hole in the source's array, is not modelled. */
  datatype SheetContent = SheetContent(head: Row, body: seq<Row>)

  /** Reading an element, or spreading a row with `[...row]`: a hole becomes `undefined`. */
  function Read(v: CellValue): (r: CellValue)
    ensures r != Hole && (v != Hole ==> r == v)
    ensures v == Hole ==> r == Undefined
  {
    if v == Hole then Undefined else v
  }

  /** `a === b` between the values of two sheets: objects of different sheets are never
      identical, every other value is compared by value. */
  predicate StrictEq(a: CellValue, b: CellValue) {
    a == b && !a.Obj?
  }

  /** `v == null`. */
  predicate Nullish(v: CellValue) {
    v == Hole || v == Undefined || v == Null
  }

  /** `row[idx]`: `undefined` outside the row, a negative index included. */
  function At(row: Row, idx: int): (v: CellValue)
    ensures v != Hole
  {
    if 0 <= idx < |row| then Read(row[idx]) else Undefined
  }

  /** An element `indexOf` stops at: `indexOf` skips holes. */
  predicate Matches(v: CellValue, x: CellValue) {
    v != Hole && StrictEq(v, x)
  }

  function IndexFrom(s: Row, x: CellValue, k: nat): (r: int)
    requires k <= |s|
    ensures r == -1 || k <= r < |s|
    decreases |s| - k
  {
    if k == |s| then -1
    else if Matches(s[k], x) then k
    else IndexFrom(s, x, k + 1)
  }

  lemma {:induction false} IndexFromFirst(s: Row, x: CellValue, k: nat)
    requires k <= |s|
    ensures var r := IndexFrom(s, x, k);
      && (r >= 0 ==> Matches(s[r], x) && forall i :: k <= i < r ==> !Matches(s[i], x))
      && (r == -1 <==> forall i :: k <= i < |s| ==> !Matches(s[i], x))
    decreases |s| - k
  {
    if k < |s| && !Matches(s[k], x) {
      IndexFromFirst(s, x, k + 1);
    }
  }

  /** `s.indexOf(x)`: the first position holding a value identical to `x`, or -1. */
  function IndexOf(s: Row, x: CellValue): (r: int)
    ensures -1 <= r < |s|
  {
    IndexFrom(s, x, 0)
  }

  /** `indexOf` finds the first element identical to `x`, and -1 exactly when there is none. */
  lemma IndexOfFirst(s: Row, x: CellValue)
    ensures var r := IndexOf(s, x);
      && (r >= 0 ==> Matches(s[r], x) && forall i :: 0 <= i < r ==> !Matches(s[i], x))
      && (r == -1 <==> forall i :: 0 <= i < |s| ==> !Matches(s[i], x))
  {
    IndexFromFirst(s, x, 0);
  }

  /** `head.findIndex((key) => key === rowKey)`: holes read as `undefined`, which no name is,
      so this is `indexOf` of the name. */
  function KeyColumn(head: Row, rowKey: string): (r: int)
    ensures -1 <= r < |head|
  {
    IndexOf(head, Text(rowKey))
  }

  /** `body.map((row) => row[keyIdx])`: the key of every row. */
  function Ids(body: seq<Row>, keyIdx: int): (r: Row)
  {
    seq(|body|, i requires 0 <= i < |body| => At(body[i], keyIdx))
  }

  // ---------------------------------------------------------------------------------------
  // The dictionary

  datatype Side = Origin | Target

  datatype Kind = Col | Row | ColMapping | RowMapping

  /** A key of `GridDiffDict`, such as `origin-col-mapping-3`. */
  datatype Key = Key(side: Side, kind: Kind, n: nat)

  /** `'delete'`, `'append'`, or a mapped index. */
  datatype DictValue = Delete | Append | Index(at: nat)

  type GridDiffDict = map<Key, DictValue>

  /** `dict[key]`: `undefined` when absent. */
  function Lookup(d: GridDiffDict, k: Key): Option<DictValue> {
    if k in d then Some(d[k]) else None
  }

  function SideName(s: Side): string {
    match s
    case Origin => "origin"
    case Target => "target"
  }

  function KindName(k: Kind): string {
    match k
    case Col => "col"
    case Row => "row"
    case ColMapping => "col-mapping"
    case RowMapping => "row-mapping"
  }

  /** The property name the source builds with a template literal. */
  function KeyString(k: Key): string {
    SideName(k.side) + "-" + KindName(k.kind) + "-" + NatToString(k.n)
  }

  function PrefixLength(k: Kind): nat {
    if k == Col || k == Row then 11 else 19
  }

  lemma KeyStringShape(k: Key)
    ensures var s := KeyString(k);
      && |s| > PrefixLength(k.kind)
      && s[0] == (if k.side == Origin then 'o' else 't')
      && s[7] == (if k.kind == Col || k.kind == ColMapping then 'c' else 'r')
      && (IsDigit(s[11]) <==> k.kind == Col || k.kind == Row)
      && s[PrefixLength(k.kind)..] == NatToString(k.n)
  {
    var p := SideName(k.side) + "-" + KindName(k.kind) + "-";
    assert |p| == PrefixLength(k.kind);
    assert KeyString(k) == p + NatToString(k.n);
  }

  /** Different keys have different property names, so a dictionary keyed by `Key` is the
      object the source builds. */
  lemma KeyStringInjective(a: Key, b: Key)
    requires KeyString(a) == KeyString(b)
    ensures a == b
  {
    KeyStringShape(a);
    KeyStringShape(b);
    NatToStringInjective(a.n, b.n);
  }

  /** The column part of the dictionary a column key falls into, and the row part. */
  predicate IsColKind(k: Kind) {
    k == Col || k == ColMapping
  }

  ghost predicate OnlyColKeys(d: GridDiffDict) {
    forall k :: k in d ==> IsColKind(k.kind)
  }

  ghost predicate OnlyRowKeys(d: GridDiffDict) {
    forall k :: k in d ==> !IsColKind(k.kind)
  }

  /** `{...colDiffDict, ...rowDiffDict}`: a key of the second wins. */
  function Merge(a: GridDiffDict, b: GridDiffDict): GridDiffDict {
    a + b
  }

  /** Column keys and row keys never meet, so the merge loses no entry of either part. */
  lemma MergeKeepsBoth(a: GridDiffDict, b: GridDiffDict)
    requires OnlyColKeys(a) && OnlyRowKeys(b)
    ensures forall k: Key :: IsColKind(k.kind) ==> Lookup(Merge(a, b), k) == Lookup(a, k)
    ensures forall k: Key :: !IsColKind(k.kind) ==> Lookup(Merge(a, b), k) == Lookup(b, k)
  {
  }

  /** The last position below `k` whose match is `j`: where the last write of a mapping
      entry came from. */
  function LastWriter(f: seq<int>, j: nat, k: nat): (r: Option<DictValue>)
    requires k <= |f|
    ensures r.None? <==> forall i :: 0 <= i < k ==> f[i] != j
    ensures r.Some? ==> r.value.Index? && r.value.at < k && f[r.value.at] == j &&
                        forall i :: r.value.at < i < k ==> f[i] != j
  {
    if k == 0 then None
    else if f[k - 1] == j then Some(Index(k - 1))
    else LastWriter(f, j, k - 1)
  }

  // ---------------------------------------------------------------------------------------
  // getColDiffDict

  /** For each target column, the first origin column of the same name, or -1. */
  function ColMatches(oh: Row, th: Row): (f: seq<int>)
  {
    seq(|th|, i requires 0 <= i < |th| => IndexOf(oh, Read(th[i])))
  }

  /** The entries for the target columns below `k`, as the first loop leaves them; `f` holds
      the first origin column of each target column's name. */
  ghost predicate TargetColsDone(f: seq<int>, d: GridDiffDict, k: nat)
    requires k <= |f|
  {
    && (forall n: nat {:trigger Lookup(d, Key(Target, Col, n))} :: Lookup(d, Key(Target, Col, n)) == (if n < k && f[n] < 0 then Some(Append) else None))
    && (forall n: nat {:trigger Lookup(d, Key(Target, ColMapping, n))} :: Lookup(d, Key(Target, ColMapping, n)) == (if n < k && f[n] >= 0 then Some(Index(f[n])) else None))
    && (forall n: nat {:trigger Lookup(d, Key(Origin, ColMapping, n))} :: Lookup(d, Key(Origin, ColMapping, n)) == LastWriter(f, n, k))
  }

  /** The entries for the origin columns below `k`, as the second loop leaves them; `g` holds
      the first target column of each origin column's name. */
  ghost predicate OriginColsDone(g: seq<int>, d: GridDiffDict, k: nat)
    requires k <= |g|
  {
    forall n: nat {:trigger Lookup(d, Key(Origin, Col, n))} :: Lookup(d, Key(Origin, Col, n)) == (if n < k && g[n] < 0 then Some(Delete) else None)
  }

  /** What `getColDiffDict` promises: a target column without an origin column of its name is
      `append`; one with is mapped to the first such origin column, and that origin column back
      to the last target column naming it; an origin column without a target column of its
      name is `delete`. There is nothing else. */
  ghost predicate ColDictSpec(origin: SheetContent, target: SheetContent, d: GridDiffDict) {
    && TargetColsDone(ColMatches(origin.head, target.head), d, |target.head|)
    && OriginColsDone(ColMatches(target.head, origin.head), d, |origin.head|)
  }

  /** What the first loop of `getColDiffDict` writes for target column `i`, whose name is
      first found at origin column `j` (or nowhere, `-1`). */
  function TargetColUpdate(d: GridDiffDict, i: nat, j: int): GridDiffDict {
    if j < 0 then d[Key(Target, Col, i) := Append]
    else d[Key(Target, ColMapping, i) := Index(j)][Key(Origin, ColMapping, j) := Index(i)]
  }

  /** What the second loop writes for origin column `k`, whose name is first found at target
      column `j` (or nowhere, `-1`). */
  function OriginColUpdate(d: GridDiffDict, k: nat, j: int): GridDiffDict {
    if j < 0 then d[Key(Origin, Col, k) := Delete] else d
  }

  /** One step of the first loop of `getColDiffDict`. */
  lemma TargetColStep(f: seq<int>, g: seq<int>, d: GridDiffDict, i: nat)
    requires i < |f| && TargetColsDone(f, d, i) && OriginColsDone(g, d, 0) && OnlyColKeys(d)
    ensures var d' := TargetColUpdate(d, i, f[i]);
      TargetColsDone(f, d', i + 1) && OriginColsDone(g, d', 0) && OnlyColKeys(d')
  {
    var d' := TargetColUpdate(d, i, f[i]);
    forall n: nat ensures Lookup(d', Key(Origin, ColMapping, n)) == LastWriter(f, n, i + 1) {
      if f[i] >= 0 && n == f[i] {
        assert Lookup(d', Key(Origin, ColMapping, n)) == Some(Index(i));
      } else {
        assert Lookup(d', Key(Origin, ColMapping, n)) == Lookup(d, Key(Origin, ColMapping, n));
      }
    }
    forall n: nat ensures Lookup(d', Key(Target, Col, n)) == (if n < i + 1 && f[n] < 0 then Some(Append) else None) {
      assert Lookup(d', Key(Target, Col, n)) == if n == i && f[i] < 0 then Some(Append) else Lookup(d, Key(Target, Col, n));
    }
    forall n: nat ensures Lookup(d', Key(Target, ColMapping, n)) == (if n < i + 1 && f[n] >= 0 then Some(Index(f[n])) else None) {
      assert Lookup(d', Key(Target, ColMapping, n)) == if n == i && f[i] >= 0 then Some(Index(f[i])) else Lookup(d, Key(Target, ColMapping, n));
    }
    forall n: nat ensures Lookup(d', Key(Origin, Col, n)) == Lookup(d, Key(Origin, Col, n)) {
    }
  }

  /** One step of the second loop of `getColDiffDict`. */
  lemma OriginColStep(f: seq<int>, g: seq<int>, d: GridDiffDict, k: nat)
    requires k < |g| && TargetColsDone(f, d, |f|) && OriginColsDone(g, d, k) && OnlyColKeys(d)
    ensures var d' := OriginColUpdate(d, k, g[k]);
      TargetColsDone(f, d', |f|) && OriginColsDone(g, d', k + 1) && OnlyColKeys(d')
  {
    var d' := OriginColUpdate(d, k, g[k]);
    forall n: nat ensures Lookup(d', Key(Origin, Col, n)) == (if n < k + 1 && g[n] < 0 then Some(Delete) else None) {
      assert Lookup(d', Key(Origin, Col, n)) == if n == k && g[k] < 0 then Some(Delete) else Lookup(d, Key(Origin, Col, n));
    }
    forall n: nat ensures Lookup(d', Key(Target, Col, n)) == Lookup(d, Key(Target, Col, n))
                  && Lookup(d', Key(Target, ColMapping, n)) == Lookup(d, Key(Target, ColMapping, n))
                  && Lookup(d', Key(Origin, ColMapping, n)) == Lookup(d, Key(Origin, ColMapping, n)) {
    }
  }

  lemma ColStart(f: seq<int>, g: seq<int>)
    ensures TargetColsDone(f, map[], 0) && OriginColsDone(g, map[], 0) && OnlyColKeys(map[])
  {
  }

  /** The dictionary after the first loop of `getColDiffDict` has seen the target columns below
      `i`, where `f` holds the first origin column of each target column's name. */
  function TargetColsFold(f: seq<int>, i: nat): GridDiffDict
    requires i <= |f|
  {
    if i == 0 then map[] else TargetColUpdate(TargetColsFold(f, i - 1), i - 1, f[i - 1])
  }

  /** ... and after the second loop has also seen the origin columns below `k`, where `g` holds
      the first target column of each origin column's name. */
  function OriginColsFold(f: seq<int>, g: seq<int>, k: nat): GridDiffDict
    requires k <= |g|
  {
    if k == 0 then TargetColsFold(f, |f|) else OriginColUpdate(OriginColsFold(f, g, k - 1), k - 1, g[k - 1])
  }

  lemma {:induction false} TargetColsFoldDone(f: seq<int>, g: seq<int>, i: nat)
    requires i <= |f|
    ensures var d := TargetColsFold(f, i);
      TargetColsDone(f, d, i) && OriginColsDone(g, d, 0) && OnlyColKeys(d)
    decreases i
  {
    if i == 0 {
      ColStart(f, g);
    } else {
      TargetColsFoldDone(f, g, i - 1);
      TargetColStep(f, g, TargetColsFold(f, i - 1), i - 1);
    }
  }

  lemma {:induction false} OriginColsFoldDone(f: seq<int>, g: seq<int>, k: nat)
    requires k <= |g|
    ensures var d := OriginColsFold(f, g, k);
      TargetColsDone(f, d, |f|) && OriginColsDone(g, d, k) && OnlyColKeys(d)
    decreases k
  {
    if k == 0 {
      TargetColsFoldDone(f, g, |f|);
    } else {
      OriginColsFoldDone(f, g, k - 1);
      OriginColStep(f, g, OriginColsFold(f, g, k - 1), k - 1);
    }
  }

  /** The dictionary `getColDiffDict` builds. */
  function ColDict(origin: SheetContent, target: SheetContent): GridDiffDict {
    OriginColsFold(ColMatches(origin.head, target.head), ColMatches(target.head, origin.head), |origin.head|)
  }

  /** The column dictionary keeps the promise of `ColDictSpec` and holds column keys only. */
  lemma ColDictMeetsSpec(origin: SheetContent, target: SheetContent)
    ensures ColDictSpec(origin, target, ColDict(origin, target)) && OnlyColKeys(ColDict(origin, target))
  {
    OriginColsFoldDone(ColMatches(origin.head, target.head), ColMatches(target.head, origin.head), |origin.head|);
  }

  /** The two loops of `getColDiffDict`. */
  method GetColDiffDict(origin: SheetContent, target: SheetContent) returns (d: GridDiffDict)
    ensures d == ColDict(origin, target)
  {
    var oh, th := origin.head, target.head;
    ghost var f, g := ColMatches(oh, th), ColMatches(th, oh);
    d := map[];
    var i := 0;
    while i < |th|
      invariant 0 <= i <= |th| && d == TargetColsFold(f, i)
      decreases |th| - i
    {
      var j := IndexOf(oh, Read(th[i]));
      assert j == f[i];
      if j == -1 {
        d := d[Key(Target, Col, i) := Append];
      } else {
        d := d[Key(Target, ColMapping, i) := Index(j)][Key(Origin, ColMapping, j) := Index(i)];
      }
      i := i + 1;
    }
    var k := 0;
    while k < |oh|
      invariant 0 <= k <= |oh| && d == OriginColsFold(f, g, k)
      decreases |oh| - k
    {
      assert IndexOf(th, Read(oh[k])) == g[k];
      if IndexOf(th, Read(oh[k])) == -1 {
        d := d[Key(Origin, Col, k) := Delete];
      }
      k := k + 1;
    }
  }

  // ---------------------------------------------------------------------------------------
  // getRowDiffDict

  /** The key of origin row `r` and of target row `r`. */
  function OriginKey(origin: SheetContent, rowKey: string, r: nat): CellValue
    requires r < |origin.body|
  {
    At(origin.body[r], KeyColumn(origin.head, rowKey))
  }

  function TargetKey(target: SheetContent, rowKey: string, r: nat): CellValue
    requires r < |target.body|
  {
    At(target.body[r], KeyColumn(target.head, rowKey))
  }

  /** For each origin row, the first target row with an identical key, or -1. */
  function RowMatches(origin: SheetContent, target: SheetContent, rowKey: string): (f: seq<int>)
  {
    var targetIds := Ids(target.body, KeyColumn(target.head, rowKey));
    seq(|origin.body|, r requires 0 <= r < |origin.body| => IndexOf(targetIds, OriginKey(origin, rowKey, r)))
  }

  /** For each target row, the first origin row with an identical key, or -1. */
  function BackMatches(origin: SheetContent, target: SheetContent, rowKey: string): (f: seq<int>)
  {
    var originIds := Ids(origin.body, KeyColumn(origin.head, rowKey));
    seq(|target.body|, r requires 0 <= r < |target.body| => IndexOf(originIds, TargetKey(target, rowKey, r)))
  }

  ghost predicate OriginRowsDone(f: seq<int>, d: GridDiffDict, k: nat)
    requires k <= |f|
  {
    && (forall n: nat {:trigger Lookup(d, Key(Origin, Row, n))} :: Lookup(d, Key(Origin, Row, n)) == (if n < k && f[n] < 0 then Some(Delete) else None))
    && (forall n: nat {:trigger Lookup(d, Key(Origin, RowMapping, n))} :: Lookup(d, Key(Origin, RowMapping, n)) == (if n < k && f[n] >= 0 then Some(Index(f[n])) else None))
    && (forall n: nat {:trigger Lookup(d, Key(Target, RowMapping, n))} :: Lookup(d, Key(Target, RowMapping, n)) == LastWriter(f, n, k))
  }

  ghost predicate TargetRowsDone(g: seq<int>, d: GridDiffDict, k: nat)
    requires k <= |g|
  {
    forall n: nat {:trigger Lookup(d, Key(Target, Row, n))} :: Lookup(d, Key(Target, Row, n)) == (if n < k && g[n] < 0 then Some(Append) else None)
  }

  /** What `getRowDiffDict` promises: an origin row whose key no target row has is `delete`;
      otherwise it is mapped to the first target row with its key, and that target row back to
      the last origin row mapped to it; a target row whose key no origin row has is `append`.
      There is nothing else. */
  ghost predicate RowDictSpec(origin: SheetContent, target: SheetContent, rowKey: string, d: GridDiffDict) {
    && OriginRowsDone(RowMatches(origin, target, rowKey), d, |origin.body|)
    && TargetRowsDone(BackMatches(origin, target, rowKey), d, |target.body|)
  }

  /** One step of the first loop of `getRowDiffDict`. */
  lemma OriginRowStep(f: seq<int>, g: seq<int>, d: GridDiffDict, r: nat, d': GridDiffDict)
    requires r < |f| && OriginRowsDone(f, d, r) && TargetRowsDone(g, d, 0) && OnlyRowKeys(d)
    requires d' == if f[r] < 0 then d[Key(Origin, Row, r) := Delete] else d[Key(Target, RowMapping, f[r]) := Index(r)][Key(Origin, RowMapping, r) := Index(f[r])]
    ensures OriginRowsDone(f, d', r + 1) && TargetRowsDone(g, d', 0) && OnlyRowKeys(d')
  {
    forall n: nat ensures Lookup(d', Key(Target, RowMapping, n)) == LastWriter(f, n, r + 1) {
      if f[r] >= 0 && n == f[r] {
        assert Lookup(d', Key(Target, RowMapping, n)) == Some(Index(r));
      } else {
        assert Lookup(d', Key(Target, RowMapping, n)) == Lookup(d, Key(Target, RowMapping, n));
      }
    }
    forall n: nat ensures Lookup(d', Key(Origin, Row, n)) == (if n < r + 1 && f[n] < 0 then Some(Delete) else None) {
      assert Lookup(d', Key(Origin, Row, n)) == if n == r && f[r] < 0 then Some(Delete) else Lookup(d, Key(Origin, Row, n));
    }
    forall n: nat ensures Lookup(d', Key(Origin, RowMapping, n)) == (if n < r + 1 && f[n] >= 0 then Some(Index(f[n])) else None) {
      assert Lookup(d', Key(Origin, RowMapping, n)) == if n == r && f[r] >= 0 then Some(Index(f[r])) else Lookup(d, Key(Origin, RowMapping, n));
    }
    forall n: nat ensures Lookup(d', Key(Target, Row, n)) == Lookup(d, Key(Target, Row, n)) {
    }
  }

  /** One step of the second loop of `getRowDiffDict`. */
  lemma TargetRowStep(f: seq<int>, g: seq<int>, d: GridDiffDict, t: nat, d': GridDiffDict)
    requires t < |g| && OriginRowsDone(f, d, |f|) && TargetRowsDone(g, d, t) && OnlyRowKeys(d)
    requires d' == if g[t] < 0 then d[Key(Target, Row, t) := Append] else d
    ensures OriginRowsDone(f, d', |f|) && TargetRowsDone(g, d', t + 1) && OnlyRowKeys(d')
  {
    forall n: nat ensures Lookup(d', Key(Target, Row, n)) == (if n < t + 1 && g[n] < 0 then Some(Append) else None) {
      assert Lookup(d', Key(Target, Row, n)) == if n == t && g[t] < 0 then Some(Append) else Lookup(d, Key(Target, Row, n));
    }
    forall n: nat ensures Lookup(d', Key(Origin, Row, n)) == Lookup(d, Key(Origin, Row, n))
                  && Lookup(d', Key(Origin, RowMapping, n)) == Lookup(d, Key(Origin, RowMapping, n))
                  && Lookup(d', Key(Target, RowMapping, n)) == Lookup(d, Key(Target, RowMapping, n)) {
    }
  }

  lemma RowStart(f: seq<int>, g: seq<int>)
    ensures OriginRowsDone(f, map[], 0) && TargetRowsDone(g, map[], 0) && OnlyRowKeys(map[])
  {
  }

  /** The first `forEach` of `getRowDiffDict`, over the origin rows. */
  method OriginRowEntries(origin: SheetContent, target: SheetContent, rowKey: string) returns (d: GridDiffDict)
    ensures OriginRowsDone(RowMatches(origin, target, rowKey), d, |origin.body|)
    ensures TargetRowsDone(BackMatches(origin, target, rowKey), d, 0) && OnlyRowKeys(d)
  {
    var targetIds := Ids(target.body, KeyColumn(target.head, rowKey));
    d := map[];
    RowStart(RowMatches(origin, target, rowKey), BackMatches(origin, target, rowKey));
    var r := 0;
    while r < |origin.body|
      invariant 0 <= r <= |origin.body|
      invariant OriginRowsUpTo(origin, target, rowKey, d, r)
      decreases |origin.body| - r
    {
      d := OriginRowEntry(origin, target, rowKey, targetIds, r, d);
      r := r + 1;
    }
  }

  /** The invariant of the first `forEach` after `r` origin rows. */
  ghost predicate OriginRowsUpTo(origin: SheetContent, target: SheetContent, rowKey: string, d: GridDiffDict, r: nat) {
    && r <= |origin.body|
    && OriginRowsDone(RowMatches(origin, target, rowKey), d, r)
    && TargetRowsDone(BackMatches(origin, target, rowKey), d, 0) && OnlyRowKeys(d)
  }

  /** One origin row of the first `forEach`: `delete`, or the mappings both ways. */
  method OriginRowEntry(origin: SheetContent, target: SheetContent, rowKey: string, targetIds: Row, r: nat, d0: GridDiffDict)
    returns (d: GridDiffDict)
    requires r < |origin.body| && targetIds == Ids(target.body, KeyColumn(target.head, rowKey))
    requires OriginRowsUpTo(origin, target, rowKey, d0, r)
    ensures OriginRowsUpTo(origin, target, rowKey, d, r + 1)
  {
    var m := IndexOf(targetIds, At(origin.body[r], KeyColumn(origin.head, rowKey)));
    RowMatchAt(origin, target, rowKey, r);
    if m == -1 {
      d := d0[Key(Origin, Row, r) := Delete];
    } else {
      d := d0[Key(Target, RowMapping, m) := Index(r)][Key(Origin, RowMapping, r) := Index(m)];
    }
    OriginRowStep(RowMatches(origin, target, rowKey), BackMatches(origin, target, rowKey), d0, r, d);
  }

  lemma RowMatchAt(origin: SheetContent, target: SheetContent, rowKey: string, r: nat)
    requires r < |origin.body|
    ensures RowMatches(origin, target, rowKey)[r] ==
              IndexOf(Ids(target.body, KeyColumn(target.head, rowKey)), At(origin.body[r], KeyColumn(origin.head, rowKey)))
  {
  }

  /** The second `forEach` of `getRowDiffDict`, over the target rows. */
  method TargetRowEntries(origin: SheetContent, target: SheetContent, rowKey: string, d0: GridDiffDict) returns (d: GridDiffDict)
    requires OriginRowsDone(RowMatches(origin, target, rowKey), d0, |origin.body|)
    requires TargetRowsDone(BackMatches(origin, target, rowKey), d0, 0) && OnlyRowKeys(d0)
    ensures RowDictSpec(origin, target, rowKey, d) && OnlyRowKeys(d)
  {
    var originRowKeyIndex := KeyColumn(origin.head, rowKey);
    var targetRowKeyIndex := KeyColumn(target.head, rowKey);
    ghost var f := RowMatches(origin, target, rowKey);
    ghost var g := BackMatches(origin, target, rowKey);
    d := d0;
    var originIds := Ids(origin.body, originRowKeyIndex);
    var t := 0;
    while t < |target.body|
      invariant 0 <= t <= |target.body|
      invariant OriginRowsDone(f, d, |origin.body|) && TargetRowsDone(g, d, t) && OnlyRowKeys(d)
    {
      var m := IndexOf(originIds, At(target.body[t], targetRowKeyIndex));
      assert g[t] == m;
      ghost var d1 := d;
      if m == -1 {
        d := d[Key(Target, Row, t) := Append];
      }
      TargetRowStep(f, g, d1, t, d);
      t := t + 1;
    }
  }

  method GetRowDiffDict(origin: SheetContent, target: SheetContent, rowKey: string) returns (d: GridDiffDict)
    ensures RowDictSpec(origin, target, rowKey, d)
    ensures OnlyRowKeys(d)
  {
    d := OriginRowEntries(origin, target, rowKey);
    d := TargetRowEntries(origin, target, rowKey, d);
  }


  // ---------------------------------------------------------------------------------------
  // The mapping lookups

  /** The errors `getMappingRow` and `getMappingCell` throw. */
  datatype MappingError =
    | RowMappingMissing(key: string)   // no `…-row-mapping-i` entry
    | RowNotFound(at: DictValue)       // the mapped row does not exist
    | ColMappingMissing(key: string)   // no `…-col-mapping-j` entry
    | CellNotFound(at: DictValue)      // the mapped cell is `null` or `undefined`

  /** `getMappingRow`: the row of the other sheet that row `rowIdx` is mapped to. */
  function GetMappingRow(side: Side, d: GridDiffDict, compareBody: seq<Row>, rowIdx: nat): (r: Result<Row, MappingError>)
    ensures Lookup(d, Key(side, RowMapping, rowIdx)).None? <==> r == Err(RowMappingMissing(KeyString(Key(side, RowMapping, rowIdx))))
    ensures r.Ok? <==> exists m: nat :: m < |compareBody| && Lookup(d, Key(side, RowMapping, rowIdx)) == Some(Index(m))
    ensures r.Ok? ==> r.value == compareBody[d[Key(side, RowMapping, rowIdx)].at]
  {
    var k := Key(side, RowMapping, rowIdx);
    match Lookup(d, k)
    case None => Err(RowMappingMissing(KeyString(k)))
    case Some(v) =>
      if v.Index? && v.at < |compareBody| then Ok(compareBody[v.at]) else Err(RowNotFound(v))
  }

  /** `getMappingCell`: the cell of `row` in the column that column `colIdx` is mapped to,
      which must be neither `null` nor `undefined`. */
  function GetMappingCell(side: Side, d: GridDiffDict, row: Row, colIdx: nat): (r: Result<CellValue, MappingError>)
    ensures Lookup(d, Key(side, ColMapping, colIdx)).None? <==> r == Err(ColMappingMissing(KeyString(Key(side, ColMapping, colIdx))))
    ensures r.Ok? <==> exists c: nat :: Lookup(d, Key(side, ColMapping, colIdx)) == Some(Index(c)) && c < |row| && !Nullish(row[c])
    ensures r.Ok? ==> r.value == row[d[Key(side, ColMapping, colIdx)].at] && !Nullish(r.value)
  {
    var k := Key(side, ColMapping, colIdx);
    match Lookup(d, k)
    case None => Err(ColMappingMissing(KeyString(k)))
    case Some(v) =>
      var cell := if v.Index? then At(row, v.at) else Undefined;
      if Nullish(cell) then Err(CellNotFound(v)) else Ok(cell)
  }

  /** The cell a body cell is compared with: its mapped row, then its mapped cell. */
  function MappedCell(side: Side, d: GridDiffDict, compareBody: seq<Row>, rowIdx: nat, colIdx: nat): Result<CellValue, MappingError> {
    match GetMappingRow(side, d, compareBody, rowIdx)
    case Err(e) => Err(e)
    case Ok(row) => GetMappingCell(side, d, row, colIdx)
  }

  // ---------------------------------------------------------------------------------------
  // createViewData

  datatype CellType = HeadCell | BodyCell

  /** `'target_append' | 'origin_delete' | 'unchanged' | 'diff'`. */
  datatype DiffType = TargetAppend | OriginDelete | Unchanged | Differs

  /** `DiffCellData`; `Gap` is a hole that `row.map` keeps in a deleted or appended row. */
  datatype ViewCell = Gap | Cell(cellType: CellType, diffType: DiffType, value: CellValue)

  type View = seq<seq<ViewCell>>

  /** The mark of a whole column or row of this side: `delete` in the origin, `append` in the target. */
  function Mark(side: Side): DictValue {
    if side == Origin then Delete else Append
  }

  function ChangeLabel(side: Side): DiffType {
    if side == Origin then OriginDelete else TargetAppend
  }

  predicate ColChanged(side: Side, d: GridDiffDict, colIdx: nat) {
    Lookup(d, Key(side, Col, colIdx)) == Some(Mark(side))
  }

  predicate RowChanged(side: Side, d: GridDiffDict, rowIdx: nat) {
    Lookup(d, Key(side, Row, rowIdx)) == Some(Mark(side))
  }

  function Own(side: Side, origin: SheetContent, target: SheetContent): SheetContent {
    if side == Origin then origin else target
  }

  function Other(side: Side, origin: SheetContent, target: SheetContent): SheetContent {
    if side == Origin then target else origin
  }

  /** The header cell of column `i`. */
  function HeadCellOf(side: Side, d: GridDiffDict, head: Row, i: nat): ViewCell
    requires i < |head|
  {
    Cell(HeadCell, if ColChanged(side, d, i) then ChangeLabel(side) else Unchanged, Read(head[i]))
  }

  /** The cells of a deleted or appended row: `row.map` keeps its holes. */
  function ChangedRow(side: Side, row: Row): (v: seq<ViewCell>)
  {
    seq(|row|, i requires 0 <= i < |row| => if row[i] == Hole then Gap else Cell(BodyCell, ChangeLabel(side), row[i]))
  }

  /** Every cell of a kept row that the comparison reaches finds its mapped cell. */
  ghost predicate RowMaps(side: Side, d: GridDiffDict, row: Row, rowIdx: nat, compareBody: seq<Row>) {
    forall c :: 0 <= c < |row| && !ColChanged(side, d, c) ==> MappedCell(side, d, compareBody, rowIdx, c).Ok?
  }

  /** The cells of a kept row: a deleted or appended column is labelled as such, any other
      cell `unchanged` when identical to its mapped cell and `diff` when not. */
  ghost predicate KeptRow(side: Side, d: GridDiffDict, row: Row, rowIdx: nat, compareBody: seq<Row>, v: seq<ViewCell>) {
    && |v| == |row|
    && forall c :: 0 <= c < |row| ==> v[c] == KeptCell(side, d, row, rowIdx, compareBody, c)
  }

  /** Cell `c` of a kept row. */
  function KeptCell(side: Side, d: GridDiffDict, row: Row, rowIdx: nat, compareBody: seq<Row>, c: nat): ViewCell
    requires c < |row|
  {
    if ColChanged(side, d, c) then Cell(BodyCell, ChangeLabel(side), Read(row[c]))
    else Cell(BodyCell, if MappedCell(side, d, compareBody, rowIdx, c).Ok? && StrictEq(Read(row[c]), MappedCell(side, d, compareBody, rowIdx, c).value)
                        then Unchanged else Differs, Read(row[c]))
  }

  /** The first body cell whose comparison throws. */
  ghost predicate FailsFirstAt(side: Side, d: GridDiffDict, row: Row, rowIdx: nat, compareBody: seq<Row>, c: nat, e: MappingError) {
    && c < |row| && !ColChanged(side, d, c) && MappedCell(side, d, compareBody, rowIdx, c) == Err(e)
    && forall c' :: 0 <= c' < c && !ColChanged(side, d, c') ==> MappedCell(side, d, compareBody, rowIdx, c').Ok?
  }

  method HeadView(side: Side, d: GridDiffDict, head: Row) returns (v: seq<ViewCell>)
    ensures |v| == |head| && forall i :: 0 <= i < |head| ==> v[i] == HeadCellOf(side, d, head, i)
  {
    v := [];
    var i := 0;
    while i < |head|
      invariant 0 <= i <= |head|
      invariant |v| == i && forall k :: 0 <= k < i ==> v[k] == HeadCellOf(side, d, head, k)
    {
      var diffType := if ColChanged(side, d, i) then ChangeLabel(side) else Unchanged;
      v := v + [Cell(HeadCell, diffType, Read(head[i]))];
      i := i + 1;
    }
  }

  /** The inner `forEach` of a kept row. */
  method KeptRowView(side: Side, d: GridDiffDict, row: Row, rowIdx: nat, compareBody: seq<Row>) returns (r: Result<seq<ViewCell>, MappingError>)
    ensures r.Ok? <==> RowMaps(side, d, row, rowIdx, compareBody)
    ensures r.Ok? ==> KeptRow(side, d, row, rowIdx, compareBody, r.value)
    ensures r.Err? ==> exists c :: FailsFirstAt(side, d, row, rowIdx, compareBody, c, r.error)
  {
    var v: seq<ViewCell> := [];
    var c := 0;
    while c < |row|
      invariant 0 <= c <= |row|
      invariant forall k :: 0 <= k < c && !ColChanged(side, d, k) ==> MappedCell(side, d, compareBody, rowIdx, k).Ok?
      invariant KeptRow(side, d, row[..c], rowIdx, compareBody, v)
      decreases |row| - c
    {
      var cell := KeptCellView(side, d, row, rowIdx, compareBody, c);
      if cell.Err? {
        assert FailsFirstAt(side, d, row, rowIdx, compareBody, c, cell.error);
        return Err(cell.error);
      }
      v := v + [cell.value];
      c := c + 1;
    }
    assert row[..c] == row;
    return Ok(v);
  }

  /** One pass of the inner `forEach`: the cell's label, or the error its lookup throws. */
  method KeptCellView(side: Side, d: GridDiffDict, row: Row, rowIdx: nat, compareBody: seq<Row>, c: nat)
    returns (r: Result<ViewCell, MappingError>)
    requires c < |row|
    ensures r.Ok? <==> ColChanged(side, d, c) || MappedCell(side, d, compareBody, rowIdx, c).Ok?
    ensures r.Ok? ==> r.value == KeptCell(side, d, row, rowIdx, compareBody, c)
    ensures r.Err? ==> !ColChanged(side, d, c) && MappedCell(side, d, compareBody, rowIdx, c) == Err(r.error)
  {
    var cellValue := Read(row[c]);
    if ColChanged(side, d, c) {
      return Ok(Cell(BodyCell, ChangeLabel(side), cellValue));
    }
    var targetRow := GetMappingRow(side, d, compareBody, rowIdx);
    if targetRow.Err? {
      return Err(targetRow.error);
    }
    var targetCellValue := GetMappingCell(side, d, targetRow.value, c);
    if targetCellValue.Err? {
      return Err(targetCellValue.error);
    }
    return Ok(Cell(BodyCell, if StrictEq(cellValue, targetCellValue.value) then Unchanged else Differs, cellValue));
  }

  /** Every kept row of this side's body below `k` finds all its mapped cells. */
  ghost predicate BodyMaps(side: Side, d: GridDiffDict, body: seq<Row>, compareBody: seq<Row>, k: nat)
    requires k <= |body|
  {
    forall ri :: 0 <= ri < k && !RowChanged(side, d, ri) ==> RowMaps(side, d, body[ri], ri, compareBody)
  }

  /** The body rows of a view below `k`, after its header row. */
  ghost predicate BodyRowsOf(side: Side, d: GridDiffDict, body: seq<Row>, compareBody: seq<Row>, v: View, k: nat)
    requires k <= |body| && |v| == 1 + k
  {
    forall ri :: 0 <= ri < k ==>
      if RowChanged(side, d, ri) then v[1 + ri] == ChangedRow(side, body[ri])
      else KeptRow(side, d, body[ri], ri, compareBody, v[1 + ri])
  }

  /** What `createViewData` promises of the view of one side: a header row of `head` cells,
      then one row per body row with one cell per cell of that row, each carrying its value. */
  ghost predicate ViewOf(side: Side, d: GridDiffDict, origin: SheetContent, target: SheetContent, v: View) {
    var own := Own(side, origin, target);
    && |v| == 1 + |own.body|
    && |v[0]| == |own.head| && (forall i :: 0 <= i < |own.head| ==> v[0][i] == HeadCellOf(side, d, own.head, i))
    && BodyRowsOf(side, d, own.body, Other(side, origin, target).body, v, |own.body|)
  }

  /** Every kept cell of every kept row of one side finds its mapped cell. */
  ghost predicate ViewMaps(side: Side, d: GridDiffDict, origin: SheetContent, target: SheetContent) {
    var body := Own(side, origin, target).body;
    BodyMaps(side, d, body, Other(side, origin, target).body, |body|)
  }

  /** `e` is the error of the first kept cell, in the first kept row, whose lookup throws. */
  ghost predicate FailsFirst(side: Side, d: GridDiffDict, origin: SheetContent, target: SheetContent, e: MappingError) {
    var body := Own(side, origin, target).body;
    var compareBody := Other(side, origin, target).body;
    exists ri, c :: 0 <= ri < |body| && !RowChanged(side, d, ri) && BodyMaps(side, d, body, compareBody, ri)
                    && FailsFirstAt(side, d, body[ri], ri, compareBody, c, e)
  }

  /** `createViewData`: it throws exactly when a kept cell of a kept row finds no mapped cell,
      and then with the error of the first such cell of the first such row. */
  method CreateViewData(side: Side, d: GridDiffDict, origin: SheetContent, target: SheetContent) returns (r: Result<View, MappingError>)
    ensures r.Ok? <==> ViewMaps(side, d, origin, target)
    ensures r.Ok? ==> ViewOf(side, d, origin, target, r.value)
    ensures r.Err? ==> FailsFirst(side, d, origin, target, r.error)
  {
    var own := Own(side, origin, target);
    var compareBody := Other(side, origin, target).body;
    var headView := HeadView(side, d, own.head);
    var v: View := [headView];
    var ri := 0;
    while ri < |own.body|
      invariant 0 <= ri <= |own.body| && |v| == 1 + ri
      invariant v[0] == headView
      invariant BodyMaps(side, d, own.body, compareBody, ri)
      invariant BodyRowsOf(side, d, own.body, compareBody, v, ri)
    {
      var row := own.body[ri];
      if RowChanged(side, d, ri) {
        v := v + [ChangedRow(side, row)];
      } else {
        var rowView := KeptRowView(side, d, row, ri, compareBody);
        if rowView.Err? {
          return Err(rowView.error);
        }
        v := v + [rowView.value];
      }
      ri := ri + 1;
    }
    return Ok(v);
  }

  // ---------------------------------------------------------------------------------------
  // diff

  /** Only the first 100000 body rows of each sheet are compared. */
  const MaxRows: nat := 100000

  function Truncated(sheet: SheetContent): (r: SheetContent)
    ensures r.head == sheet.head && |r.body| == Min(|sheet.body|, MaxRows)
    ensures forall i :: 0 <= i < |r.body| ==> r.body[i] == sheet.body[i]
  {
    sheet.(body := sheet.body[..Min(|sheet.body|, MaxRows)])
  }

  /** The dictionary `diff` builds, as its two parts promise it. */
  ghost predicate GridDictSpec(origin: SheetContent, target: SheetContent, rowKey: string, d: GridDiffDict) {
    ColDictSpec(origin, target, d) && RowDictSpec(origin, target, rowKey, d)
  }

  lemma MergedSpec(origin: SheetContent, target: SheetContent, rowKey: string, a: GridDiffDict, b: GridDiffDict)
    requires ColDictSpec(origin, target, a) && OnlyColKeys(a)
    requires RowDictSpec(origin, target, rowKey, b) && OnlyRowKeys(b)
    ensures GridDictSpec(origin, target, rowKey, Merge(a, b))
  {
    MergeKeepsBoth(a, b);
  }

  /** What `diff` promises once its dictionary `d` is built: it succeeds exactly when both views
      find every mapped cell, with both views; otherwise it throws the origin view's first
      error, or, when the origin view is whole, the target view's. */
  ghost predicate DiffOutcome(origin: SheetContent, target: SheetContent, d: GridDiffDict,
                              r: Result<(View, View), MappingError>) {
    && (r.Ok? <==> ViewMaps(Origin, d, origin, target) && ViewMaps(Target, d, origin, target))
    && (r.Ok? ==> ViewOf(Origin, d, origin, target, r.value.0) && ViewOf(Target, d, origin, target, r.value.1))
    && (r.Err? && !ViewMaps(Origin, d, origin, target) ==> FailsFirst(Origin, d, origin, target, r.error))
    && (r.Err? && ViewMaps(Origin, d, origin, target) ==> FailsFirst(Target, d, origin, target, r.error))
  }

  /** `diff` after the sheets are read: both bodies are cut to `MaxRows` rows, the column and
      row dictionaries are merged, and the two views are built from the result. */
  method Diff(origin: SheetContent, target: SheetContent, rowKey: string) returns (r: Result<(View, View), MappingError>)
    ensures exists d ::
      && GridDictSpec(Truncated(origin), Truncated(target), rowKey, d)
      && DiffOutcome(Truncated(origin), Truncated(target), d, r)
    ensures r.Ok? ==> |r.value.0| == 1 + Min(|origin.body|, MaxRows) && |r.value.1| == 1 + Min(|target.body|, MaxRows)
  {
    var originContent := Truncated(origin);
    var targetContent := Truncated(target);
    var colDiffDict := GetColDiffDict(originContent, targetContent);
    var rowDiffDict := GetRowDiffDict(originContent, targetContent, rowKey);
    ColDictMeetsSpec(originContent, targetContent);
    var gridDiffDict := Merge(colDiffDict, rowDiffDict);
    MergedSpec(originContent, targetContent, rowKey, colDiffDict, rowDiffDict);
    var originViewData := CreateViewData(Origin, gridDiffDict, originContent, targetContent);
    if originViewData.Err? {
      r := Err(originViewData.error);
      assert DiffOutcome(originContent, targetContent, gridDiffDict, r);
      return;
    }
    var targetViewData := CreateViewData(Target, gridDiffDict, originContent, targetContent);
    if targetViewData.Err? {
      r := Err(targetViewData.error);
      assert DiffOutcome(originContent, targetContent, gridDiffDict, r);
      return;
    }
    r := Ok((originViewData.value, targetViewData.value));
    assert DiffOutcome(originContent, targetContent, gridDiffDict, r);
  }

  // ---------------------------------------------------------------------------------------
  // What the dictionary means

  /** Column labels and mappings in terms of the header names: an origin column is `delete`
      exactly when no target column has its name, a target column is `append` exactly when no
      origin column has its name, and a present target column is mapped to the first origin
      column of its name, which maps back to a target column of the same name. */
  lemma ColumnsByName(origin: SheetContent, target: SheetContent, d: GridDiffDict, i: nat, j: nat)
    requires ColDictSpec(origin, target, d)
    ensures var oh, th := origin.head, target.head;
      && (ColChanged(Origin, d, j) <==> j < |oh| && forall k :: 0 <= k < |th| ==> !Matches(th[k], Read(oh[j])))
      && (ColChanged(Target, d, i) <==> i < |th| && forall k :: 0 <= k < |oh| ==> !Matches(oh[k], Read(th[i])))
      && (Lookup(d, Key(Target, ColMapping, i)) == Some(Index(j)) <==>
            i < |th| && j < |oh| && Matches(oh[j], Read(th[i])) && forall k :: 0 <= k < j ==> !Matches(oh[k], Read(th[i])))
      && (Lookup(d, Key(Origin, ColMapping, j)) == Some(Index(i)) ==>
            i < |th| && Lookup(d, Key(Target, ColMapping, i)) == Some(Index(j)))
  {
    var oh, th := origin.head, target.head;
    if j < |oh| {
      IndexOfFirst(th, Read(oh[j]));
    }
    if i < |th| {
      IndexOfFirst(oh, Read(th[i]));
      var m := IndexOf(oh, Read(th[i]));
      assert j < |oh| && Matches(oh[j], Read(th[i])) && (forall k :: 0 <= k < j ==> !Matches(oh[k], Read(th[i]))) ==> m == j;
    }
    var f := ColMatches(oh, th);
    if Lookup(d, Key(Origin, ColMapping, j)) == Some(Index(i)) {
      assert f[i] == j;
    }
  }

  /** The key of origin row `r` is not identical to the key of any target row. */
  ghost predicate OriginKeyUnmatched(origin: SheetContent, target: SheetContent, rowKey: string, r: nat)
    requires r < |origin.body|
  {
    forall t :: 0 <= t < |target.body| ==> !StrictEq(TargetKey(target, rowKey, t), OriginKey(origin, rowKey, r))
  }

  ghost predicate TargetKeyUnmatched(origin: SheetContent, target: SheetContent, rowKey: string, t: nat)
    requires t < |target.body|
  {
    forall r :: 0 <= r < |origin.body| ==> !StrictEq(OriginKey(origin, rowKey, r), TargetKey(target, rowKey, t))
  }

  /** The key list of `getRowDiffDict` holds the rows' keys, and `indexOf` compares them by `===`. */
  lemma IdsAreKeys(sheet: SheetContent, rowKey: string)
    ensures forall t, x :: 0 <= t < |sheet.body| ==>
      && Ids(sheet.body, KeyColumn(sheet.head, rowKey))[t] == At(sheet.body[t], KeyColumn(sheet.head, rowKey))
      && (Matches(Ids(sheet.body, KeyColumn(sheet.head, rowKey))[t], x) <==> StrictEq(At(sheet.body[t], KeyColumn(sheet.head, rowKey)), x))
  {
    var keys := Ids(sheet.body, KeyColumn(sheet.head, rowKey));
    forall t, x | 0 <= t < |sheet.body|
      ensures keys[t] == At(sheet.body[t], KeyColumn(sheet.head, rowKey))
      ensures Matches(keys[t], x) <==> StrictEq(At(sheet.body[t], KeyColumn(sheet.head, rowKey)), x)
    {
      var v := At(sheet.body[t], KeyColumn(sheet.head, rowKey));
      assert keys[t] == v;
      assert v != Hole;
    }
  }

  /** An origin row is `delete` exactly when no target row has an identical key. */
  lemma OriginRowByKey(origin: SheetContent, target: SheetContent, rowKey: string, d: GridDiffDict, r: nat)
    requires RowDictSpec(origin, target, rowKey, d)
    ensures RowChanged(Origin, d, r) <==> r < |origin.body| && OriginKeyUnmatched(origin, target, rowKey, r)
  {
    var f := RowMatches(origin, target, rowKey);
    assert Lookup(d, Key(Origin, Row, r)) == (if r < |f| && f[r] < 0 then Some(Delete) else None);
    if r < |origin.body| {
      var targetIds := Ids(target.body, KeyColumn(target.head, rowKey));
      var x := OriginKey(origin, rowKey, r);
      IdsAreKeys(target, rowKey);
      IndexOfFirst(targetIds, x);
      assert f[r] == IndexOf(targetIds, x);
      forall i | 0 <= i < |targetIds| ensures Matches(targetIds[i], x) <==> StrictEq(TargetKey(target, rowKey, i), x) {
        assert targetIds[i] == TargetKey(target, rowKey, i);
      }
    }
  }

  /** A target row is `append` exactly when no origin row has an identical key. */
  lemma TargetRowByKey(origin: SheetContent, target: SheetContent, rowKey: string, d: GridDiffDict, t: nat)
    requires RowDictSpec(origin, target, rowKey, d)
    ensures RowChanged(Target, d, t) <==> t < |target.body| && TargetKeyUnmatched(origin, target, rowKey, t)
  {
    var g := BackMatches(origin, target, rowKey);
    assert Lookup(d, Key(Target, Row, t)) == (if t < |g| && g[t] < 0 then Some(Append) else None);
    if t < |target.body| {
      var originIds := Ids(origin.body, KeyColumn(origin.head, rowKey));
      var x := TargetKey(target, rowKey, t);
      IdsAreKeys(origin, rowKey);
      IndexOfFirst(originIds, x);
      assert g[t] == IndexOf(originIds, x);
      forall i | 0 <= i < |originIds| ensures Matches(originIds[i], x) <==> StrictEq(OriginKey(origin, rowKey, i), x) {
        assert originIds[i] == OriginKey(origin, rowKey, i);
      }
    }
  }

  /** A kept origin row is mapped to the first target row with an identical key. */
  lemma OriginMappingByKey(origin: SheetContent, target: SheetContent, rowKey: string, d: GridDiffDict, r: nat, t: nat)
    requires RowDictSpec(origin, target, rowKey, d)
    ensures Lookup(d, Key(Origin, RowMapping, r)) == Some(Index(t)) <==>
              && r < |origin.body| && t < |target.body|
              && StrictEq(TargetKey(target, rowKey, t), OriginKey(origin, rowKey, r))
              && forall k :: 0 <= k < t ==> !StrictEq(TargetKey(target, rowKey, k), OriginKey(origin, rowKey, r))
  {
    var f := RowMatches(origin, target, rowKey);
    assert Lookup(d, Key(Origin, RowMapping, r)) == (if r < |f| && f[r] >= 0 then Some(Index(f[r])) else None);
    if r < |origin.body| {
      var targetIds := Ids(target.body, KeyColumn(target.head, rowKey));
      var x := OriginKey(origin, rowKey, r);
      IdsAreKeys(target, rowKey);
      IndexOfFirst(targetIds, x);
      var m := f[r];
      assert m == IndexOf(targetIds, x);
      if t < |target.body| && StrictEq(TargetKey(target, rowKey, t), x) && forall k :: 0 <= k < t ==> !StrictEq(TargetKey(target, rowKey, k), x) {
        assert Matches(targetIds[t], x);
        assert m >= 0;
        assert !(t < m);
        assert targetIds[m] == TargetKey(target, rowKey, m);
        assert !(m < t);
      }
    }
  }

  /** A target row mapped back to an origin row is the one that origin row is mapped to. */
  lemma TargetMappingBack(origin: SheetContent, target: SheetContent, rowKey: string, d: GridDiffDict, r: nat, t: nat)
    requires RowDictSpec(origin, target, rowKey, d)
    requires Lookup(d, Key(Target, RowMapping, t)) == Some(Index(r))
    ensures r < |origin.body| && Lookup(d, Key(Origin, RowMapping, r)) == Some(Index(t))
  {
    var f := RowMatches(origin, target, rowKey);
    assert LastWriter(f, t, |origin.body|) == Some(Index(r));
    assert Lookup(d, Key(Origin, RowMapping, r)) == (if r < |f| && f[r] >= 0 then Some(Index(f[r])) else None);
  }

  /** Row labels and mappings in terms of the keys: an origin row is `delete` exactly when no
      target row has an identical key, a target row is `append` exactly when no origin row
      has one, and a kept origin row is mapped to the first target row with its key, which is
      mapped back to an origin row with that key. */
  lemma RowsByKey(origin: SheetContent, target: SheetContent, rowKey: string, d: GridDiffDict, r: nat, t: nat)
    requires RowDictSpec(origin, target, rowKey, d)
    ensures && (RowChanged(Origin, d, r) <==> r < |origin.body| && OriginKeyUnmatched(origin, target, rowKey, r))
            && (RowChanged(Target, d, t) <==> t < |target.body| && TargetKeyUnmatched(origin, target, rowKey, t))
            && (Lookup(d, Key(Origin, RowMapping, r)) == Some(Index(t)) <==>
                  && r < |origin.body| && t < |target.body|
                  && StrictEq(TargetKey(target, rowKey, t), OriginKey(origin, rowKey, r))
                  && forall k :: 0 <= k < t ==> !StrictEq(TargetKey(target, rowKey, k), OriginKey(origin, rowKey, r)))
            && (Lookup(d, Key(Target, RowMapping, t)) == Some(Index(r)) ==>
                  r < |origin.body| && Lookup(d, Key(Origin, RowMapping, r)) == Some(Index(t)))
  {
    OriginRowByKey(origin, target, rowKey, d, r);
    TargetRowByKey(origin, target, rowKey, d, t);
    OriginMappingByKey(origin, target, rowKey, d, r, t);
    if Lookup(d, Key(Target, RowMapping, t)) == Some(Index(r)) {
      TargetMappingBack(origin, target, rowKey, d, r, t);
    }
  }

  /** With keys that are unique among the origin rows, the two row mappings are inverse to
      each other. */
  lemma RowMappingsInverse(origin: SheetContent, target: SheetContent, rowKey: string, d: GridDiffDict, r: nat, t: nat)
    requires RowDictSpec(origin, target, rowKey, d)
    requires forall r1, r2 :: 0 <= r1 < r2 < |origin.body| ==> !StrictEq(OriginKey(origin, rowKey, r1), OriginKey(origin, rowKey, r2))
    requires Lookup(d, Key(Origin, RowMapping, r)) == Some(Index(t))
    ensures Lookup(d, Key(Target, RowMapping, t)) == Some(Index(r))
  {
    var f := RowMatches(origin, target, rowKey);
    var targetIds := Ids(target.body, KeyColumn(target.head, rowKey));
    IdsAreKeys(origin, rowKey);
    IdsAreKeys(target, rowKey);
    assert f[r] == t;
    var w := LastWriter(f, t, |origin.body|);
    var r' := w.value.at;
    IndexOfFirst(targetIds, OriginKey(origin, rowKey, r));
    IndexOfFirst(targetIds, OriginKey(origin, rowKey, r'));
    assert StrictEq(TargetKey(target, rowKey, t), OriginKey(origin, rowKey, r));
    assert StrictEq(TargetKey(target, rowKey, t), OriginKey(origin, rowKey, r'));
    assert OriginKey(origin, rowKey, r) == OriginKey(origin, rowKey, r');
    assert r' == r;
  }

  /** A target row whose key repeats an earlier target row's, and which some origin row also
      has, is neither appended nor mapped: comparing any of its cells in a kept column throws. */
  lemma RepeatedTargetKeyThrows(origin: SheetContent, target: SheetContent, rowKey: string, d: GridDiffDict, t1: nat, t2: nat, r: nat, c: nat)
    requires RowDictSpec(origin, target, rowKey, d)
    requires t1 < t2 < |target.body| && r < |origin.body|
    requires StrictEq(TargetKey(target, rowKey, t1), TargetKey(target, rowKey, t2))
    requires StrictEq(OriginKey(origin, rowKey, r), TargetKey(target, rowKey, t2))
    ensures !RowChanged(Target, d, t2)
    ensures MappedCell(Target, d, origin.body, t2, c) == Err(RowMappingMissing(KeyString(Key(Target, RowMapping, t2))))
  {
    var f := RowMatches(origin, target, rowKey);
    var targetIds := Ids(target.body, KeyColumn(target.head, rowKey));
    IdsAreKeys(origin, rowKey);
    IdsAreKeys(target, rowKey);
    RowsByKey(origin, target, rowKey, d, r, t2);
    forall k | 0 <= k < |origin.body| ensures f[k] != t2 {
      IndexOfFirst(targetIds, OriginKey(origin, rowKey, k));
      assert f[k] == IndexOf(targetIds, OriginKey(origin, rowKey, k));
      assert Matches(targetIds[t2], OriginKey(origin, rowKey, k)) ==> Matches(targetIds[t1], OriginKey(origin, rowKey, k));
    }
  }

  /** A kept cell whose mapped cell is empty makes the comparison throw rather than report a
      difference. */
  lemma EmptyMappedCellThrows(side: Side, d: GridDiffDict, compareBody: seq<Row>, rowIdx: nat, colIdx: nat, m: nat, c: nat)
    requires Lookup(d, Key(side, RowMapping, rowIdx)) == Some(Index(m)) && m < |compareBody|
    requires Lookup(d, Key(side, ColMapping, colIdx)) == Some(Index(c))
    requires c >= |compareBody[m]| || Nullish(compareBody[m][c])
    ensures MappedCell(side, d, compareBody, rowIdx, colIdx) == Err(CellNotFound(Index(c)))
  {
  }
}
