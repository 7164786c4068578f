/** Choosing the questions of a pilot: in order, or round-robin over the question types. */
module RowSelection {
  import opened Outcomes
  import opened BoundedTexts

  datatype Row = Row(questionType: Field, questionId: Field)

  datatype Strategy = Sequential | Stratified | Unknown

  datatype SelectionError = StrategyInvalid | TypeInvalid | IdInvalid | LimitUnsatisfied

  // ---- groups ----

  /** The place of the row's type among the known ones. */
  function KindOf(types: seq<string>, row: Row): (kind: Option<nat>)
    ensures kind.Some? ==> kind.value < |types|
  {
    match BoundedText(row.questionType, 80)
    case None => None
    case Some(name) => FirstPlace(types, name, 0)
  }

  function FirstPlace(types: seq<string>, name: string, from: nat): (place: Option<nat>)
    requires from <= |types|
    ensures place.Some? ==> from <= place.value < |types| && types[place.value] == name
    ensures place.None? ==> forall t :: from <= t < |types| ==> types[t] != name
    decreases |types| - from
  {
    if from == |types| then None
    else if types[from] == name then Some(from)
    else FirstPlace(types, name, from + 1)
  }

  type Classifier = Row -> Option<nat>

  function ClassifierOf(types: seq<string>): Classifier {
    row => KindOf(types, row)
  }

  /** Those of the first `n` rows that are of a kind, in their order. */
  function OfKind(kindOf: Classifier, rows: seq<Row>, n: nat, kind: nat): seq<Row>
    requires n <= |rows|
  {
    if n == 0 then []
    else OfKind(kindOf, rows, n - 1, kind) + if kindOf(rows[n - 1]) == Some(kind) then [rows[n - 1]] else []
  }

  // ---- the sampling order of a group ----

  predicate Ordered(key: Row -> nat, rows: seq<Row>) {
    forall i, j :: 0 <= i < j < |rows| ==> key(rows[i]) <= key(rows[j])
  }

  function InsertRow(key: Row -> nat, row: Row, rows: seq<Row>): seq<Row> {
    if rows == [] then [row]
    else if key(row) <= key(rows[0]) then [row] + rows
    else [rows[0]] + InsertRow(key, row, rows[1..])
  }

  /** Python's stable sort by a key. */
  function SortRows(key: Row -> nat, rows: seq<Row>): seq<Row> {
    if rows == [] then [] else InsertRow(key, rows[0], SortRows(key, rows[1..]))
  }

  lemma {:induction false} InsertRowKeepsRows(key: Row -> nat, row: Row, rows: seq<Row>)
    ensures multiset(InsertRow(key, row, rows)) == multiset{row} + multiset(rows)
  {
    if rows != [] && key(row) > key(rows[0]) {
      InsertRowKeepsRows(key, row, rows[1..]);
      assert rows == [rows[0]] + rows[1..];
    }
  }

  lemma {:induction false} InsertRowKeepsOrder(key: Row -> nat, row: Row, rows: seq<Row>)
    requires Ordered(key, rows)
    ensures Ordered(key, InsertRow(key, row, rows))
  {
    if rows != [] && key(row) > key(rows[0]) {
      var later := InsertRow(key, row, rows[1..]);
      InsertRowKeepsOrder(key, row, rows[1..]);
      InsertRowKeepsRows(key, row, rows[1..]);
      forall j | 0 <= j < |later| ensures key(rows[0]) <= key(later[j]) {
        assert later[j] in multiset(later);
        assert later[j] == row || later[j] in rows[1..];
      }
    }
  }

  /** The sort orders the rows and keeps each as often as it was there. */
  lemma {:induction false} SortRowsSorts(key: Row -> nat, rows: seq<Row>)
    ensures Ordered(key, SortRows(key, rows)) && multiset(SortRows(key, rows)) == multiset(rows)
  {
    if rows != [] {
      var later := SortRows(key, rows[1..]);
      SortRowsSorts(key, rows[1..]);
      InsertRowKeepsOrder(key, rows[0], later);
      InsertRowKeepsRows(key, rows[0], later);
      assert rows == [rows[0]] + rows[1..];
    }
  }

  // ---- the table of groups, read row by row ----

  /** The `round`-th row of a kind. */
  datatype Turn = Turn(round: nat, kind: nat)

  predicate Earlier(a: Turn, b: Turn) {
    a.round < b.round || (a.round == b.round && a.kind < b.kind)
  }

  predicate IsTurn(groups: seq<seq<Row>>, turn: Turn) {
    turn.kind < |groups| && turn.round < |groups[turn.kind]|
  }

  /**
   * The selected rows are the first cells of the table that has a column for each
   * kind, read round by round: no cell is read before an earlier one.
   */
  ghost predicate ReadsByRounds(groups: seq<seq<Row>>, turns: seq<Turn>, selected: seq<Row>) {
    && |turns| == |selected|
    && (forall i :: 0 <= i < |turns| ==> IsTurn(groups, turns[i]) && selected[i] == groups[turns[i].kind][turns[i].round])
    && (forall i, j :: 0 <= i < j < |turns| ==> Earlier(turns[i], turns[j]))
    && (forall cell, i :: IsTurn(groups, cell) && 0 <= i < |turns| && Earlier(cell, turns[i]) ==> cell in turns)
  }

  /** How far the loop is: every cell before `next` has been taken, and nothing else. */
  ghost predicate TakenUpTo(groups: seq<seq<Row>>, turns: seq<Turn>, offsets: seq<nat>, next: Turn) {
    && |offsets| == |groups|
    && (forall cell :: cell in turns <==> IsTurn(groups, cell) && Earlier(cell, next))
    && (forall t :: 0 <= t < |groups| ==> offsets[t] == TakenOf(|groups[t]|, next, t))
  }

  function TakenOf(size: nat, next: Turn, kind: nat): nat {
    var turns := if kind < next.kind then next.round + 1 else next.round;
    if turns < size then turns else size
  }

  // ---- what has been taken, as a bag of rows ----

  ghost predicate OffsetsFit(groups: seq<seq<Row>>, offsets: seq<nat>) {
    |offsets| == |groups| && forall t :: 0 <= t < |groups| ==> offsets[t] <= |groups[t]|
  }

  /** The taken rows of the first `n` kinds. */
  ghost function Prefixes(groups: seq<seq<Row>>, offsets: seq<nat>, n: nat): multiset<Row>
    requires OffsetsFit(groups, offsets) && n <= |groups|
  {
    if n == 0 then multiset{} else Prefixes(groups, offsets, n - 1) + multiset(groups[n - 1][..offsets[n - 1]])
  }

  lemma {:induction false} SamePrefixes(groups: seq<seq<Row>>, a: seq<nat>, b: seq<nat>, n: nat)
    requires OffsetsFit(groups, a) && OffsetsFit(groups, b) && n <= |groups| && a[..n] == b[..n]
    ensures Prefixes(groups, a, n) == Prefixes(groups, b, n)
  {
    if n > 0 {
      assert a[n - 1] == a[..n][n - 1] == b[..n][n - 1] == b[n - 1];
      assert a[..n - 1] == a[..n][..n - 1] == b[..n][..n - 1] == b[..n - 1];
      SamePrefixes(groups, a, b, n - 1);
    }
  }

  lemma {:induction false} TakeOne(groups: seq<seq<Row>>, a: seq<nat>, b: seq<nat>, t: nat, n: nat)
    requires OffsetsFit(groups, a) && OffsetsFit(groups, b) && t < n <= |groups| && a[t] < |groups[t]|
    requires b == a[t := a[t] + 1]
    ensures Prefixes(groups, b, n) == Prefixes(groups, a, n) + multiset{groups[t][a[t]]}
  {
    if t == n - 1 {
      SamePrefixes(groups, a, b, n - 1);
      assert groups[t][..b[t]] == groups[t][..a[t]] + [groups[t][a[t]]];
    } else {
      TakeOne(groups, a, b, t, n - 1);
    }
  }

  ghost function AllRows(groups: seq<seq<Row>>, n: nat): multiset<Row>
    requires n <= |groups|
  {
    if n == 0 then multiset{} else AllRows(groups, n - 1) + multiset(groups[n - 1])
  }

  lemma {:induction false} PrefixesWithinAll(groups: seq<seq<Row>>, offsets: seq<nat>, n: nat)
    requires OffsetsFit(groups, offsets) && n <= |groups|
    ensures Prefixes(groups, offsets, n) <= AllRows(groups, n)
    ensures (forall t :: 0 <= t < n ==> offsets[t] == |groups[t]|) ==> Prefixes(groups, offsets, n) == AllRows(groups, n)
  {
    if n > 0 {
      PrefixesWithinAll(groups, offsets, n - 1);
      var group, taken := groups[n - 1], offsets[n - 1];
      assert group == group[..taken] + group[taken..];
      assert taken == |group| ==> group[..taken] == group;
    }
  }

  // ---- the loop ----

  /** One turn: the next row of a kind, if it has one left. */
  method TakeTurn(groups: seq<seq<Row>>, t: nat, ghost round: nat, selected: seq<Row>, offsets: seq<nat>, ghost turns: seq<Turn>)
    returns (progressed: bool, selected': seq<Row>, offsets': seq<nat>, ghost turns': seq<Turn>)
    requires t < |groups| && Selecting(groups, turns, selected, offsets, Turn(round, t))
    ensures Selecting(groups, turns', selected', offsets', Turn(round, t + 1))
    ensures progressed <==> round < |groups[t]|
    ensures |selected'| == |selected| + if progressed then 1 else 0
  {
    ghost var turn := Turn(round, t);
    if offsets[t] >= |groups[t]| {
      return false, selected, offsets, turns;
    }
    selected', offsets', turns' := selected + [groups[t][offsets[t]]], offsets[t := offsets[t] + 1], turns + [turn];
    TakeOne(groups, offsets, offsets', t, |groups|);
    progressed := true;
  }

  ghost predicate Selecting(groups: seq<seq<Row>>, turns: seq<Turn>, selected: seq<Row>, offsets: seq<nat>, next: Turn) {
    && ReadsByRounds(groups, turns, selected)
    && TakenUpTo(groups, turns, offsets, next)
    && multiset(selected) == Prefixes(groups, offsets, |groups|)
  }

  lemma NextRound(groups: seq<seq<Row>>, turns: seq<Turn>, selected: seq<Row>, offsets: seq<nat>, round: nat)
    requires Selecting(groups, turns, selected, offsets, Turn(round, |groups|))
    ensures Selecting(groups, turns, selected, offsets, Turn(round + 1, 0))
  {
    forall cell | IsTurn(groups, cell)
      ensures Earlier(cell, Turn(round, |groups|)) <==> Earlier(cell, Turn(round + 1, 0)) {
    }
  }

  /** A row for each kind that has one left, until the limit is reached. */
  method DealRound(groups: seq<seq<Row>>, limit: int, ghost round: nat, from: seq<Row>, start: seq<nat>, ghost before: seq<Turn>)
    returns (progressed: bool, selected: seq<Row>, offsets: seq<nat>, ghost turns: seq<Turn>, ghost next: Turn)
    requires |from| < limit && Selecting(groups, before, from, start, Turn(round, 0))
    ensures Selecting(groups, turns, selected, offsets, next)
    ensures |from| <= |selected| <= limit && (progressed <==> |selected| > |from|)
    ensures |selected| < limit ==> next == Turn(round + 1, 0)
    ensures !progressed ==> forall t :: 0 <= t < |groups| ==> offsets[t] == |groups[t]|
  {
    progressed, selected, offsets, turns := false, from, start, before;
    next := Turn(round, 0);
    for t := 0 to |groups|
      invariant next == Turn(round, t) && Selecting(groups, turns, selected, offsets, next)
      invariant |from| <= |selected| < limit && (progressed <==> |selected| > |from|)
      invariant !progressed ==> forall u :: 0 <= u < t ==> |groups[u]| <= round
    {
      var taken;
      taken, selected, offsets, turns := TakeTurn(groups, t, round, selected, offsets, turns);
      next := Turn(round, t + 1);
      progressed := progressed || taken;
      if |selected| == limit {
        return;
      }
    }
    NextRound(groups, turns, selected, offsets, round);
    next := Turn(round + 1, 0);
  }

  /** The stratified selection from the sorted groups. */
  method RoundRobin(groups: seq<seq<Row>>, limit: int)
    returns (selected: seq<Row>, ghost turns: seq<Turn>, ghost offsets: seq<nat>, ghost next: Turn)
    ensures Selecting(groups, turns, selected, offsets, next)
    ensures multiset(selected) <= AllRows(groups, |groups|)
    ensures |selected| == limit <==> 0 <= limit <= |AllRows(groups, |groups|)|
  {
    selected, turns, next := [], [], Turn(0, 0);
    var taken := seq(|groups|, _ => 0);
    NothingTaken(groups, taken, |groups|);
    while |selected| < limit
      invariant Selecting(groups, turns, selected, taken, next)
      invariant |selected| < limit ==> next.kind == 0
      invariant |selected| <= limit || (limit < 0 && selected == [])
      decreases limit - |selected|
    {
      var progressed;
      progressed, selected, taken, turns, next := DealRound(groups, limit, next.round, selected, taken, turns);
      if !progressed {
        break;
      }
    }
    offsets := taken;
    PrefixesWithinAll(groups, offsets, |groups|);
    BagSizes(selected, AllRows(groups, |groups|));
  }

  lemma BagSizes(selected: seq<Row>, all: multiset<Row>)
    requires multiset(selected) <= all
    ensures |selected| <= |all|
  {
    assert all == multiset(selected) + (all - multiset(selected));
    assert |multiset(selected)| == |selected|;
  }

  lemma {:induction false} NothingTaken(groups: seq<seq<Row>>, offsets: seq<nat>, n: nat)
    requires |offsets| == |groups| && n <= |groups| && forall t :: 0 <= t < |groups| ==> offsets[t] == 0
    ensures Prefixes(groups, offsets, n) == multiset{}
  {
    if n > 0 {
      NothingTaken(groups, offsets, n - 1);
      assert groups[n - 1][..0] == [];
    }
  }

  // ---- what the selection is ----

  /**
   * A selection consists of the first `offsets[t]` rows of each kind; while a kind has
   * rows left, no other kind is more than one row ahead, and no later one is ahead at all.
   */
  lemma KindsAreBalanced(groups: seq<seq<Row>>, turns: seq<Turn>, selected: seq<Row>, offsets: seq<nat>, next: Turn)
    requires Selecting(groups, turns, selected, offsets, next)
    ensures OffsetsFit(groups, offsets) && multiset(selected) == Prefixes(groups, offsets, |groups|)
    ensures forall t: nat, r: nat :: t < |groups| ==> (Turn(r, t) in turns <==> r < offsets[t])
    ensures forall t, u :: 0 <= t < |groups| && 0 <= u < |groups| && offsets[t] < |groups[t]| ==>
      offsets[u] <= offsets[t] + 1 && (t < u ==> offsets[u] <= offsets[t])
  {
    forall t: nat, r: nat | t < |groups| ensures Turn(r, t) in turns <==> r < offsets[t] {
      assert Turn(r, t) in turns <==> IsTurn(groups, Turn(r, t)) && Earlier(Turn(r, t), next);
    }
  }

  lemma SamePrefixSameNext(groups: seq<seq<Row>>, a: seq<Turn>, b: seq<Turn>, rows: seq<Row>, others: seq<Row>, n: nat)
    requires ReadsByRounds(groups, a, rows) && ReadsByRounds(groups, b, others) && n < |a| == |b| && a[..n] == b[..n]
    ensures !Earlier(a[n], b[n])
  {
    assert forall j :: 0 <= j < n ==> a[j] == a[..n][j] == b[..n][j] == b[j];
  }

  /** There is only one selection of a given size that reads the table by rounds. */
  lemma {:induction false} SelectionIsDetermined(groups: seq<seq<Row>>, a: seq<Turn>, b: seq<Turn>, rows: seq<Row>, others: seq<Row>, n: nat)
    requires ReadsByRounds(groups, a, rows) && ReadsByRounds(groups, b, others) && n <= |a| == |b|
    ensures a[..n] == b[..n] && rows[..n] == others[..n]
  {
    if n > 0 {
      SelectionIsDetermined(groups, a, b, rows, others, n - 1);
      SamePrefixSameNext(groups, a, b, rows, others, n - 1);
      SamePrefixSameNext(groups, b, a, others, rows, n - 1);
      assert a[..n] == a[..n - 1] + [a[n - 1]] && b[..n] == b[..n - 1] + [b[n - 1]];
      assert rows[..n] == rows[..n - 1] + [rows[n - 1]] && others[..n] == others[..n - 1] + [others[n - 1]];
    }
  }

  // ---- the whole selection ----

  function ClassifyId(digest: string -> Option<nat>, row: Row): Option<nat> {
    match BoundedText(row.questionId, 40)
    case None => None
    case Some(id) => digest(id)
  }

  /** The row's identifier is a bounded text that has a digest. */
  predicate HasDigest(digest: string -> Option<nat>, row: Row) {
    BoundedText(row.questionId, 40).Some? && digest(BoundedText(row.questionId, 40).value).Some?
  }

  /** The digest that orders the rows of a kind; `digest` refuses text that is not ASCII. */
  function SampleKey(digest: string -> Option<nat>): Row -> nat {
    (row: Row) => match ClassifyId(digest, row) case None => 0 case Some(n) => n
  }

  function SortedGroups(kindOf: Classifier, kinds: nat, key: Row -> nat, rows: seq<Row>): (groups: seq<seq<Row>>)
    ensures |groups| == kinds
  {
    seq(kinds, t requires 0 <= t < kinds => SortRows(key, OfKind(kindOf, rows, |rows|, t)))
  }

  lemma {:induction false} AppendToGroup(groups: seq<seq<Row>>, more: seq<seq<Row>>, t: nat, row: Row, n: nat)
    requires t < |groups| && n <= |groups| && more == groups[t := groups[t] + [row]]
    ensures AllRows(more, n) == AllRows(groups, n) + if t < n then multiset{row} else multiset{}
  {
    if n > 0 {
      AppendToGroup(groups, more, t, row, n - 1);
      if t == n - 1 {
        OneMoreRow(AllRows(groups, n - 1), groups[t], row);
      }
    }
  }

  lemma OneMoreRow(earlier: multiset<Row>, rows: seq<Row>, row: Row)
    ensures earlier + multiset(rows + [row]) == (earlier + multiset(rows)) + multiset{row}
  {
  }

  /** Sorting the groups neither loses nor doubles a row. */
  lemma {:induction false} SortingKeepsRows(key: Row -> nat, groups: seq<seq<Row>>, sorted: seq<seq<Row>>, n: nat)
    requires n <= |groups| == |sorted| && forall t :: 0 <= t < |groups| ==> sorted[t] == SortRows(key, groups[t])
    ensures AllRows(sorted, n) == AllRows(groups, n)
  {
    if n > 0 {
      SortingKeepsRows(key, groups, sorted, n - 1);
      SortRowsSorts(key, groups[n - 1]);
    }
  }

  lemma {:induction false} EmptyGroups(groups: seq<seq<Row>>, n: nat)
    requires n <= |groups| && forall t :: 0 <= t < |groups| ==> groups[t] == []
    ensures AllRows(groups, n) == multiset{}
  {
    if n > 0 {
      EmptyGroups(groups, n - 1);
    }
  }

  /** Python's `rows[:limit]`, where a negative limit counts from the end. */
  function FirstRows(rows: seq<Row>, limit: int): seq<Row> {
    if limit > |rows| then rows
    else if limit >= 0 then rows[..limit]
    else if |rows| + limit >= 0 then rows[..|rows| + limit]
    else []
  }

  function SamplingGroups(types: seq<string>, digest: string -> Option<nat>, rows: seq<Row>): (groups: seq<seq<Row>>)
    ensures |groups| == |types|
  {
    SortedGroups(ClassifierOf(types), |types|, SampleKey(digest), rows)
  }

  /** Rows in the order of their identifiers' digests. */
  predicate NotAfter(digest: string -> Option<nat>, a: Row, b: Row) {
    HasDigest(digest, a) && HasDigest(digest, b) ==>
      digest(BoundedText(a.questionId, 40).value).value <= digest(BoundedText(b.questionId, 40).value).value
  }

  /** The row's type text is this one. */
  predicate IsOfType(row: Row, name: string) {
    BoundedText(row.questionType, 80) == Some(name)
  }

  lemma KindIs(types: seq<string>, row: Row)
    ensures KindOf(types, row).None? <==> forall t :: 0 <= t < |types| ==> !IsOfType(row, types[t])
    ensures KindOf(types, row).Some? ==> IsOfType(row, types[KindOf(types, row).value])
  {
    assert BoundedText(row.questionType, 80).Some? ==>
      forall t :: 0 <= t < |types| ==> (IsOfType(row, types[t]) <==> types[t] == BoundedText(row.questionType, 80).value);
  }

  predicate IsOfNoType(row: Row, types: seq<string>) {
    forall t :: 0 <= t < |types| ==> !IsOfType(row, types[t])
  }

  lemma UnknownTypes(types: seq<string>, rows: seq<Row>)
    ensures (forall i :: 0 <= i < |rows| ==> ClassifierOf(types)(rows[i]).Some?) <==> !exists i :: 0 <= i < |rows| && IsOfNoType(rows[i], types)
  {
    forall i | 0 <= i < |rows| ensures ClassifierOf(types)(rows[i]).None? <==> IsOfNoType(rows[i], types) {
      KindIs(types, rows[i]);
    }
  }

  lemma {:induction false} OfKindCounts(kindOf: Classifier, rows: seq<Row>, n: nat, kind: nat, row: Row)
    requires n <= |rows|
    ensures multiset(OfKind(kindOf, rows, n, kind))[row] == if kindOf(row) == Some(kind) then multiset(rows[..n])[row] else 0
  {
    if n > 0 {
      OfKindCounts(kindOf, rows, n - 1, kind, row);
      assert rows[..n] == rows[..n - 1] + [rows[n - 1]];
    }
  }

  /** A group has exactly the rows of its type, each as often as it was given, in the order of their identifiers' digests. */
  lemma GroupsAre(types: seq<string>, digest: string -> Option<nat>, rows: seq<Row>, t: nat, row: Row)
    requires t < |types| && forall u :: 0 <= u < |types| && u != t ==> types[u] != types[t]
    ensures var group := SamplingGroups(types, digest, rows)[t];
      && multiset(group)[row] == (if IsOfType(row, types[t]) then multiset(rows)[row] else 0)
      && forall i, j :: 0 <= i < j < |group| ==> NotAfter(digest, group[i], group[j])
  {
    var kindOf, key := ClassifierOf(types), SampleKey(digest);
    var given := OfKind(kindOf, rows, |rows|, t);
    KindIs(types, row);
    OfKindCounts(kindOf, rows, |rows|, t, row);
    SortRowsSorts(key, given);
    assert rows[..|rows|] == rows;
    assert SamplingGroups(types, digest, rows)[t] == SortRows(key, given);
  }

  /** The table has the first `i` rows, each once and in the column of its kind. */
  ghost predicate Grouped(kindOf: Classifier, rows: seq<Row>, i: nat, table: seq<seq<Row>>)
    requires i <= |rows|
  {
    && (forall t :: 0 <= t < |table| ==> table[t] == OfKind(kindOf, rows, i, t))
    && AllRows(table, |table|) == multiset(rows[..i])
  }

  lemma GroupedNext(kindOf: Classifier, rows: seq<Row>, i: nat, table: seq<seq<Row>>, more: seq<seq<Row>>)
    requires i < |rows| && Grouped(kindOf, rows, i, table)
    requires kindOf(rows[i]).Some? && kindOf(rows[i]).value < |table|
    requires more == table[kindOf(rows[i]).value := table[kindOf(rows[i]).value] + [rows[i]]]
    ensures Grouped(kindOf, rows, i + 1, more)
  {
    assert rows[..i + 1] == rows[..i] + [rows[i]];
    AppendToGroup(table, more, kindOf(rows[i]).value, rows[i], |table|);
  }

  /** The rows by kind, each kind in the given order; `None` when a row has no known type. */
  method GroupRows(kindOf: Classifier, kinds: nat, rows: seq<Row>) returns (groups: Option<seq<seq<Row>>>)
    requires forall row :: kindOf(row).Some? ==> kindOf(row).value < kinds
    ensures groups.Some? <==> forall i :: 0 <= i < |rows| ==> kindOf(rows[i]).Some?
    ensures groups.Some? ==> |groups.value| == kinds && Grouped(kindOf, rows, |rows|, groups.value)
  {
    var table: seq<seq<Row>> := seq(kinds, _ => []);
    EmptyGroups(table, kinds);
    for i := 0 to |rows|
      invariant |table| == kinds && Grouped(kindOf, rows, i, table)
      invariant forall k :: 0 <= k < i ==> kindOf(rows[k]).Some?
    {
      var kind := kindOf(rows[i]);
      if kind.None? {
        return None;
      }
      var more := table[kind.value := table[kind.value] + [rows[i]]];
      GroupedNext(kindOf, rows, i, table, more);
      table := more;
    }
    return Some(table);
  }

  method SortGroups(key: Row -> nat, groups: seq<seq<Row>>) returns (sorted: seq<seq<Row>>)
    ensures |sorted| == |groups| && forall t :: 0 <= t < |groups| ==> sorted[t] == SortRows(key, groups[t])
    ensures AllRows(sorted, |groups|) == AllRows(groups, |groups|)
  {
    sorted := [];
    for t := 0 to |groups|
      invariant |sorted| == t && forall u :: 0 <= u < t ==> sorted[u] == SortRows(key, groups[u])
    {
      sorted := sorted + [SortRows(key, groups[t])];
    }
    SortingKeepsRows(key, groups, sorted, |groups|);
  }

  method EveryIdUsable(digest: string -> Option<nat>, rows: seq<Row>) returns (usable: bool)
    ensures usable <==> forall i :: 0 <= i < |rows| ==> HasDigest(digest, rows[i])
  {
    for i := 0 to |rows|
      invariant forall k :: 0 <= k < i ==> HasDigest(digest, rows[k])
    {
      if ClassifyId(digest, rows[i]).None? {
        return false;
      }
    }
    return true;
  }

  /**
   * A stratified selection succeeds exactly when every row has a known type and a
   * usable identifier and there are rows enough; it then has `limit` rows, none
   * more often than given, read by rounds from the sorted groups.
   */
  method SelectRows(types: seq<string>, digest: string -> Option<nat>, rows: seq<Row>, limit: int, strategy: Strategy)
    returns (result: Result<seq<Row>, SelectionError>, ghost turns: seq<Turn>, ghost offsets: seq<nat>, ghost next: Turn)
    ensures strategy == Sequential ==>
      && result.Ok? && result.value <= rows
      && |result.value| == if limit < -|rows| then 0 else if limit < 0 then |rows| + limit else if limit < |rows| then limit else |rows|
    ensures strategy == Unknown ==> result == Err(StrategyInvalid)
    ensures strategy == Stratified ==>
      (result == Err(TypeInvalid) <==> exists i :: 0 <= i < |rows| && IsOfNoType(rows[i], types))
    ensures strategy == Stratified && result != Err(TypeInvalid) ==>
      (result == Err(IdInvalid) <==> exists i :: 0 <= i < |rows| && !HasDigest(digest, rows[i]))
    ensures strategy == Stratified && result != Err(TypeInvalid) && result != Err(IdInvalid) ==>
      (result.Ok? <==> 0 <= limit <= |rows|)
    ensures strategy == Stratified && result.Ok? ==>
      && |result.value| == limit && multiset(result.value) <= multiset(rows)
      && Selecting(SamplingGroups(types, digest, rows), turns, result.value, offsets, next)
  {
    turns, offsets, next := [], [], Turn(0, 0);
    if strategy == Sequential {
      return Ok(FirstRows(rows, limit)), [], [], next;
    }
    if strategy != Stratified {
      return Err(StrategyInvalid), [], [], next;
    }
    hide IsOfType, KindOf, Selecting;
    UnknownTypes(types, rows);
    var grouped := GroupRows(ClassifierOf(types), |types|, rows);
    if grouped.None? {
      return Err(TypeInvalid), [], [], next;
    }
    var usable := EveryIdUsable(digest, rows);
    if !usable {
      return Err(IdInvalid), [], [], next;
    }
    var groups := SortGroups(SampleKey(digest), grouped.value);
    assert groups == SamplingGroups(types, digest, rows);
    assert rows[..|rows|] == rows && |multiset(rows)| == |rows|;
    var selected;
    selected, turns, offsets, next := RoundRobin(groups, limit);
    return if |selected| == limit then Ok(selected) else Err(LimitUnsatisfied), turns, offsets, next;
  }
}
